/** The dataset reader's format dispatch and its JSON preview: dispatch on
    the lower-cased extension, the non-tabular branches of the JSON reader,
    and the depth- and item-limited structure printer
    (openhands/runtime/plugins/agent_skills/file_reader/dataset_parsers.py).
    Printed output is the sequence of the strings handed to `print`, one
    element per call. */
module DatasetParsers {
  import opened Common
  import opened Text

  // ---------------------------------------------------------------------
  // JSON values and how Python renders them

  /** A value as `json.load` returns it: an object's keys are distinct (a
      Python dict holds each key once) and kept in file order; a number
      carries the text Python renders for it. Distinctness is not enforced
      by the type: a `JObject` with a repeated key stands for no dict. */
  datatype Json =
    | JNull
    | JBool(b: bool)
    | JNumber(text: string)
    | JString(s: string)
    | JArray(items: seq<Json>)
    | JObject(fields: seq<Field>)

  datatype Field = Field(key: string, value: Json)

  predicate IsContainer(j: Json)
  {
    j.JArray? || j.JObject?
  }

  /** `repr` of a string: single quotes, unless the text holds a single
      quote and no double quote. */
  function QuoteRepr(s: string): string
  {
    if '\'' in s && '"' !in s then "\"" + s + "\"" else "'" + s + "'"
  }

  /** `repr(j)`, which `str` of a list or dict uses for its elements. */
  function Repr(j: Json): string
    decreases j
  {
    match j
    case JNull => "None"
    case JBool(b) => if b then "True" else "False"
    case JNumber(t) => t
    case JString(s) => QuoteRepr(s)
    case JArray(items) =>
      "[" + Join(seq(|items|, i requires 0 <= i < |items| => Repr(items[i])), ", ") + "]"
    case JObject(fields) =>
      "{" + Join(seq(|fields|, i requires 0 <= i < |fields| =>
                   QuoteRepr(fields[i].key) + ": " + Repr(fields[i].value)), ", ") + "}"
  }

  /** `str(j)`: a string prints bare, everything else as its `repr`. */
  function Str(j: Json): string
  {
    if j.JString? then j.s else Repr(j)
  }

  // ---------------------------------------------------------------------
  // Printed output

  /** What a call printed, and the exception that stopped it, if any. */
  datatype Printout = Printout(lines: seq<string>, error: Option<string>)

  function Lines(lines: seq<string>): Printout
  {
    Printout(lines, None)
  }

  /** Running `p` and then `q`; an exception in `p` means `q` never runs. */
  function Then(p: Printout, q: Printout): (r: Printout)
    ensures p.error.Some? ==> r == p
    ensures p.error.None? ==> r.lines == p.lines + q.lines && r.error == q.error
  {
    if p.error.Some? then p else Printout(p.lines + q.lines, q.error)
  }

  /** Running each of `ps` in turn, up to the first exception. */
  function Sequence(ps: seq<Printout>): (r: Printout)
    ensures (forall i :: 0 <= i < |ps| ==> ps[i].error.None?) ==> r.error.None?
    decreases |ps|
  {
    if |ps| == 0 then Lines([]) else Then(ps[0], Sequence(ps[1..]))
  }

  /** `"  " * depth`. */
  function Indent(depth: nat): (s: string)
    ensures |s| == 2 * depth
    ensures forall i :: 0 <= i < |s| ==> s[i] == ' '
  {
    if depth == 0 then "" else "  " + Indent(depth - 1)
  }

  /** The report that `n` more entries were left out. */
  function MoreLine(indent: string, n: nat, what: string): string
  {
    indent + "[..." + NatToDecimal(n) + " more " + what + " not shown...]"
  }

  function Min(a: nat, b: nat): nat
  {
    if a < b then a else b
  }

  /** The message a Python `IndexError` carries for `xs[0]` on an empty
      list. */
  const IndexOutOfRange := "list index out of range"

  /** The overflow line, if entries were left out. */
  function OverflowLines(indent: string, n: nat, maxItems: nat, what: string): seq<string>
  {
    if n > maxItems then [MoreLine(indent, n - maxItems, what)] else []
  }

  /** `_print_json_structure(data, max_depth, current_depth, max_items)`. */
  function Structure(data: Json, maxDepth: nat, depth: nat, maxItems: nat): (r: Printout)
    ensures depth >= maxDepth ==> r == Lines([Indent(depth) + "[...]"])
    decreases data, 3
  {
    if depth >= maxDepth then Lines([Indent(depth) + "[...]"])
    else match data
      case JObject(_) => ObjectPreview(data, maxDepth, depth, maxItems)
      case JArray(_) => ArrayPreview(data, maxDepth, depth, maxItems)
      case _ => Lines([Indent(depth) + Str(data)])
  }

  /** The dict branch: the entries shown, then the overflow line. */
  function ObjectPreview(data: Json, maxDepth: nat, depth: nat, maxItems: nat): Printout
    requires data.JObject?
    decreases data, 2
  {
    var n := |data.fields|;
    Then(Sequence(ObjectEntries(data, maxDepth, depth, maxItems)), Lines(OverflowLines(Indent(depth), n, maxItems, "keys")))
  }

  /** The list branch: "[]" for an empty list, `display_items[0]` raising
      for a limit of zero, else the items shown and the overflow line. */
  function ArrayPreview(data: Json, maxDepth: nat, depth: nat, maxItems: nat): Printout
    requires data.JArray?
    decreases data, 2
  {
    var items := data.items;
    if |items| == 0 then Lines([Indent(depth) + "[]"])
    else if maxItems == 0 then Printout([], Some(IndexOutOfRange))
    else Then(ArrayBody(data, maxDepth, depth, maxItems),
              Lines(OverflowLines(Indent(depth), |items|, maxItems, "items")))
  }

  /** The printout of a non-empty list's shown items, before the overflow
      line. */
  function ArrayBody(data: Json, maxDepth: nat, depth: nat, maxItems: nat): Printout
    requires data.JArray? && |data.items| > 0
    decreases data, 1
  {
    var items := data.items;
    if IsContainer(items[0]) then Sequence(ArrayEntries(data, maxDepth, depth, maxItems))
    else Lines([Indent(depth) + Repr(JArray(items[..Min(|items|, maxItems)]))])
  }

  /** The dict loop: one printout per entry shown, a scalar value on the
      key's line, a container under a "key:" line one level deeper. */
  function ObjectEntries(data: Json, maxDepth: nat, depth: nat, maxItems: nat): (ps: seq<Printout>)
    requires data.JObject?
    ensures |ps| == Min(|data.fields|, maxItems)
    decreases data, 0
  {
    var indent := Indent(depth);
    var fields := data.fields;
    seq(Min(|fields|, maxItems), i requires 0 <= i < Min(|fields|, maxItems) =>
      if IsContainer(fields[i].value) then
        Then(Lines([indent + fields[i].key + ":"]), Structure(fields[i].value, maxDepth, depth + 1, maxItems))
      else Lines([indent + fields[i].key + ": " + Str(fields[i].value)]))
  }

  /** The list loop over container items: an "Item i:" line, then the item
      one level deeper. */
  function ArrayEntries(data: Json, maxDepth: nat, depth: nat, maxItems: nat): (ps: seq<Printout>)
    requires data.JArray?
    ensures |ps| == Min(|data.items|, maxItems)
    decreases data, 0
  {
    var indent := Indent(depth);
    var items := data.items;
    seq(Min(|items|, maxItems), i requires 0 <= i < Min(|items|, maxItems) =>
      Then(Lines([indent + "Item " + NatToDecimal(i) + ":"]), Structure(items[i], maxDepth, depth + 1, maxItems)))
  }

  // ---------------------------------------------------------------------
  // What the structure printer promises

  predicate AllStartWith(lines: seq<string>, prefix: string)
  {
    forall i :: 0 <= i < |lines| ==> StartsWith(lines[i], prefix)
  }

  lemma {:induction false} SequenceAllStartWith(ps: seq<Printout>, prefix: string)
    requires forall i :: 0 <= i < |ps| ==> AllStartWith(ps[i].lines, prefix)
    ensures AllStartWith(Sequence(ps).lines, prefix)
    decreases |ps|
  {
    if |ps| > 0 {
      SequenceAllStartWith(ps[1..], prefix);
    }
  }

  /** `n * c`, as repeated addition. */
  function Times(n: nat, c: nat): nat
  {
    if n == 0 then 0 else c + Times(n - 1, c)
  }

  lemma {:induction false} TimesMono(a: nat, b: nat, c: nat)
    requires a <= b
    ensures Times(a, c) <= Times(b, c)
    decreases b
  {
    if a < b {
      TimesMono(a, b - 1, c);
    }
  }

  /** Each `Printout` prints at most `c` lines, so all of them at most
      `|ps|` times `c`. */
  lemma {:induction false} SequenceLength(ps: seq<Printout>, c: nat)
    requires forall i :: 0 <= i < |ps| ==> |ps[i].lines| <= c
    ensures |Sequence(ps).lines| <= Times(|ps|, c)
    decreases |ps|
  {
    if |ps| > 0 {
      var rest := ps[1..];
      SequenceLength(rest, c);
      assert Sequence(ps) == Then(ps[0], Sequence(rest));
      assert |Sequence(ps).lines| <= c + |Sequence(rest).lines|;
    }
  }

  /** Printouts of one line each, none failing, print those lines. */
  lemma {:induction false} SequenceOfSingleLines(ps: seq<Printout>, lines: seq<string>)
    requires |ps| == |lines|
    requires forall i :: 0 <= i < |ps| ==> ps[i] == Lines([lines[i]])
    ensures Sequence(ps) == Lines(lines)
    decreases |ps|
  {
    if |ps| > 0 {
      SequenceOfSingleLines(ps[1..], lines[1..]);
      assert [lines[0]] + lines[1..] == lines;
    }
  }

  lemma IndentGrows(depth: nat)
    ensures StartsWith(Indent(depth + 1), Indent(depth))
  {
    var a, b := Indent(depth), Indent(depth + 1);
    assert forall i :: 0 <= i < |a| ==> a[i] == b[i];
    assert b[..|a|] == a;
  }

  lemma StartsWithTrans(s: string, p: string, q: string)
    requires StartsWith(s, p) && StartsWith(p, q)
    ensures StartsWith(s, q)
  {
  }

  /** A nested printout's lines, behind a header at this level, all start
      with this level's indent. */
  lemma NestedIndented(header: string, sub: Printout, depth: nat)
    requires StartsWith(header, Indent(depth))
    requires AllStartWith(sub.lines, Indent(depth + 1))
    ensures AllStartWith(Then(Lines([header]), sub).lines, Indent(depth))
  {
    IndentGrows(depth);
    forall k | 0 <= k < |sub.lines|
      ensures StartsWith(sub.lines[k], Indent(depth))
    {
      StartsWithTrans(sub.lines[k], Indent(depth + 1), Indent(depth));
    }
  }

  /** Every printed line is indented by two spaces per level of depth. */
  lemma {:induction false} StructureIndented(data: Json, maxDepth: nat, depth: nat, maxItems: nat)
    ensures AllStartWith(Structure(data, maxDepth, depth, maxItems).lines, Indent(depth))
    decreases data, 1
  {
    if depth < maxDepth {
      if data.JObject? {
        ObjectEntriesIndented(data, maxDepth, depth, maxItems);
      } else if data.JArray? && |data.items| > 0 && maxItems > 0 {
        ArrayPreviewLines(data, maxDepth, depth, maxItems);
        var body := ArrayBody(data, maxDepth, depth, maxItems);
        if IsContainer(data.items[0]) {
          ArrayEntriesIndented(data, maxDepth, depth, maxItems);
          assert body == Sequence(ArrayEntries(data, maxDepth, depth, maxItems));
        } else {
          assert body == Lines([Indent(depth) + Repr(JArray(data.items[..Min(|data.items|, maxItems)]))]);
        }
      }
    }
  }

  lemma {:induction false} ObjectEntriesIndented(data: Json, maxDepth: nat, depth: nat, maxItems: nat)
    requires data.JObject?
    ensures AllStartWith(Sequence(ObjectEntries(data, maxDepth, depth, maxItems)).lines, Indent(depth))
    decreases data, 0
  {
    var ps := ObjectEntries(data, maxDepth, depth, maxItems);
    forall i | 0 <= i < |ps|
      ensures AllStartWith(ps[i].lines, Indent(depth))
    {
      var f := data.fields[i];
      if IsContainer(f.value) {
        StructureIndented(f.value, maxDepth, depth + 1, maxItems);
        NestedIndented(Indent(depth) + f.key + ":", Structure(f.value, maxDepth, depth + 1, maxItems), depth);
      }
    }
    SequenceAllStartWith(ps, Indent(depth));
  }

  lemma {:induction false} ArrayEntriesIndented(data: Json, maxDepth: nat, depth: nat, maxItems: nat)
    requires data.JArray?
    ensures AllStartWith(Sequence(ArrayEntries(data, maxDepth, depth, maxItems)).lines, Indent(depth))
    decreases data, 0
  {
    var ps := ArrayEntries(data, maxDepth, depth, maxItems);
    forall i | 0 <= i < |ps|
      ensures AllStartWith(ps[i].lines, Indent(depth))
    {
      StructureIndented(data.items[i], maxDepth, depth + 1, maxItems);
      NestedIndented(Indent(depth) + "Item " + NatToDecimal(i) + ":",
                     Structure(data.items[i], maxDepth, depth + 1, maxItems), depth);
    }
    SequenceAllStartWith(ps, Indent(depth));
  }

  /** With room for at least one item nothing raises; only a non-empty
      list met with a limit of zero does. */
  lemma {:induction false} StructureNoError(data: Json, maxDepth: nat, depth: nat, maxItems: nat)
    requires maxItems >= 1
    ensures Structure(data, maxDepth, depth, maxItems).error.None?
    decreases data, 1
  {
    if depth < maxDepth {
      if data.JObject? {
        ObjectEntriesNoError(data, maxDepth, depth, maxItems);
      } else if data.JArray? && |data.items| > 0 {
        var body := ArrayBody(data, maxDepth, depth, maxItems);
        if IsContainer(data.items[0]) {
          ArrayEntriesNoError(data, maxDepth, depth, maxItems);
          assert body == Sequence(ArrayEntries(data, maxDepth, depth, maxItems));
        } else {
          assert body == Lines([Indent(depth) + Repr(JArray(data.items[..Min(|data.items|, maxItems)]))]);
        }
      }
    }
  }

  lemma {:induction false} ObjectEntriesNoError(data: Json, maxDepth: nat, depth: nat, maxItems: nat)
    requires data.JObject? && maxItems >= 1
    ensures Sequence(ObjectEntries(data, maxDepth, depth, maxItems)).error.None?
    decreases data, 0
  {
    var ps := ObjectEntries(data, maxDepth, depth, maxItems);
    forall i | 0 <= i < |ps|
      ensures ps[i].error.None?
    {
      if IsContainer(data.fields[i].value) {
        StructureNoError(data.fields[i].value, maxDepth, depth + 1, maxItems);
      }
    }
  }

  lemma {:induction false} ArrayEntriesNoError(data: Json, maxDepth: nat, depth: nat, maxItems: nat)
    requires data.JArray? && maxItems >= 1
    ensures Sequence(ArrayEntries(data, maxDepth, depth, maxItems)).error.None?
    decreases data, 0
  {
    var ps := ArrayEntries(data, maxDepth, depth, maxItems);
    forall i | 0 <= i < |ps|
      ensures ps[i].error.None?
    {
      StructureNoError(data.items[i], maxDepth, depth + 1, maxItems);
    }
  }

  /** A limit of zero makes the first non-empty list raise IndexError
      before it prints anything. */
  lemma ZeroLimitOnList(items: seq<Json>, maxDepth: nat, depth: nat)
    requires |items| > 0 && depth < maxDepth
    ensures Structure(JArray(items), maxDepth, depth, 0) == Printout([], Some(IndexOutOfRange))
  {
  }

  /** The most lines a preview `levels` levels above the depth limit can
      print, with `m` items per container. */
  function LineBound(levels: nat, m: nat): (b: nat)
    ensures b >= 1
  {
    if levels == 0 then 1 else Times(m, 1 + LineBound(levels - 1, m)) + 1
  }

  /** The preview is bounded: its size depends on the limits, not on the
      size of the data. */
  lemma {:induction false} StructureLineBound(data: Json, maxDepth: nat, depth: nat, maxItems: nat)
    ensures |Structure(data, maxDepth, depth, maxItems).lines|
         <= LineBound(if depth < maxDepth then maxDepth - depth else 0, maxItems)
    decreases data, 1
  {
    if depth < maxDepth {
      var levels := maxDepth - depth;
      var sub := LineBound(levels - 1, maxItems);
      assert LineBound(levels, maxItems) == Times(maxItems, 1 + sub) + 1;
      if data.JObject? {
        ObjectEntriesBound(data, maxDepth, depth, maxItems);
      } else if data.JArray? && |data.items| > 0 && maxItems > 0 {
        if IsContainer(data.items[0]) {
          ArrayEntriesBound(data, maxDepth, depth, maxItems);
          assert ArrayBody(data, maxDepth, depth, maxItems) == Sequence(ArrayEntries(data, maxDepth, depth, maxItems));
        } else {
          assert ArrayBody(data, maxDepth, depth, maxItems)
              == Lines([Indent(depth) + Repr(JArray(data.items[..Min(|data.items|, maxItems)]))]);
          TimesMono(1, maxItems, 1 + sub);
        }
      }
    }
  }

  lemma {:induction false} ObjectEntriesBound(data: Json, maxDepth: nat, depth: nat, maxItems: nat)
    requires data.JObject? && depth < maxDepth
    ensures |Sequence(ObjectEntries(data, maxDepth, depth, maxItems)).lines|
         <= Times(maxItems, 1 + LineBound(maxDepth - depth - 1, maxItems))
    decreases data, 0
  {
    var sub := LineBound(maxDepth - depth - 1, maxItems);
    var ps := ObjectEntries(data, maxDepth, depth, maxItems);
    forall i | 0 <= i < |ps|
      ensures |ps[i].lines| <= 1 + sub
    {
      if IsContainer(data.fields[i].value) {
        StructureLineBound(data.fields[i].value, maxDepth, depth + 1, maxItems);
      }
    }
    SequenceLength(ps, 1 + sub);
    TimesMono(|ps|, maxItems, 1 + sub);
  }

  lemma {:induction false} ArrayEntriesBound(data: Json, maxDepth: nat, depth: nat, maxItems: nat)
    requires data.JArray? && depth < maxDepth
    ensures |Sequence(ArrayEntries(data, maxDepth, depth, maxItems)).lines|
         <= Times(maxItems, 1 + LineBound(maxDepth - depth - 1, maxItems))
    decreases data, 0
  {
    var sub := LineBound(maxDepth - depth - 1, maxItems);
    var ps := ArrayEntries(data, maxDepth, depth, maxItems);
    forall i | 0 <= i < |ps|
      ensures |ps[i].lines| <= 1 + sub
    {
      var q := Structure(data.items[i], maxDepth, depth + 1, maxItems);
      StructureLineBound(data.items[i], maxDepth, depth + 1, maxItems);
      assert ps[i] == Then(Lines([Indent(depth) + "Item " + NatToDecimal(i) + ":"]), q);
      assert |ps[i].lines| == 1 + |q.lines|;
    }
    SequenceLength(ps, 1 + sub);
    TimesMono(|ps|, maxItems, 1 + sub);
  }

  /** A dict of scalars prints one "key: value" line per entry shown, in
      order, and one overflow line exactly when entries were left out. */
  lemma ScalarObjectPreview(fields: seq<Field>, maxDepth: nat, depth: nat, maxItems: nat)
    requires depth < maxDepth
    requires forall i :: 0 <= i < |fields| ==> !IsContainer(fields[i].value)
    ensures var shown := Min(|fields|, maxItems);
      Structure(JObject(fields), maxDepth, depth, maxItems)
      == Lines(seq(shown, i requires 0 <= i < shown =>
                   Indent(depth) + fields[i].key + ": " + Str(fields[i].value))
               + (if |fields| > maxItems then [MoreLine(Indent(depth), |fields| - maxItems, "keys")] else []))
  {
    var data := JObject(fields);
    var shown := Min(|fields|, maxItems);
    var lines := seq(shown, i requires 0 <= i < shown =>
                   Indent(depth) + fields[i].key + ": " + Str(fields[i].value));
    SequenceOfSingleLines(ObjectEntries(data, maxDepth, depth, maxItems), lines);
  }

  /** A list whose first item is a scalar prints the shown slice on one
      line, followed by one overflow line exactly when items were left
      out. */
  lemma ScalarListPreview(items: seq<Json>, maxDepth: nat, depth: nat, maxItems: nat)
    requires depth < maxDepth && |items| > 0 && maxItems >= 1
    requires !IsContainer(items[0])
    ensures Structure(JArray(items), maxDepth, depth, maxItems)
      == Lines([Indent(depth) + Repr(JArray(items[..Min(|items|, maxItems)]))]
               + (if |items| > maxItems then [MoreLine(Indent(depth), |items| - maxItems, "items")] else []))
  {
    assert ArrayBody(JArray(items), maxDepth, depth, maxItems)
        == Lines([Indent(depth) + Repr(JArray(items[..Min(|items|, maxItems)]))]);
  }

  /** A dict entry holding a container prints "key:" and then the value's
      own preview one level deeper; for the first entry that is where the
      output starts. */
  lemma ContainerEntryNests(fields: seq<Field>, maxDepth: nat, depth: nat, maxItems: nat)
    requires depth < maxDepth && |fields| > 0 && maxItems >= 1
    requires IsContainer(fields[0].value)
    ensures var r := Structure(JObject(fields), maxDepth, depth, maxItems).lines;
      var sub := Structure(fields[0].value, maxDepth, depth + 1, maxItems).lines;
      |r| >= 1 + |sub| && r[0] == Indent(depth) + fields[0].key + ":" && r[1..1 + |sub|] == sub
  {
    var data := JObject(fields);
    ObjectPreviewLines(data, maxDepth, depth, maxItems);
    ObjectEntriesHead(data, maxDepth, depth, maxItems);
    var ps := ObjectEntries(data, maxDepth, depth, maxItems);
    HeadThenSlice(Indent(depth) + fields[0].key + ":", Structure(fields[0].value, maxDepth, depth + 1, maxItems).lines,
                  Sequence(ps[1..]).lines, OverflowLines(Indent(depth), |fields|, maxItems, "keys"));
  }

  /** With room for one item, a dict prints its entries and then the
      overflow line. */
  lemma ObjectPreviewLines(data: Json, maxDepth: nat, depth: nat, maxItems: nat)
    requires data.JObject? && depth < maxDepth && maxItems >= 1
    ensures Structure(data, maxDepth, depth, maxItems).lines
         == Sequence(ObjectEntries(data, maxDepth, depth, maxItems)).lines
            + OverflowLines(Indent(depth), |data.fields|, maxItems, "keys")
  {
    ObjectEntriesNoError(data, maxDepth, depth, maxItems);
  }

  /** The first entry of a dict whose first value is a container. */
  lemma ObjectEntriesHead(data: Json, maxDepth: nat, depth: nat, maxItems: nat)
    requires data.JObject? && |data.fields| > 0 && maxItems >= 1
    requires IsContainer(data.fields[0].value)
    ensures var ps := ObjectEntries(data, maxDepth, depth, maxItems);
      Sequence(ps).lines
      == [Indent(depth) + data.fields[0].key + ":"]
         + Structure(data.fields[0].value, maxDepth, depth + 1, maxItems).lines
         + Sequence(ps[1..]).lines
  {
    var ps := ObjectEntries(data, maxDepth, depth, maxItems);
    var sub := Structure(data.fields[0].value, maxDepth, depth + 1, maxItems);
    StructureNoError(data.fields[0].value, maxDepth, depth + 1, maxItems);
    assert ps[0] == Then(Lines([Indent(depth) + data.fields[0].key + ":"]), sub);
  }

  lemma HeadThenSlice<T>(h: T, xs: seq<T>, ys: seq<T>, zs: seq<T>)
    ensures var r := [h] + xs + ys + zs;
      |r| >= 1 + |xs| && r[0] == h && r[1..1 + |xs|] == xs
  {
    var r := [h] + xs + ys + zs;
    assert r == [h] + (xs + (ys + zs));
    assert r[1..] == xs + (ys + zs);
    assert r[1..][..|xs|] == xs;
  }

  /** With room for one item, a non-empty list prints its items and then
      the overflow line. */
  lemma ArrayPreviewLines(data: Json, maxDepth: nat, depth: nat, maxItems: nat)
    requires data.JArray? && |data.items| > 0 && depth < maxDepth && maxItems >= 1
    ensures Structure(data, maxDepth, depth, maxItems).lines
         == ArrayBody(data, maxDepth, depth, maxItems).lines
            + OverflowLines(Indent(depth), |data.items|, maxItems, "items")
  {
    if IsContainer(data.items[0]) {
      ArrayEntriesNoError(data, maxDepth, depth, maxItems);
    }
  }

  lemma LastOfAppend<T>(xs: seq<T>, x: T)
    ensures var r := xs + [x]; |r| > 0 && r[|r| - 1] == x
  {
  }

  /** Too many entries: the last line reports how many were left out. */
  lemma OverflowLineLast(data: Json, maxDepth: nat, depth: nat, maxItems: nat)
    requires depth < maxDepth && maxItems >= 1
    requires data.JObject? ==> |data.fields| > maxItems
    requires data.JArray? ==> |data.items| > maxItems
    requires IsContainer(data)
    ensures var r := Structure(data, maxDepth, depth, maxItems).lines;
      |r| > 0
      && r[|r| - 1] == if data.JObject? then MoreLine(Indent(depth), |data.fields| - maxItems, "keys")
                       else MoreLine(Indent(depth), |data.items| - maxItems, "items")
  {
    if data.JObject? {
      ObjectPreviewLines(data, maxDepth, depth, maxItems);
      LastOfAppend(Sequence(ObjectEntries(data, maxDepth, depth, maxItems)).lines,
                   MoreLine(Indent(depth), |data.fields| - maxItems, "keys"));
    } else {
      ArrayPreviewLines(data, maxDepth, depth, maxItems);
      LastOfAppend(ArrayBody(data, maxDepth, depth, maxItems).lines,
                   MoreLine(Indent(depth), |data.items| - maxItems, "items"));
    }
  }

  /** The blocks of lines, one after another. */
  function Concat(blocks: seq<seq<string>>): seq<string>
  {
    if |blocks| == 0 then [] else blocks[0] + Concat(blocks[1..])
  }

  /** Printouts that do not raise print their lines one block after the
      other. */
  lemma {:induction false} SequenceLines(ps: seq<Printout>)
    requires forall i :: 0 <= i < |ps| ==> ps[i].error.None?
    ensures Sequence(ps).lines == Concat(seq(|ps|, i requires 0 <= i < |ps| => ps[i].lines))
    decreases |ps|
  {
    if |ps| > 0 {
      SequenceLines(ps[1..]);
      var blocks := seq(|ps|, i requires 0 <= i < |ps| => ps[i].lines);
      assert blocks[1..] == seq(|ps| - 1, i requires 0 <= i < |ps| - 1 => ps[1..][i].lines);
    }
  }

  /** The lines of one dict entry: a scalar on the key's line, a container
      under a "key:" line with its own preview one level deeper. */
  function EntryLines(f: Field, maxDepth: nat, depth: nat, maxItems: nat): seq<string>
    decreases f.value, 4
  {
    if IsContainer(f.value) then
      [Indent(depth) + f.key + ":"] + Structure(f.value, maxDepth, depth + 1, maxItems).lines
    else [Indent(depth) + f.key + ": " + Str(f.value)]
  }

  /** A dict prints, for each entry shown, that entry's lines, in order,
      and then the overflow line. */
  lemma ObjectPreviewEntries(fields: seq<Field>, maxDepth: nat, depth: nat, maxItems: nat)
    requires depth < maxDepth && maxItems >= 1
    ensures var shown := Min(|fields|, maxItems);
      Structure(JObject(fields), maxDepth, depth, maxItems).lines
      == Concat(seq(shown, i requires 0 <= i < shown => EntryLines(fields[i], maxDepth, depth, maxItems)))
         + OverflowLines(Indent(depth), |fields|, maxItems, "keys")
  {
    var data := JObject(fields);
    var shown := Min(|fields|, maxItems);
    ObjectPreviewLines(data, maxDepth, depth, maxItems);
    var ps := ObjectEntries(data, maxDepth, depth, maxItems);
    forall i | 0 <= i < |ps|
      ensures ps[i].error.None? && ps[i].lines == EntryLines(fields[i], maxDepth, depth, maxItems)
    {
      if IsContainer(fields[i].value) {
        StructureNoError(fields[i].value, maxDepth, depth + 1, maxItems);
      }
    }
    SequenceLines(ps);
    assert seq(|ps|, i requires 0 <= i < |ps| => ps[i].lines)
        == seq(shown, i requires 0 <= i < shown => EntryLines(fields[i], maxDepth, depth, maxItems));
  }

  /** A list whose first item is a container prints, for each item shown,
      an "Item i:" line and then that item's preview one level deeper, in
      order, and then the overflow line. */
  lemma ContainerListPreview(items: seq<Json>, maxDepth: nat, depth: nat, maxItems: nat)
    requires depth < maxDepth && |items| > 0 && maxItems >= 1
    requires IsContainer(items[0])
    ensures var shown := Min(|items|, maxItems);
      Structure(JArray(items), maxDepth, depth, maxItems).lines
      == Concat(seq(shown, i requires 0 <= i < shown =>
                    [Indent(depth) + "Item " + NatToDecimal(i) + ":"]
                    + Structure(items[i], maxDepth, depth + 1, maxItems).lines))
         + OverflowLines(Indent(depth), |items|, maxItems, "items")
  {
    var data := JArray(items);
    var shown := Min(|items|, maxItems);
    ArrayPreviewLines(data, maxDepth, depth, maxItems);
    var ps := ArrayEntries(data, maxDepth, depth, maxItems);
    assert ArrayBody(data, maxDepth, depth, maxItems) == Sequence(ps);
    forall i | 0 <= i < |ps|
      ensures ps[i].error.None?
      ensures ps[i].lines == [Indent(depth) + "Item " + NatToDecimal(i) + ":"]
                             + Structure(items[i], maxDepth, depth + 1, maxItems).lines
    {
      StructureNoError(items[i], maxDepth, depth + 1, maxItems);
    }
    SequenceLines(ps);
    assert seq(|ps|, i requires 0 <= i < |ps| => ps[i].lines)
        == seq(shown, i requires 0 <= i < shown =>
               [Indent(depth) + "Item " + NatToDecimal(i) + ":"]
               + Structure(items[i], maxDepth, depth + 1, maxItems).lines);
  }



  // ---------------------------------------------------------------------
  // The JSON reader

  /** What opening and loading the file gives: the value, or the message
      of the exception raised. */
  datatype LoadOutcome = Loaded(data: Json) | LoadFailed(message: string)

  function Keys(fields: seq<Field>): (keys: seq<string>)
    ensures |keys| == |fields|
    ensures forall i :: 0 <= i < |fields| ==> keys[i] == fields[i].key
  {
    seq(|fields|, i requires 0 <= i < |fields| => fields[i].key)
  }

  function MoreItemsLine(total: nat, maxItems: nat): seq<string>
  {
    if total > maxItems then ["\n[..." + NatToDecimal(total - maxItems) + " more items not shown...]"] else []
  }

  /** `parse_json(file_path, max_items)`, apart from the table pandas
      renders for a list of dicts, which `frame` stands for. */
  function ParseJson(path: string, load: LoadOutcome, frame: string, maxItems: nat := 10): (out: seq<string>)
    ensures |out| >= 2 && out[0] == "[Reading JSON dataset from " + path + "]"
    ensures load.LoadFailed? ==> out == [out[0], "Error parsing JSON file: " + load.message]
  {
    ["[Reading JSON dataset from " + path + "]"] +
    match load
    case LoadFailed(message) => ["Error parsing JSON file: " + message]
    case Loaded(data) =>
      match data
      case JArray(items) =>
        var shown := Min(|items|, maxItems);
        ["JSON Array Dataset:", "- Total items: " + NatToDecimal(|items|)] +
        if |items| > 0 && items[0].JObject? then
          ["- Fields: " + Join(Keys(items[0].fields), ", "),
           "\nSample Data (first " + NatToDecimal(shown) + " items):",
           frame]
          + MoreItemsLine(|items|, maxItems)
        else
          ["\nSample Data (first " + NatToDecimal(shown) + " items):"]
          + seq(shown, i requires 0 <= i < shown => NatToDecimal(i) + ": " + Str(items[i]))
          + MoreItemsLine(|items|, maxItems)
      case JObject(fields) =>
        var preview := Structure(data, 2, 0, maxItems);
        ["JSON Object Dataset:",
         "- Total keys: " + NatToDecimal(|fields|),
         "- Top-level keys: " + Join(Keys(fields)[..Min(|fields|, 20)], ", "),
         "\nSample Data (structure preview):"]
        + preview.lines
        + (if preview.error.Some? then ["Error parsing JSON file: " + preview.error.value] else [])
      case _ => ["JSON Data (primitive type):", Str(data)]
  }

  /** A list that does not start with a dict prints "i: item" for each
      item shown, in order, and an overflow line exactly when items were
      left out. */
  lemma SimpleArrayListing(path: string, items: seq<Json>, frame: string, maxItems: nat)
    requires |items| == 0 || !items[0].JObject?
    ensures var out := ParseJson(path, Loaded(JArray(items)), frame, maxItems);
      var shown := Min(|items|, maxItems);
      && |out| == 4 + shown + (if |items| > maxItems then 1 else 0)
      && out[3] == "\nSample Data (first " + NatToDecimal(shown) + " items):"
      && (forall i :: 0 <= i < shown ==> out[4 + i] == NatToDecimal(i) + ": " + Str(items[i]))
      && (|items| > maxItems ==> out[|out| - 1] == "\n[..." + NatToDecimal(|items| - maxItems) + " more items not shown...]")
  {
  }

  /** A dict shows at most twenty key names, and its preview is the
      structure printer at depth 0 with a depth limit of 2. */
  lemma ObjectListing(path: string, fields: seq<Field>, frame: string, maxItems: nat)
    ensures var out := ParseJson(path, Loaded(JObject(fields)), frame, maxItems);
      && |out| >= 5
      && out[3] == "- Top-level keys: " + Join(Keys(fields)[..Min(|fields|, 20)], ", ")
      && |Keys(fields)[..Min(|fields|, 20)]| <= 20
      && out[5..] == Structure(JObject(fields), 2, 0, maxItems).lines
  {
    if maxItems >= 1 {
      StructureNoError(JObject(fields), 2, 0, maxItems);
    } else {
      // with no entry shown, nothing is indexed and nothing raises
      assert ObjectEntries(JObject(fields), 2, 0, 0) == [];
    }
  }

  // ---------------------------------------------------------------------
  // Dispatch

  predicate HasNonDot(s: string)
  {
    exists i :: 0 <= i < |s| && s[i] != '.'
  }

  /** The extension of one path component: from its last '.', provided
      something other than dots comes before that '.'; otherwise empty. */
  function BaseExt(base: string): string
  {
    if '.' !in base then ""
    else
      var ext := LastSegment(base, '.');
      LastSegmentSpec(base, '.');
      if HasNonDot(base[..|base| - |ext| - 1]) then "." + ext else ""
  }

  /** `os.path.splitext(path)[1]`, taken on the last path component. */
  function SplitExt(path: string): string
  {
    BaseExt(LastSegment(path, '/'))
  }

  /** The extension of a component is empty, or a '.' followed by text
      with no '.', at the very end of the component. */
  lemma BaseExtSpec(base: string)
    ensures var e := BaseExt(base);
      e == "" || (e[0] == '.' && '.' !in e[1..] && EndsWith(base, e))
  {
    if '.' in base {
      var ext := LastSegment(base, '.');
      LastSegmentSpec(base, '.');
      var e := BaseExt(base);
      if e != "" {
        assert e == "." + ext;
        assert e[1..] == ext;
        assert base[|base| - |ext| - 1] == '.';
        assert base[|base| - |e|..] == [base[|base| - |ext| - 1]] + base[|base| - |ext|..];
      }
    }
  }

  /** The extension is empty, or a '.' followed by text with no '.' or
      '/', at the very end of the path. */
  lemma SplitExtSpec(path: string)
    ensures var e := SplitExt(path);
      e == "" || (e[0] == '.' && '.' !in e[1..] && '/' !in e && EndsWith(path, e))
  {
    var base := LastSegment(path, '/');
    LastSegmentSpec(path, '/');
    BaseExtSpec(base);
    var e := BaseExt(base);
    if e != "" {
      EndsWithTrans(path, base, e);
    }
  }

  /** A name made of a stem and an extension, neither with '.' or '/'. */
  lemma PlainNameExtension(stem: string, ext: string)
    requires |stem| > 0 && '.' !in stem && '/' !in stem
    requires '.' !in ext && '/' !in ext
    ensures SplitExt(stem + "." + ext) == "." + ext
  {
    var x := stem + ".";
    var p := x + ext;
    assert p == stem + "." + ext;
    assert '/' !in x;
    assert '/' !in p by {
      forall i | 0 <= i < |p| ensures p[i] != '/' {
        if i < |x| { assert p[i] == x[i]; } else { assert p[i] == ext[i - |x|]; }
      }
    }
    LastSegmentSpec(p, '/');
    assert LastSegment(p, '/') == p;
    LastSegmentAfterSeparator(x, ext, '.');
    assert p[|x| - 1] == '.';
    assert p[..|p| - |ext| - 1] == stem;
    assert HasNonDot(stem) by { assert stem[0] != '.'; }
    assert '.' in p;
    assert BaseExt(p) == "." + ext;
  }

  /** Dot files have no extension: the leading dot starts the name. */
  lemma DotFileHasNoExtension(name: string)
    requires '.' !in name && '/' !in name
    ensures SplitExt("." + name) == ""
  {
    var p := "." + name;
    assert '/' !in p;
    LastSegmentSpec(p, '/');
    assert LastSegment(p, '/') == p;
    LastSegmentAfterSeparator(".", name, '.');
    assert p[..|p| - |name| - 1] == "";
    assert !HasNonDot("");
    assert BaseExt(p) == "";
  }

  datatype Reader = CsvReader | JsonReader | ExcelReader(sheet: nat) | ParquetReader

  /** Which reader `parse_dataset` calls, or the two lines it prints when
      there is none. */
  datatype Dispatch =
    | Parse(reader: Reader, path: string, limit: nat)
    | Unsupported(lines: seq<string>)

  const SupportedExtensions: set<string> := {".csv", ".json", ".xlsx", ".xls", ".parquet"}

  const SupportedFormatsLine: string := "Supported formats: " + ".csv, .json, " + ".xlsx, .xls, .parquet"

  function UnsupportedLines(e: string): seq<string>
  {
    ["Unsupported dataset file format: " + e, SupportedFormatsLine]
  }

  /** `parse_dataset(file_path, max_rows)`. */
  function ParseDataset(path: string, maxRows: nat := 10): (d: Dispatch)
    ensures var e := Lower(SplitExt(path));
      && (d.Parse? <==> e in SupportedExtensions)
      && (d.Parse? ==> d.path == path && d.limit == maxRows)
      && (e == ".csv" ==> d.Parse? && d.reader == CsvReader)
      && (e == ".json" ==> d.Parse? && d.reader == JsonReader)
      && (e == ".xlsx" || e == ".xls" ==> d.Parse? && d.reader == ExcelReader(0))
      && (e == ".parquet" ==> d.Parse? && d.reader == ParquetReader)
      && (d.Unsupported? ==> d.lines == UnsupportedLines(e))
  {
    var e := Lower(SplitExt(path));
    if e == ".csv" then Parse(CsvReader, path, maxRows)
    else if e == ".json" then Parse(JsonReader, path, maxRows)
    else if e == ".xlsx" || e == ".xls" then Parse(ExcelReader(0), path, maxRows)
    else if e == ".parquet" then Parse(ParquetReader, path, maxRows)
    else Unsupported(UnsupportedLines(e))
  }

  /** Only the lower-cased extension matters: two paths whose extensions
      differ in case go to the same reader. */
  lemma DispatchIgnoresCase(p: string, q: string)
    requires Lower(SplitExt(p)) == Lower(SplitExt(q))
    ensures ParseDataset(p).Parse? == ParseDataset(q).Parse?
    ensures ParseDataset(p).Parse? ==> ParseDataset(p).reader == ParseDataset(q).reader
  {
  }

  /** An upper-case extension is read like the lower-case one. */
  lemma UpperCaseCsv(stem: string)
    requires |stem| > 0 && '.' !in stem && '/' !in stem
    ensures ParseDataset(stem + ".CSV") == Parse(CsvReader, stem + ".CSV", 10)
  {
    PlainNameExtension(stem, "CSV");
    assert stem + ".CSV" == stem + "." + "CSV";
    assert Lower(".CSV") == ".csv";
  }
}
