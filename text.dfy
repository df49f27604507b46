/** String operations that the JavaScript and Python code relies on, written
    once with the semantics of the built-in each one stands for. */
module Text {

  /** `s.startsWith(prefix)`. */
  predicate StartsWith(s: string, prefix: string) { prefix <= s }

  /** `s.endsWith(suffix)`. */
  predicate EndsWith(s: string, suffix: string)
  {
    |suffix| <= |s| && s[|s| - |suffix|..] == suffix
  }

  /** A suffix of a suffix is a suffix, and holds only characters of the
      text. */
  lemma EndsWithTrans(a: string, b: string, c: string)
    requires EndsWith(a, b) && EndsWith(b, c)
    ensures EndsWith(a, c)
    ensures forall x :: x in c ==> x in b
  {
    assert a[|a| - |c|..] == a[|a| - |b|..][|b| - |c|..];
    forall x | x in c ensures x in b {
      var i :| 0 <= i < |c| && c[i] == x;
      assert b[|b| - |c| + i] == x;
    }
  }

  /** JavaScript `s.includes(sub)`; Python `sub in s`. */
  predicate Contains(s: string, sub: string)
    decreases |s|
  {
    sub <= s || (|s| > 0 && Contains(s[1..], sub))
  }

  lemma {:induction false} ContainsAppendLeft(a: string, b: string, sub: string)
    requires Contains(b, sub)
    ensures Contains(a + b, sub)
  {
    if |a| > 0 {
      assert (a + b)[1..] == a[1..] + b;
      ContainsAppendLeft(a[1..], b, sub);
    } else {
      assert a + b == b;
    }
  }

  /** A text contains each of its infixes. */
  lemma ContainsInfix(a: string, b: string, c: string)
    ensures Contains(a + b + c, b)
  {
    assert b <= b + c;
    ContainsAppendLeft(a, b + c, b);
    assert a + (b + c) == a + b + c;
  }

  /** Every character of a contained text occurs in the text. */
  lemma {:induction false} ContainedCharsOccur(s: string, sub: string, c: char)
    ensures Contains(s, sub) && c in sub ==> c in s
    decreases |s|
  {
    if |s| > 0 {
      ContainedCharsOccur(s[1..], sub, c);
      if sub <= s && c in sub {
        var i :| 0 <= i < |sub| && sub[i] == c;
        assert s[i] == c;
      }
    }
  }

  // ---------------------------------------------------------------------
  // Case mapping

  /** Lower-casing of one character, restricted to the ASCII letters. */
  function LowerChar(c: char): char
  {
    if 'A' <= c <= 'Z' then (c as int + 32) as char else c
  }

  /** `s.toLowerCase()` / `s.lower()`, for ASCII letters. */
  function Lower(s: string): (r: string)
    ensures |r| == |s|
    ensures forall i :: 0 <= i < |s| ==> r[i] == LowerChar(s[i])
  {
    seq(|s|, i requires 0 <= i < |s| => LowerChar(s[i]))
  }

  /** Lower-cased text has no upper-case letter left, so lower-casing it
      again changes nothing; and lower-casing commutes with concatenation. */
  lemma LowerIdempotent(s: string, t: string)
    ensures forall i :: 0 <= i < |s| ==> !('A' <= Lower(s)[i] <= 'Z')
    ensures Lower(Lower(s)) == Lower(s)
    ensures Lower(s + t) == Lower(s) + Lower(t)
  {
    assert Lower(Lower(s)) == Lower(s) by {
      forall i | 0 <= i < |s| ensures Lower(Lower(s))[i] == Lower(s)[i] {
      }
    }
  }

  // ---------------------------------------------------------------------
  // Splitting and joining

  /** JavaScript `s.split(sep)` for a one-character separator: the pieces
      between separators, so there is always at least one piece, and no
      piece holds the separator. */
  function SplitOn(s: string, sep: char): (parts: seq<string>)
    ensures |parts| >= 1
    ensures forall i :: 0 <= i < |parts| ==> sep !in parts[i]
    ensures sep in s <==> |parts| >= 2
    decreases |s|
  {
    if |s| == 0 then [""]
    else
      var rest := SplitOn(s[1..], sep);
      if s[0] == sep then [""] + rest
      else [[s[0]] + rest[0]] + rest[1..]
  }

  /** `s.split(sep).pop()`: the last piece. */
  function LastSegment(s: string, sep: char): string
  {
    var parts := SplitOn(s, sep);
    parts[|parts| - 1]
  }

  /** How the last piece of `s` relates to that of `s[1..]`. */
  lemma LastSegmentStep(s: string, sep: char)
    requires |s| > 0
    ensures sep !in s ==> LastSegment(s, sep) == s
    ensures sep in s ==> LastSegment(s, sep) == LastSegment(s[1..], sep)
  {
    var rest := SplitOn(s[1..], sep);
    if s[0] == sep {
      assert SplitOn(s, sep) == [""] + rest;
    } else if |rest| >= 2 {
      assert SplitOn(s, sep) == [[s[0]] + rest[0]] + rest[1..];
    } else {
      SplitOnNoSeparator(s[1..], sep);
      assert SplitOn(s, sep) == [[s[0]] + s[1..]];
      assert [s[0]] + s[1..] == s;
    }
  }

  /** The last piece is the suffix after the last separator, or all of `s`
      when there is none. */
  lemma {:induction false} LastSegmentSpec(s: string, sep: char)
    ensures var r := LastSegment(s, sep);
      && EndsWith(s, r)
      && sep !in r
      && (|r| < |s| ==> s[|s| - |r| - 1] == sep)
      && (sep !in s ==> r == s)
    decreases |s|
  {
    if |s| > 0 {
      LastSegmentStep(s, sep);
      if sep in s {
        LastSegmentSpec(s[1..], sep);
        var r := LastSegment(s, sep);
        assert s[|s| - |r|..] == s[1..][|s| - 1 - |r|..];
        if |r| == |s| - 1 {
          assert sep !in s[1..];
          assert s[0] == sep;
        }
      }
    }
  }

  /** `parts.join(sep)`. */
  function Join(parts: seq<string>, sep: string): string
    decreases |parts|
  {
    if |parts| == 0 then ""
    else if |parts| == 1 then parts[0]
    else parts[0] + sep + Join(parts[1..], sep)
  }

  lemma {:induction false} SplitOnNoSeparator(a: string, sep: char)
    requires sep !in a
    ensures SplitOn(a, sep) == [a]
    decreases |a|
  {
    if |a| > 0 {
      SplitOnNoSeparator(a[1..], sep);
      assert [a[0]] + a[1..] == a;
    }
  }

  lemma {:induction false} SplitOnFirstSeparator(a: string, b: string, sep: char)
    requires sep !in a
    ensures SplitOn(a + [sep] + b, sep) == [a] + SplitOn(b, sep)
    decreases |a|
  {
    var s := a + [sep] + b;
    if |a| == 0 {
      assert s[1..] == b;
    } else {
      assert s[1..] == a[1..] + [sep] + b;
      SplitOnFirstSeparator(a[1..], b, sep);
      assert [a[0]] + a[1..] == a;
    }
  }

  /** Splitting undoes joining when no part holds the separator. */
  lemma {:induction false} SplitJoin(parts: seq<string>, sep: char)
    requires |parts| >= 1
    requires forall i :: 0 <= i < |parts| ==> sep !in parts[i]
    ensures SplitOn(Join(parts, [sep]), sep) == parts
    decreases |parts|
  {
    if |parts| == 1 {
      SplitOnNoSeparator(parts[0], sep);
    } else {
      SplitJoin(parts[1..], sep);
      SplitOnFirstSeparator(parts[0], Join(parts[1..], [sep]), sep);
      assert [parts[0]] + parts[1..] == parts;
    }
  }

  /** Splitting a joined list followed by more text. */
  lemma {:induction false} SplitJoinThen(parts: seq<string>, sep: char, rest: string)
    requires |parts| >= 1
    requires forall i :: 0 <= i < |parts| ==> sep !in parts[i]
    ensures SplitOn(Join(parts, [sep]) + [sep] + rest, sep) == parts + SplitOn(rest, sep)
    decreases |parts|
  {
    var p0 := parts[0];
    assert sep !in p0;
    if |parts| == 1 {
      assert Join(parts, [sep]) == p0;
      SplitOnFirstSeparator(p0, rest, sep);
      assert parts == [p0];
    } else {
      var ps := parts[1..];
      assert forall i :: 0 <= i < |ps| ==> ps[i] == parts[i + 1];
      var tail := Join(ps, [sep]);
      var after := tail + [sep] + rest;
      var split := SplitOn(rest, sep);
      var whole := Join(parts, [sep]) + [sep] + rest;
      JoinStep(parts, [sep]);
      JoinedThenAssoc(p0, tail, [sep], rest);
      assert whole == p0 + [sep] + after;
      SplitOnFirstSeparator(p0, after, sep);
      SplitJoinThen(ps, sep, rest);
      assert SplitOn(whole, sep) == [p0] + (ps + split);
      ConsAssoc(p0, ps, split);
      assert [p0] + ps == parts;
      assert SplitOn(whole, sep) == parts + split;
    }
  }

  lemma JoinStep(parts: seq<string>, sep: string)
    requires |parts| >= 2
    ensures Join(parts, sep) == parts[0] + sep + Join(parts[1..], sep)
  {
  }

  lemma JoinedThenAssoc<T>(a: seq<T>, t: seq<T>, s: seq<T>, r: seq<T>)
    ensures a + s + t + s + r == a + s + (t + s + r)
  {
  }

  lemma ConsAssoc<T>(x: T, xs: seq<T>, ys: seq<T>)
    ensures [x] + (xs + ys) == [x] + xs + ys
  {
  }

  /** A text framed by separators, a title line, then joined lines: the
      split gives back an empty first line, the title, the lines, and an
      empty last line. */
  lemma SplitFramedLines(title: string, parts: seq<string>, sep: char)
    requires sep !in title
    requires |parts| >= 1
    requires forall i :: 0 <= i < |parts| ==> sep !in parts[i]
    ensures SplitOn([sep] + (title + [sep] + (Join(parts, [sep]) + [sep])), sep)
      == ["", title] + parts + [""]
  {
    var j := Join(parts, [sep]);
    var tail := j + [sep];
    var mid := title + [sep] + tail;
    var whole := [sep] + mid;
    SplitJoinThen(parts, sep, "");
    assert j + [sep] + "" == tail;
    assert SplitOn(tail, sep) == parts + [""];
    SplitOnFirstSeparator(title, tail, sep);
    assert SplitOn(mid, sep) == [title] + (parts + [""]);
    assert whole[1..] == mid;
    assert SplitOn(whole, sep) == [""] + ([title] + (parts + [""]));
    Regroup("", title, parts, "");
  }

  lemma Regroup<T>(a: T, b: T, xs: seq<T>, c: T)
    ensures [a] + ([b] + (xs + [c])) == [a, b] + xs + [c]
  {
  }

  // ---------------------------------------------------------------------
  // Replacing

  /** JavaScript `s.replace(pat, rep)` with a string pattern: only the first
      occurrence is replaced. */
  function ReplaceFirst(s: string, pat: string, rep: string): string
    decreases |s|
  {
    if pat <= s then rep + s[|pat|..]
    else if |s| == 0 then s
    else [s[0]] + ReplaceFirst(s[1..], pat, rep)
  }

  /** Removing the first occurrence shortens the text by exactly one
      occurrence, and changes nothing when there is none. */
  lemma {:induction false} ReplaceFirstRemovesOne(s: string, pat: string)
    ensures Contains(s, pat) ==> |ReplaceFirst(s, pat, "")| == |s| - |pat|
    ensures !Contains(s, pat) ==> ReplaceFirst(s, pat, "") == s
    decreases |s|
  {
    if !(pat <= s) && |s| > 0 {
      ReplaceFirstRemovesOne(s[1..], pat);
      if !Contains(s, pat) {
        assert [s[0]] + s[1..] == s;
      }
    }
  }

  /** Python `s.replace(pat, rep)`: every occurrence, found left to right
      without overlap. */
  function ReplaceAll(s: string, pat: string, rep: string): string
    requires |pat| > 0
    decreases |s|
  {
    if pat <= s then rep + ReplaceAll(s[|pat|..], pat, rep)
    else if |s| == 0 then s
    else [s[0]] + ReplaceAll(s[1..], pat, rep)
  }

  lemma {:induction false} ReplaceAllAbsent(s: string, pat: string, rep: string)
    requires |pat| > 0
    requires !Contains(s, pat)
    ensures ReplaceAll(s, pat, rep) == s
    decreases |s|
  {
    if |s| > 0 {
      ReplaceAllAbsent(s[1..], pat, rep);
      assert [s[0]] + s[1..] == s;
    }
  }

  /** A text with no "//" has none after being prefixed by a character
      that is not '/', or by '/' when the text does not start with '/'. */
  lemma ConsNoDoubleSlash(c: char, t: string)
    requires !Contains(t, "//")
    requires c != '/' || |t| == 0 || t[0] != '/'
    ensures !Contains([c] + t, "//")
  {
    var s := [c] + t;
    assert s[1..] == t;
    assert !("//" <= s) by {
      if |s| >= 2 { assert s[1] == t[0]; }
    }
  }

  /** One pass of `.replace('//', '/')` starts with '/' exactly when its
      input does. */
  lemma {:induction false} HalveSlashesStart(s: string)
    ensures var r := ReplaceAll(s, "//", "/");
      (|r| > 0 && r[0] == '/') <==> (|s| > 0 && s[0] == '/')
    decreases |s|
  {
  }

  /** One left-to-right pass of `.replace('//', '/')` leaves no "//" as
      long as the input holds no run of three slashes. */
  lemma {:induction false} HalveSlashesNoDouble(s: string)
    requires !Contains(s, "///")
    ensures !Contains(ReplaceAll(s, "//", "/"), "//")
    decreases |s|
  {
    if "//" <= s {
      var t := s[2..];
      assert s[1..][1..] == t;
      HalveSlashesNoDouble(t);
      HalveSlashesStart(t);
      assert !("///" <= s);
      assert |t| == 0 || t[0] != '/' by {
        assert |t| > 0 ==> s[..3] == [s[0], s[1], t[0]];
      }
      ConsNoDoubleSlash('/', ReplaceAll(t, "//", "/"));
    } else if |s| > 0 {
      var t := s[1..];
      HalveSlashesNoDouble(t);
      HalveSlashesStart(t);
      ConsNoDoubleSlash(s[0], ReplaceAll(t, "//", "/"));
    }
  }

  /** JavaScript `s.replace(/\/+/g, '/')`: every run of '/' becomes one. */
  function CollapseSlashes(s: string): (r: string)
    ensures !Contains(r, "//")
    ensures |r| == 0 <==> |s| == 0
    ensures |s| > 0 ==> r[0] == s[0]
    decreases |s|
  {
    if |s| <= 1 then s
    else if s[0] == '/' && s[1] == '/' then CollapseSlashes(s[1..])
    else
      var rest := CollapseSlashes(s[1..]);
      ConsNoDoubleSlash(s[0], rest);
      [s[0]] + rest
  }

  /** Collapsing changes nothing in a text that has no "//". */
  lemma {:induction false} CollapseIdentity(s: string)
    requires !Contains(s, "//")
    ensures CollapseSlashes(s) == s
    decreases |s|
  {
    if |s| > 1 {
      assert !("//" <= s);
      CollapseIdentity(s[1..]);
      assert [s[0]] + s[1..] == s;
    }
  }

  /** Collapsing is idempotent. */
  lemma CollapseIdempotent(s: string)
    ensures CollapseSlashes(CollapseSlashes(s)) == CollapseSlashes(s)
  {
    CollapseIdentity(CollapseSlashes(s));
  }

  /** Two texts whose meeting point is not a pair of slashes collapse
      independently. */
  lemma {:induction false} CollapseAppend(a: string, b: string)
    requires !(|a| > 0 && a[|a| - 1] == '/' && |b| > 0 && b[0] == '/')
    ensures CollapseSlashes(a + b) == CollapseSlashes(a) + CollapseSlashes(b)
    decreases |a|
  {
    if |a| == 0 {
      assert a + b == b;
    } else if |a| == 1 {
      if |b| > 0 {
        assert (a + b)[1..] == b;
      } else {
        assert a + b == a;
      }
    } else {
      assert (a + b)[1..] == a[1..] + b;
      CollapseAppend(a[1..], b);
    }
  }

  /** A lone slash in front of a slash-free text survives collapsing. */
  lemma LoneSlash(w: string)
    requires '/' !in w
    ensures CollapseSlashes("/" + w) == "/" + w
  {
    ContainedCharsOccur(w, "//", '/');
    assert !Contains("/" + w, "//") by {
      assert ("/" + w)[1..] == w;
      if |w| > 0 {
        assert ("/" + w)[1] == w[0];
      }
    }
    CollapseIdentity("/" + w);
  }

  /** A doubled slash at the front collapses to one. */
  lemma CollapseDoubleSlash(t: string)
    ensures CollapseSlashes("//" + t) == CollapseSlashes("/" + t)
  {
    assert ("//" + t)[1..] == "/" + t;
  }

  /** "/w/f" with slash-free `w` (not empty) and `f` has no "//": it is
      its own collapse. */
  lemma SlashJoinedNoDouble(w: string, f: string)
    requires '/' !in w && |w| > 0 && '/' !in f
    ensures !Contains(("/" + w) + ("/" + f), "//")
  {
    var a := "/" + w;
    assert a[|a| - 1] == w[|w| - 1];
    CollapseAppend(a, "/" + f);
    LoneSlash(w);
    LoneSlash(f);
  }

  /** Collapsing "/w//f" with slash-free `w` (not empty) and `f`. */
  lemma CollapseInnerDouble(w: string, f: string)
    requires '/' !in w && |w| > 0 && '/' !in f
    ensures CollapseSlashes(("/" + w) + ("//" + f)) == ("/" + w) + ("/" + f)
  {
    var a := "/" + w;
    assert a[|a| - 1] == w[|w| - 1];
    CollapseAppend(a, "//" + f);
    LoneSlash(w);
    CollapseDoubleSlash(f);
    LoneSlash(f);
  }

  /** One replacement pass over `pat + t`, when `t` holds no `pat`. */
  lemma ReplaceAtFront(t: string, pat: string, rep: string)
    requires |pat| > 0 && !Contains(t, pat)
    ensures ReplaceAll(pat + t, pat, rep) == rep + t
  {
    assert pat <= pat + t;
    assert (pat + t)[|pat|..] == t;
    ReplaceAllAbsent(t, pat, rep);
  }

  /** The text with every '/' taken out. */
  function WithoutSlashes(s: string): string
    decreases |s|
  {
    if |s| == 0 then ""
    else if s[0] == '/' then WithoutSlashes(s[1..])
    else [s[0]] + WithoutSlashes(s[1..])
  }

  /** Collapsing removes slashes and nothing else, and keeps the last
      character. */
  lemma {:induction false} CollapseRemovesOnlySlashes(s: string)
    ensures WithoutSlashes(CollapseSlashes(s)) == WithoutSlashes(s)
    ensures |s| > 0 ==> CollapseSlashes(s)[|CollapseSlashes(s)| - 1] == s[|s| - 1]
    decreases |s|
  {
    if |s| > 1 {
      CollapseRemovesOnlySlashes(s[1..]);
      if !(s[0] == '/' && s[1] == '/') {
        var rest := CollapseSlashes(s[1..]);
        assert ([s[0]] + rest)[1..] == rest;
      }
    }
  }

  /** The last piece after a separator-terminated prefix. */
  lemma {:induction false} LastSegmentAfterSeparator(x: string, name: string, sep: char)
    requires |x| > 0 && x[|x| - 1] == sep
    requires sep !in name
    ensures LastSegment(x + name, sep) == name
    decreases |x|
  {
    var s := x + name;
    LastSegmentStep(s, sep);
    assert s[|x| - 1] == sep;
    if |x| == 1 {
      assert s[1..] == name;
      SplitOnNoSeparator(name, sep);
    } else {
      assert s[1..] == x[1..] + name;
      LastSegmentAfterSeparator(x[1..], name, sep);
    }
  }

  // ---------------------------------------------------------------------
  // Decimal numerals

  function DigitChar(d: nat): char
    requires d < 10
  {
    ('0' as int + d) as char
  }

  /** The decimal numeral of a non-negative integer, as a JavaScript
      template literal or a Python f-string renders it. */
  function NatToDecimal(n: nat): (s: string)
    ensures |s| >= 1
    decreases n
  {
    if n < 10 then [DigitChar(n)] else NatToDecimal(n / 10) + [DigitChar(n % 10)]
  }

  function DigitValue(c: char): nat
  {
    if '0' <= c <= '9' then c as int - '0' as int else 0
  }

  /** Reads a decimal numeral back. */
  function ParseDecimal(s: string): nat
    decreases |s|
  {
    if |s| == 0 then 0 else ParseDecimal(s[..|s| - 1]) * 10 + DigitValue(s[|s| - 1])
  }

  /** A rendered number can be read back: no two numbers render alike. */
  lemma {:induction false} DecimalRoundTrip(n: nat)
    ensures ParseDecimal(NatToDecimal(n)) == n
    decreases n
  {
    if n >= 10 {
      DecimalRoundTrip(n / 10);
      var s := NatToDecimal(n);
      assert s[..|s| - 1] == NatToDecimal(n / 10);
    }
  }

  // ---------------------------------------------------------------------
  // Python str.strip()

  /** The characters Python's `str.isspace()` accepts. */
  predicate IsPySpace(c: char)
  {
    c == ' ' || c == '\t' || c == '\n' || c == '\r' || c == '\U{0B}' || c == '\U{0C}'
    || ('\U{1C}' <= c <= '\U{1F}') || c == '\U{85}' || c == '\U{A0}' || c == '\U{1680}'
    || ('\U{2000}' <= c <= '\U{200A}') || c == '\U{2028}' || c == '\U{2029}'
    || c == '\U{202F}' || c == '\U{205F}' || c == '\U{3000}'
  }

  predicate AllPySpace(s: string)
  {
    forall i :: 0 <= i < |s| ==> IsPySpace(s[i])
  }

  /** `s.lstrip()`: a suffix of `s`, after a run of white space, that does
      not itself start with white space. */
  function StripLeft(s: string): (r: string)
    ensures EndsWith(s, r)
    ensures AllPySpace(s[..|s| - |r|])
    ensures |r| > 0 ==> !IsPySpace(r[0])
    decreases |s|
  {
    if |s| > 0 && IsPySpace(s[0]) then
      var r := StripLeft(s[1..]);
      assert s[|s| - |r|..] == s[1..][|s| - 1 - |r|..];
      assert forall i :: 1 <= i < |s| - |r| ==> s[i] == s[1..][..|s| - 1 - |r|][i - 1];
      r
    else s
  }

  /** `s.rstrip()`: a prefix of `s`, before a run of white space, that does
      not itself end with white space. */
  function StripRight(s: string): (r: string)
    ensures r <= s
    ensures AllPySpace(s[|r|..])
    ensures |r| > 0 ==> !IsPySpace(r[|r| - 1])
    decreases |s|
  {
    if |s| > 0 && IsPySpace(s[|s| - 1]) then
      var r := StripRight(s[..|s| - 1]);
      assert forall i :: |r| <= i < |s| - 1 ==> s[i] == s[..|s| - 1][|r|..][i - |r|];
      r
    else s
  }

  /** Python `s.strip()`. */
  function Strip(s: string): string
  {
    StripRight(StripLeft(s))
  }
}
