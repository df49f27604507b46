/** The server's two workspace endpoints: copying an uploaded file into the
    workspace, and clearing the workspace down to an empty uploads folder
    (openhands/server/routes/copy_to_workspace.py). The file system is an
    abstract tree of named entries. */
module WorkspaceRoutes {
  import opened Common
  import opened Text
  import UploadToRuntime

  // ---------------------------------------------------------------------
  // Paths

  /** POSIX `os.path.join(a, b)`: an absolute `b` replaces everything
      before it; otherwise a '/' is inserted unless `a` is empty or
      already ends in '/'. */
  function PathJoin(a: string, b: string): (p: string)
    ensures StartsWith(b, "/") ==> p == b
    ensures !StartsWith(b, "/") ==> EndsWith(p, b) && StartsWith(p, a)
  {
    if StartsWith(b, "/") then b
    else if a == "" || EndsWith(a, "/") then a + b
    else a + "/" + b
  }

  /** `os.path.join(a, b, c)`, one component at a time. */
  function PathJoin3(a: string, b: string, c: string): string
  {
    PathJoin(PathJoin(a, b), c)
  }

  /** The destination form field: absent, it defaults to 'uploads'; empty,
      it is replaced by 'uploads'; otherwise it is kept as sent. */
  function Destination(field: Option<string>): (d: string)
    ensures d != ""
    ensures field.Some? && field.value != "" ==> d == field.value
    ensures field.None? || field.value == "" ==> d == "uploads"
  {
    if field.Some? && field.value != "" then field.value else "uploads"
  }

  /** Where the file is written: the workspace base, the destination and
      the file name, joined. */
  function WriteLocation(base: string, destination: string, filename: string): string
  {
    PathJoin3(base, destination, filename)
  }

  /** The path reported back: the same join under '/workspace', then every
      '\' turned into '/', then one left-to-right pass turning "//" into
      "/". */
  function RelativePath(destination: string, filename: string): string
  {
    ReplaceAll(ReplaceAll(PathJoin3("/workspace", destination, filename), "\\", "/"), "//", "/")
  }

  /** The backslash pass leaves no backslash and keeps the length. */
  lemma {:induction false} ReplaceBackslashes(s: string)
    ensures var r := ReplaceAll(s, "\\", "/");
      |r| == |s| && '\\' !in r
      && forall i :: 0 <= i < |s| ==> r[i] == (if s[i] == '\\' then '/' else s[i])
    decreases |s|
  {
    if |s| > 0 {
      ReplaceBackslashes(s[1..]);
      if "\\" <= s {
        assert s[0] == '\\';
        assert s[|"\\"|..] == s[1..];
      }
    }
  }

  /** The reported path has no backslash, and no "//" unless the joined
      path had a run of three slashes. */
  lemma RelativePathSpec(destination: string, filename: string)
    ensures '\\' !in RelativePath(destination, filename)
    ensures !Contains(ReplaceAll(PathJoin3("/workspace", destination, filename), "\\", "/"), "///")
      ==> !Contains(RelativePath(destination, filename), "//")
  {
    var j := ReplaceAll(PathJoin3("/workspace", destination, filename), "\\", "/");
    ReplaceBackslashes(PathJoin3("/workspace", destination, filename));
    ReplaceKeepsAbsentChar(j, "//", "/", '\\');
    if !Contains(j, "///") {
      HalveSlashesNoDouble(j);
    }
  }

  /** Replacing with text that lacks a character never brings it in. */
  lemma {:induction false} ReplaceKeepsAbsentChar(s: string, pat: string, rep: string, c: char)
    requires |pat| > 0
    requires c !in s && c !in rep
    ensures c !in ReplaceAll(s, pat, rep)
    decreases |s|
  {
    if pat <= s {
      ReplaceKeepsAbsentChar(s[|pat|..], pat, rep, c);
    } else if |s| > 0 {
      ReplaceKeepsAbsentChar(s[1..], pat, rep, c);
    }
  }

  /** The single "//" pass is not a collapse: an absolute destination that
      starts with three slashes is reported starting with two. */
  lemma TripleSlashSurvives(w: string, filename: string)
    requires |w| > 0 && '/' !in w && '\\' !in w
    requires |filename| > 0 && '/' !in filename && '\\' !in filename
    ensures RelativePath("///" + w, filename) == "//" + w + "/" + filename
  {
    var j := "///" + w + "/" + filename;
    JoinUnderTripleSlash(w, filename);
    HalveTripleSlash(w, filename);
    assert RelativePath("///" + w, filename) == ReplaceAll(j, "//", "/");
  }

  lemma JoinUnderTripleSlash(w: string, filename: string)
    requires |w| > 0 && '/' !in w && '\\' !in w
    requires |filename| > 0 && '/' !in filename && '\\' !in filename
    ensures ReplaceAll(PathJoin3("/workspace", "///" + w, filename), "\\", "/") == "///" + w + "/" + filename
  {
    var j := "///" + w + "/" + filename;
    assert w[|w| - 1] in w;
    assert filename[0] in filename;
    assert PathJoin("/workspace", "///" + w) == "///" + w;
    assert PathJoin3("/workspace", "///" + w, filename) == j;
    assert '\\' !in j;
    ContainedCharsOccur(j, "\\", '\\');
    ReplaceAllAbsent(j, "\\", "/");
  }

  lemma HalveTripleSlash(w: string, filename: string)
    requires |w| > 0 && '/' !in w
    requires '/' !in filename
    ensures ReplaceAll("///" + w + "/" + filename, "//", "/") == "//" + w + "/" + filename
  {
    var tail := ("/" + w) + ("/" + filename);
    Regroup5("///", "//", "/", w, "/", filename);
    SlashJoinedNoDouble(w, filename);
    ReplaceAtFront(tail, "//", "/");
    Regroup5("//", "/", "/", w, "/", filename);
  }

  lemma Regroup5<T>(t: seq<T>, a: seq<T>, b: seq<T>, c: seq<T>, d: seq<T>, e: seq<T>)
    requires t == a + b
    ensures t + c + d + e == a + ((b + c) + (d + e))
  {
  }

  /** An absolute destination escapes the workspace: the base is dropped
      from the write location and '/workspace' from the reported path. */
  lemma AbsoluteDestination(base: string, destination: string, filename: string)
    requires StartsWith(destination, "/")
    ensures WriteLocation(base, destination, filename) == PathJoin(destination, filename)
    ensures RelativePath(destination, filename)
         == ReplaceAll(ReplaceAll(PathJoin(destination, filename), "\\", "/"), "//", "/")
  {
  }

  /** An absolute file name replaces the whole path. */
  lemma AbsoluteFilename(base: string, destination: string, filename: string)
    requires StartsWith(filename, "/")
    ensures WriteLocation(base, destination, filename) == filename
  {
  }

  /** For a plain destination and a plain file name the server reports the
      same path the front end computes for itself. */
  lemma PlainPathsAgree(destination: string, filename: string)
    requires destination != "" && '/' !in destination && '\\' !in destination
    requires '/' !in filename && '\\' !in filename
    ensures RelativePath(destination, filename) == "/workspace/" + destination + "/" + filename
    ensures RelativePath(destination, filename) == UploadToRuntime.WorkspacePath(destination, filename)
  {
    var j := "/workspace/" + destination + "/" + filename;
    assert destination[0] in destination;
    assert !StartsWith(destination, "/");
    assert !StartsWith(filename, "/") by {
      if |filename| > 0 { assert filename[0] in filename; }
    }
    assert PathJoin("/workspace", destination) == "/workspace/" + destination;
    assert EndsWith("/workspace/" + destination, "/") == false by {
      var t := "/workspace/" + destination;
      assert t[|t| - 1] == destination[|destination| - 1];
      assert destination[|destination| - 1] in destination;
    }
    assert PathJoin3("/workspace", destination, filename) == j;
    assert '\\' !in j by {
      assert '\\' !in "/workspace/";
    }
    ContainedCharsOccur(j, "\\", '\\');
    ReplaceAllAbsent(j, "\\", "/");
    UploadToRuntime.WorkspacePathPlain(destination, filename);
    UploadToRuntime.WorkspacePathSpec(destination, filename);
    CollapseIdentity(j);
    ReplaceAllAbsent(j, "//", "/");
  }

  // ---------------------------------------------------------------------
  // Copying

  /** The copy endpoint's responses. The declared 400 response has no
      constructor because the handler never produces it. */
  datatype CopyResponse =
    | Copied(filename: string, destination: string, path: string)   // 200
    | CopyFailed(error: string)                                     // 500

  function StatusCode(r: CopyResponse): nat
  {
    if r.Copied? then 200 else 500
  }

  /** `copy_to_workspace`. `writeError` is the message of the exception the
      directory creation or the write raises, if one does. */
  function CopyToWorkspace(field: Option<string>, filename: string, writeError: Option<string>): (r: CopyResponse)
    ensures StatusCode(r) == (if writeError.None? then 200 else 500)
    ensures r.Copied? <==> writeError.None?
    ensures r.Copied? ==>
      && r.filename == filename
      && r.destination == Destination(field)
      && r.path == RelativePath(Destination(field), filename)
    ensures r.CopyFailed? ==> r.error == "Error copying file to workspace: " + writeError.value
  {
    if writeError.Some? then CopyFailed("Error copying file to workspace: " + writeError.value)
    else
      var d := Destination(field);
      Copied(filename, d, RelativePath(d, filename))
  }

  // ---------------------------------------------------------------------
  // Clearing

  /** An entry of the workspace tree. */
  datatype Node = FileNode | Dir(children: map<string, Node>)

  /** `glob('*')` does not match names that start with '.'. */
  predicate IsDotName(name: string)
  {
    |name| > 0 && name[0] == '.'
  }

  /** The response of the clear endpoint. */
  datatype ClearResponse =
    | Cleared(removedItems: seq<string>)   // 200
    | ClearFailed(error: string)           // 500

  /** The entry names of a directory that `glob('*')` returns. */
  function Globbed(m: map<string, Node>): (names: set<string>)
    ensures forall n :: n in names <==> n in m && !IsDotName(n)
  {
    set n | n in m && !IsDotName(n)
  }

  /** The children of the uploads folder, none if there is no such
      folder. */
  function UploadsChildren(e: map<string, Node>): map<string, Node>
  {
    if "uploads" in e && e["uploads"].Dir? then e["uploads"].children else map[]
  }

  /** A child of uploads survives when glob skips it or its removal
      fails; `fails` holds the paths, relative to the base, whose removal
      raises. */
  predicate ChildKept(c: string, fails: set<string>)
  {
    IsDotName(c) || "uploads/" + c in fails
  }

  /** A top-level entry other than uploads survives on the same terms. */
  predicate EntryKept(n: string, fails: set<string>)
  {
    IsDotName(n) || n in fails
  }

  function ClearedChildren(ch: map<string, Node>, fails: set<string>): map<string, Node>
  {
    map c | c in ch && ChildKept(c, fails) :: ch[c]
  }

  /** The tree after a clear: uploads exists and holds only its kept
      children; every other kept entry is untouched. */
  function ClearedEntries(e: map<string, Node>, fails: set<string>): (r: map<string, Node>)
    ensures "uploads" in r && r["uploads"].Dir?
    ensures forall n :: n in r && n != "uploads" <==> n in e && n != "uploads" && EntryKept(n, fails)
  {
    (map n | n in e && n != "uploads" && EntryKept(n, fails) :: e[n])
      ["uploads" := Dir(ClearedChildren(UploadsChildren(e), fails))]
  }

  /** What `removed_items` holds, as a set. */
  function RemovedItems(e: map<string, Node>, fails: set<string>): set<string>
  {
    (set n | n in e && n != "uploads" && !EntryKept(n, fails))
      + (set c | c in UploadsChildren(e) && !ChildKept(c, fails) :: "uploads/" + c)
  }

  predicate Distinct(s: seq<string>)
  {
    forall i, j :: 0 <= i < j < |s| ==> s[i] != s[j]
  }

  function Elements(s: seq<string>): set<string>
  {
    set x | x in s
  }

  /** The message of the error `os.makedirs` raises when uploads is a file. */
  function FileExistsError(base: string): string
  {
    "Error clearing workspace: [Errno 17] File exists: '" + PathJoin(base, "uploads") + "'"
  }

  /** The uploads folder is never removed and ends up holding only what
      was skipped or could not be removed. */
  lemma UploadsSurvives(e: map<string, Node>, fails: set<string>)
    ensures var r := ClearedEntries(e, fails);
      && "uploads" in r
      && forall c :: c in r["uploads"].children <==> c in UploadsChildren(e) && ChildKept(c, fails)
  {
  }

  /** A removal record names what it removed: a top-level entry by its
      name, a child of uploads by "uploads/" and its name. */
  lemma PrefixInjective(p: string, a: string, b: string)
    requires p + a == p + b
    ensures a == b
  {
    assert a == (p + a)[|p|..];
  }

  lemma UploadsRecordHasSlash(c: string)
    ensures '/' in "uploads/" + c
  {
    assert ("uploads/" + c)[7] == '/';
  }

  /** Nothing is both recorded as removed and still present. */
  lemma RemovedAreGone(e: map<string, Node>, fails: set<string>, n: string)
    requires forall k :: k in e ==> '/' !in k
    requires n in RemovedItems(e, fails)
    ensures n !in ClearedEntries(e, fails)
    ensures forall c :: n == "uploads/" + c ==> c !in ClearedEntries(e, fails)["uploads"].children
  {
    var r := ClearedEntries(e, fails);
    forall c | n == "uploads/" + c
      ensures c !in r["uploads"].children
    {
      UploadsRecordHasSlash(c);
      var cs := set c' | c' in UploadsChildren(e) && !ChildKept(c', fails) :: "uploads/" + c';
      assert n in cs;
      var c' :| c' in UploadsChildren(e) && !ChildKept(c', fails) && n == "uploads/" + c';
      PrefixInjective("uploads/", c, c');
    }
    if n in e && n != "uploads" && !EntryKept(n, fails) {
    } else {
      var c :| c in UploadsChildren(e) && !ChildKept(c, fails) && n == "uploads/" + c;
      UploadsRecordHasSlash(c);
      assert n != "uploads" by {
        assert |n| >= 8;
      }
    }
  }

  /** The removal records for the children of uploads handled so far, those
      not in `todo`. */
  function ChildRecords(ch: map<string, Node>, todo: set<string>, fails: set<string>): set<string>
  {
    set c | c in ch && c !in todo && !ChildKept(c, fails) :: "uploads/" + c
  }

  lemma ChildRecordsStep(ch: map<string, Node>, todo: set<string>, fails: set<string>, c: string)
    requires todo <= Globbed(ch) && c in todo && "uploads/" + c !in fails
    ensures ChildRecords(ch, todo - {c}, fails) == ChildRecords(ch, todo, fails) + {"uploads/" + c}
    ensures "uploads/" + c !in ChildRecords(ch, todo, fails)
  {
    assert !ChildKept(c, fails);
    forall x | x in ChildRecords(ch, todo, fails)
      ensures x != "uploads/" + c
    {
      var c' :| c' in ch && c' !in todo && !ChildKept(c', fails) && x == "uploads/" + c';
      if x == "uploads/" + c {
        PrefixInjective("uploads/", c, c');
      }
    }
  }

  lemma ChildRecordsSkip(ch: map<string, Node>, todo: set<string>, fails: set<string>, c: string)
    requires c in todo && "uploads/" + c in fails
    ensures ChildRecords(ch, todo - {c}, fails) == ChildRecords(ch, todo, fails)
  {
  }

  /** The tree after the outer loop has handled every globbed name except
      those in `todo`; `e0` is the tree after uploads was made sure of. */
  function Stage(e0: map<string, Node>, todo: set<string>, fails: set<string>): map<string, Node>
    requires "uploads" in e0
  {
    map k | k in e0 && (k == "uploads" || k in todo || EntryKept(k, fails))
      :: if k == "uploads" && k !in todo then Dir(ClearedChildren(UploadsChildren(e0), fails)) else e0[k]
  }

  /** The removal records of the names handled so far. */
  function StageRecords(e0: map<string, Node>, todo: set<string>, fails: set<string>): set<string>
  {
    (set k | k in e0 && k != "uploads" && k !in todo && !EntryKept(k, fails))
      + (if "uploads" in todo then {} else ChildRecords(UploadsChildren(e0), {}, fails))
  }

  lemma StageOther(e0: map<string, Node>, todo: set<string>, fails: set<string>, n: string)
    requires "uploads" in e0 && todo <= Globbed(e0)
    requires n in todo && n != "uploads"
    ensures n in fails ==> Stage(e0, todo - {n}, fails) == Stage(e0, todo, fails)
    ensures n in fails ==> StageRecords(e0, todo - {n}, fails) == StageRecords(e0, todo, fails)
    ensures n !in fails ==> Stage(e0, todo - {n}, fails) == Stage(e0, todo, fails) - {n}
    ensures n !in fails ==>
      StageRecords(e0, todo - {n}, fails) == StageRecords(e0, todo, fails) + {n}
  {
    assert !IsDotName(n);
  }

  lemma StageUploads(e0: map<string, Node>, todo: set<string>, fails: set<string>)
    requires "uploads" in e0 && e0["uploads"].Dir? && "uploads" in todo
    ensures Stage(e0, todo - {"uploads"}, fails)
         == Stage(e0, todo, fails)["uploads" := Dir(ClearedChildren(e0["uploads"].children, fails))]
    ensures StageRecords(e0, todo - {"uploads"}, fails)
         == StageRecords(e0, todo, fails) + ChildRecords(e0["uploads"].children, {}, fails)
  {
  }

  lemma StageDone(e0: map<string, Node>, e: map<string, Node>, fails: set<string>)
    requires "uploads" in e0 && e0["uploads"].Dir?
    requires e0 == e || ("uploads" !in e && e0 == e["uploads" := Dir(map[])])
    ensures Stage(e0, {}, fails) == ClearedEntries(e, fails)
    ensures StageRecords(e0, {}, fails) == RemovedItems(e, fails)
  {
    assert UploadsChildren(e0) == UploadsChildren(e);
    assert ChildRecords(UploadsChildren(e0), {}, fails)
        == set c | c in UploadsChildren(e) && !ChildKept(c, fails) :: "uploads/" + c;
  }

  /** Records of children of uploads, appended after top-level names, keep
      the list free of repeats. */
  lemma RecordsAfterNames(names: seq<string>, records: seq<string>, ch: map<string, Node>, fails: set<string>)
    requires Distinct(names) && Distinct(records)
    requires forall x :: x in names ==> '/' !in x
    requires Elements(records) == ChildRecords(ch, {}, fails)
    ensures Distinct(names + records)
  {
    forall y | y in records
      ensures '/' in y
    {
      assert y in Elements(records);
      var c :| c in ch && !ChildKept(c, fails) && y == "uploads/" + c;
      UploadsRecordHasSlash(c);
    }
    var s := names + records;
    forall i, j | 0 <= i < j < |s|
      ensures s[i] != s[j]
    {
      if j >= |names| && i < |names| {
        assert s[j] in records;
        assert s[i] in names;
      }
    }
  }

  /** A name still to be handled has no record yet. */
  lemma NameNotRecorded(e0: map<string, Node>, todo: set<string>, fails: set<string>, n: string)
    requires n in todo && '/' !in n
    ensures n !in StageRecords(e0, todo, fails)
  {
    forall c | c in UploadsChildren(e0)
      ensures n != "uploads/" + c
    {
      UploadsRecordHasSlash(c);
    }
  }

  lemma DistinctAppend(s: seq<string>, x: string)
    requires Distinct(s) && x !in Elements(s)
    ensures Distinct(s + [x])
  {
    var t := s + [x];
    forall i, j | 0 <= i < j < |t|
      ensures t[i] != t[j]
    {
      if j == |s| {
        assert t[i] in Elements(s);
      }
    }
  }

  /** The workspace directory, as a map from entry name to entry. */
  class Workspace {
    var entries: map<string, Node>

    /** Entry names are file names: not empty and without '/'. */
    predicate Valid()
      reads this
    {
      forall n :: n in entries ==> n != "" && '/' !in n
    }

    constructor(entries0: map<string, Node>)
      ensures entries == entries0
    {
      entries := entries0;
    }

    /** The inner loop: every globbed child of uploads is removed unless
        its removal raises; each removal is recorded as "uploads/" + name. */
    method ClearUploads(fails: set<string>) returns (removed: seq<string>)
      requires "uploads" in entries && entries["uploads"].Dir?
      modifies this
      ensures entries == old(entries)["uploads" := Dir(ClearedChildren(old(entries)["uploads"].children, fails))]
      ensures Elements(removed) == ChildRecords(old(entries)["uploads"].children, {}, fails)
      ensures Distinct(removed)
    {
      var ch := entries["uploads"].children;
      var todo := Globbed(ch);
      var kept := ch;
      removed := [];
      while todo != {}
        invariant todo <= Globbed(ch)
        invariant entries == old(entries)["uploads" := Dir(kept)]
        invariant kept == map c | c in ch && (c in todo || ChildKept(c, fails)) :: ch[c]
        invariant Elements(removed) == ChildRecords(ch, todo, fails)
        invariant Distinct(removed)
        decreases |todo|
      {
        var c :| c in todo;
        if "uploads/" + c !in fails {
          ChildRecordsStep(ch, todo, fails, c);
          kept := map k | k in kept && k != c :: kept[k];
          entries := entries["uploads" := Dir(kept)];
          removed := removed + ["uploads/" + c];
        } else {
          ChildRecordsSkip(ch, todo, fails, c);
        }
        todo := todo - {c};
      }
      assert kept == ClearedChildren(ch, fails);
    }

    /** One turn of the outer loop: uploads is emptied, any other entry is
        removed unless its removal raises. */
    method ClearEntry(n: string, fails: set<string>, ghost e0: map<string, Node>, ghost todo: set<string>,
                      removed: seq<string>)
      returns (removed': seq<string>)
      requires n in todo && todo <= Globbed(e0)
      requires "uploads" in e0 && e0["uploads"].Dir?
      requires forall k :: k in e0 ==> '/' !in k
      requires "uploads" in entries && entries["uploads"].Dir?
      requires entries == Stage(e0, todo, fails)
      requires Elements(removed) == StageRecords(e0, todo, fails)
      requires "uploads" in todo ==> forall x :: x in removed ==> '/' !in x
      requires Distinct(removed)
      modifies this
      ensures "uploads" in entries && entries["uploads"].Dir?
      ensures entries == Stage(e0, todo - {n}, fails)
      ensures Elements(removed') == StageRecords(e0, todo - {n}, fails)
      ensures "uploads" in todo - {n} ==> forall x :: x in removed' ==> '/' !in x
      ensures Distinct(removed')
    {
      removed' := removed;
      if n == "uploads" {
        StageUploads(e0, todo, fails);
        var records := ClearUploads(fails);
        RecordsAfterNames(removed, records, e0["uploads"].children, fails);
        removed' := removed + records;
      } else {
        StageOther(e0, todo, fails, n);
        if n !in fails {
          NameNotRecorded(e0, todo, fails, n);
          assert n !in Elements(removed);
          DistinctAppend(removed, n);
          entries := entries - {n};
          removed' := removed + [n];
        }
      }
    }

    /** The outer loop over the globbed top-level names. */
    method ClearGlobbed(fails: set<string>) returns (removed: seq<string>)
      requires "uploads" in entries && entries["uploads"].Dir?
      requires forall k :: k in entries ==> '/' !in k
      modifies this
      ensures entries == Stage(old(entries), {}, fails)
      ensures Elements(removed) == StageRecords(old(entries), {}, fails)
      ensures Distinct(removed)
    {
      ghost var e0 := entries;
      var todo := Globbed(entries);
      removed := [];
      while todo != {}
        invariant todo <= Globbed(e0)
        invariant e0 == old(entries)
        invariant "uploads" in entries && entries["uploads"].Dir?
        invariant entries == Stage(e0, todo, fails)
        invariant Elements(removed) == StageRecords(e0, todo, fails)
        invariant "uploads" in todo ==> forall x :: x in removed ==> '/' !in x
        invariant Distinct(removed)
        decreases |todo|
      {
        var n :| n in todo;
        removed := ClearEntry(n, fails, e0, todo, removed);
        todo := todo - {n};
      }
    }

    /** `clear_workspace`: make sure uploads is a folder, then go through
        the globbed entries, emptying uploads and removing everything else,
        skipping any entry whose removal raises. */
    method ClearWorkspace(base: string, fails: set<string>) returns (r: ClearResponse)
      requires Valid()
      modifies this
      ensures old("uploads" in entries && entries["uploads"].FileNode?) ==>
        r == ClearFailed(FileExistsError(base)) && entries == old(entries)
      ensures !old("uploads" in entries && entries["uploads"].FileNode?) ==>
        && r.Cleared?
        && entries == ClearedEntries(old(entries), fails)
        && Elements(r.removedItems) == RemovedItems(old(entries), fails)
        && Distinct(r.removedItems)
      ensures Valid()
    {
      if "uploads" in entries && entries["uploads"].FileNode? {
        return ClearFailed(FileExistsError(base));
      }
      if "uploads" !in entries {
        entries := entries["uploads" := Dir(map[])];
      }
      ghost var e0 := entries;
      var removed := ClearGlobbed(fails);
      StageDone(e0, old(entries), fails);
      r := Cleared(removed);
    }
  }
}
