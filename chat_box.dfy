/** The chat box of a running conversation: the image files waiting to be
    sent, and the draft text, rewritten as dataset files are copied into
    the workspace. */
module ChatBox {
  import opened Common
  import opened Text
  import opened Http
  import opened FileKinds
  import opened UploadDataset
  import UploadToRuntime

  /** The text shown while dataset files are copied. */
  const Marker: string := "\n\n" + "Uploading dataset files..."

  const NoConversationNote: string :=
    "\n\n" + "Cannot upload dataset files: " + "No conversation ID available."

  const FailureNote: string :=
    "\n\n" + "I tried to upload dataset files" + " but encountered errors." + " Please try again."

  /** `conversationId` from the route is used only when it is a non-empty
      string. */
  predicate HasConversation(conversationId: Option<string>)
  {
    conversationId.Some? && conversationId.value != ""
  }

  /** The copy result for the i-th dataset file: each goes to "uploads". */
  function CopyResults(ds: seq<File>, copyReply: nat -> FetchOutcome): (rs: seq<TransportResult>)
    ensures |rs| == |ds|
    ensures forall i :: 0 <= i < |ds| ==> rs[i] == UploadToRuntime.CopyResult(ds[i].name, "uploads", copyReply(i))
  {
    seq(|ds|, i requires 0 <= i < |ds| => UploadToRuntime.CopyResult(ds[i].name, "uploads", copyReply(i)))
  }

  /** One copy request per dataset file, in order. */
  function CopyRequests(ds: seq<File>): (t: seq<Request>)
    ensures |t| == |ds|
    ensures forall i :: 0 <= i < |ds| ==> t[i] == CopyRequest(ds[i], "uploads")
  {
    seq(|ds|, i requires 0 <= i < |ds| => CopyRequest(ds[i], "uploads"))
  }

  /** The requests one upload sends: none without datasets or without a
      conversation; otherwise the first file's clear, then the copies. */
  function UploadTrace(ds: seq<File>, conversationId: Option<string>): seq<Request>
  {
    if |ds| > 0 && HasConversation(conversationId) then [ClearRequest] + CopyRequests(ds) else []
  }

  /** The descriptor built from a successful copy: the name is the last
      '/'-piece of the returned path, the size is 0. */
  function ResultInfo(r: TransportResult): (d: DatasetInfo)
    ensures d.size == 0 && d.path == Some(r.path) && d.content == None
    ensures d.name == LastSegment(r.path, '/') && d.extension == Extension(d.name)
  {
    var name := LastSegment(r.path, '/');
    DatasetInfo(name, Extension(name), 0, Some(r.path), None)
  }

  /** `results.filter(r => r.success).map(...)`. */
  function SuccessInfos(rs: seq<TransportResult>): (ds: seq<DatasetInfo>)
    ensures |ds| <= |rs|
    ensures |ds| == 0 <==> forall i :: 0 <= i < |rs| ==> !rs[i].success
  {
    if |rs| == 0 then []
    else
      var rest := SuccessInfos(rs[1..]);
      assert forall i :: 1 <= i < |rs| ==> rs[i] == rs[1..][i - 1];
      (if rs[0].success then [ResultInfo(rs[0])] else []) + rest
  }

  /** The names of the files whose copy succeeded, in order. */
  function SucceededNames(ds: seq<File>, rs: seq<TransportResult>): seq<string>
    requires |rs| == |ds|
  {
    if |ds| == 0 then []
    else (if rs[0].success then [ds[0].name] else []) + SucceededNames(ds[1..], rs[1..])
  }

  /** The draft after an upload, from the draft `v` it started with. The
      replies arrive after the marker was shown, but the handler rewrites
      the draft it captured, so the marker is removed from `v` (where it
      occurs only if an earlier upload left one behind). */
  function UploadText(v: string, ds: seq<File>, conversationId: Option<string>,
                      copyReply: nat -> FetchOutcome): string
  {
    if |ds| == 0 then v
    else if !HasConversation(conversationId) then ReplaceFirst(v, Marker, "") + NoConversationNote
    else
      var infos := SuccessInfos(CopyResults(ds, copyReply));
      if |infos| > 0 then ReplaceFirst(v, Marker, "") + "\n\n" + AnalysisInstructions(infos)
      else ReplaceFirst(v, Marker, "") + FailureNote
  }

  /** For file names without '/', the descriptors name exactly the files
      whose copy succeeded, in order: the name read back from the workspace
      path is the file's own. */
  lemma {:induction false} InfoNamesAreFileNames(ds: seq<File>, copyReply: nat -> FetchOutcome)
    requires forall i :: 0 <= i < |ds| ==> '/' !in ds[i].name
    ensures Names(SuccessInfos(CopyResults(ds, copyReply))) == SucceededNames(ds, CopyResults(ds, copyReply))
  {
    ResultsNames(ds, CopyResults(ds, copyReply));
  }

  lemma {:induction false} ResultsNames(ds: seq<File>, rs: seq<TransportResult>)
    requires |rs| == |ds|
    requires forall i :: 0 <= i < |ds| ==> '/' !in ds[i].name
    requires forall i :: 0 <= i < |ds| ==> rs[i].success ==> rs[i].path == UploadToRuntime.WorkspacePath("uploads", ds[i].name)
    ensures Names(SuccessInfos(rs)) == SucceededNames(ds, rs)
  {
    if |ds| > 0 {
      var ds1, rs1 := ds[1..], rs[1..];
      assert forall i :: 0 <= i < |ds1| ==> ds1[i] == ds[i + 1];
      assert forall i :: 0 <= i < |rs1| ==> rs1[i] == rs[i + 1];
      ResultsNames(ds1, rs1);
      var head := if rs[0].success then [ResultInfo(rs[0])] else [];
      var first: seq<string> := if rs[0].success then [ds[0].name] else [];
      var rest := SuccessInfos(rs1);
      assert SuccessInfos(rs) == head + rest;
      assert SucceededNames(ds, rs) == first + SucceededNames(ds1, rs1);
      if rs[0].success {
        UploadToRuntime.WorkspacePathSpec("uploads", ds[0].name);
        assert ResultInfo(rs[0]).name == ds[0].name;
      }
      assert Names(head) == first;
      NamesAppend(head, rest);
      assert Names(SuccessInfos(rs)) == first + Names(rest);
    }
  }

  lemma NamesAppend(a: seq<DatasetInfo>, b: seq<DatasetInfo>)
    ensures Names(a + b) == Names(a) + Names(b)
  {
    assert forall i :: 0 <= i < |a + b| ==> Names(a + b)[i] == (Names(a) + Names(b))[i];
  }

  /** When the captured draft holds no marker, the upload only appends: the
      new draft is the old one followed by a note or the instructions. */
  lemma UploadOnlyAppends(v: string, ds: seq<File>, conversationId: Option<string>,
                          copyReply: nat -> FetchOutcome)
    requires !Contains(v, Marker)
    ensures StartsWith(UploadText(v, ds, conversationId, copyReply), v)
  {
    ReplaceFirstRemovesOne(v, Marker);
  }

  /** With a marker left in the captured draft, the first one disappears. */
  lemma UploadDropsOneMarker(v: string, ds: seq<File>, conversationId: Option<string>,
                             copyReply: nat -> FetchOutcome)
    requires |ds| > 0 && Contains(v, Marker)
    ensures var t := UploadText(v, ds, conversationId, copyReply);
      && StartsWith(t, ReplaceFirst(v, Marker, ""))
      && |ReplaceFirst(v, Marker, "")| == |v| - |Marker|
  {
    ReplaceFirstRemovesOne(v, Marker);
  }

  /** The start index `Array.prototype.splice(index, 1)` removes at: a
      negative index counts from the end, and an index past the end
      removes nothing. */
  function SpliceStart(index: int, len: nat): (k: nat)
    ensures k <= len
    ensures 0 <= index <= len ==> k == index
  {
    if index < 0 then (if len + index < 0 then 0 else len + index)
    else if index > len then len
    else index
  }

  /** The list with its k-th element taken out (unchanged when k is past the
      end). */
  function RemoveAt<T>(s: seq<T>, k: nat): seq<T>
  {
    if k < |s| then s[..k] + s[k + 1..] else s
  }

  /** Removing one entry keeps the others, in order. */
  lemma RemoveAtSpec<T>(s: seq<T>, k: nat)
    requires k < |s|
    ensures var r := RemoveAt(s, k);
      && |r| == |s| - 1
      && (forall j :: 0 <= j < k ==> r[j] == s[j])
      && (forall j :: k <= j < |r| ==> r[j] == s[j + 1])
      && multiset(r) + multiset{s[k]} == multiset(s)
  {
    var r := RemoveAt(s, k);
    assert s == s[..k] + [s[k]] + s[k + 1..];
  }

  /** The `copyFileToWorkspace(file, 'uploads', index === 0)` calls, one
      per dataset file in order: only the first clears the workspace. */
  method CopyAll(ds: seq<File>, clearReply: FetchOutcome, copyReply: nat -> FetchOutcome)
    returns (results: seq<TransportResult>, trace: seq<Request>)
    requires |ds| > 0
    ensures results == CopyResults(ds, copyReply)
    ensures trace == [ClearRequest] + CopyRequests(ds)
  {
    results := [];
    trace := [];
    var i := 0;
    while i < |ds|
      invariant 0 <= i <= |ds|
      invariant |results| == i
      invariant forall j :: 0 <= j < i ==> results[j] == UploadToRuntime.CopyResult(ds[j].name, "uploads", copyReply(j))
      invariant i == 0 ==> trace == []
      invariant i > 0 ==> |trace| == i + 1 && trace[0] == ClearRequest
      invariant forall j :: 0 <= j < i ==> trace[j + 1] == CopyRequest(ds[j], "uploads")
    {
      var r, t := UploadToRuntime.CopyFileToWorkspace(ds[i], clearReply, copyReply(i), "uploads", i == 0);
      results := results + [r];
      trace := trace + t;
      i := i + 1;
    }
    assert forall j :: 0 <= j < |ds| ==> results[j] == CopyResults(ds, copyReply)[j];
    assert forall j :: 0 <= j < |trace| ==> trace[j] == ([ClearRequest] + CopyRequests(ds))[j];
  }

  class InteractiveChatBox {
    /** The image files waiting to go out with the next message. */
    var files: seq<File>
    /** The draft text (`value`, written back through `onChange`). */
    var value: string

    constructor (draft: string)
      ensures files == [] && value == draft
    {
      files := [];
      value := draft;
    }

    /** `handleUpload`: images are queued, dataset files are copied into
        the workspace one after the other, and the draft is rewritten.
        `clearReply` is the server's answer to the clear request and
        `copyReply(i)` its answer to the i-th copy. */
    method HandleUpload(uploaded: seq<File>, conversationId: Option<string>,
                        clearReply: FetchOutcome, copyReply: nat -> FetchOutcome)
      returns (trace: seq<Request>)
      modifies this
      ensures files == old(files) + Images(uploaded)
      ensures value == UploadText(old(value), Datasets(uploaded), conversationId, copyReply)
      ensures trace == UploadTrace(Datasets(uploaded), conversationId)
    {
      var ds := Datasets(uploaded);
      files := files + Images(uploaded);
      trace := [];
      if |ds| > 0 {
        var v := value;
        value := v + Marker;
        if !HasConversation(conversationId) {
          value := ReplaceFirst(v, Marker, "") + NoConversationNote;
          return;
        }
        var results;
        results, trace := CopyAll(ds, clearReply, copyReply);
        var infos := SuccessInfos(results);
        if |infos| > 0 {
          value := ReplaceFirst(v, Marker, "") + "\n\n" + AnalysisInstructions(infos);
        } else {
          value := ReplaceFirst(v, Marker, "") + FailureNote;
        }
      }
    }

    /** `handleRemoveFile(index)`: `splice(index, 1)` on a copy. */
    method HandleRemoveFile(index: int)
      modifies this
      ensures files == RemoveAt(old(files), SpliceStart(index, |old(files)|))
      ensures value == old(value)
    {
      var k := SpliceStart(index, |files|);
      if k < |files| {
        files := files[..k] + files[k + 1..];
      }
    }

    /** `handleSubmit(message)`: the queued files go out with the message,
        the queue empties, and the draft is cleared only for a non-empty
        message. */
    method HandleSubmit(message: string) returns (sent: seq<File>)
      modifies this
      ensures sent == old(files) && files == []
      ensures value == if message != "" then "" else old(value)
    {
      sent := files;
      files := [];
      if message != "" {
        value := "";
      }
    }
  }
}
