/** The invisible uploader mounted with a new conversation: it drains the
    dataset files the task form parked in session storage, uploading them
    one at a time, and hands the ML-pipeline prompt for the uploaded ones
    to its parent. */
module DatasetUploader {
  import opened Common
  import opened Http
  import opened SessionStore
  import opened UploadDataset
  import UploadToRuntime
  import TaskForm

  /** The file rebuilt from a stored entry: `new File([new Uint8Array(data)],
      name, { type })`. */
  function Rebuilt(p: PendingFile): (f: File)
    ensures f.name == p.name && f.mimeType == p.mimeType && f.Size() == |p.data|
  {
    File(p.name, p.mimeType, DecodeBytes(p.data))
  }

  /** The descriptor pushed for a successful upload: the stored name, the
      byte count and the path from the upload result. */
  function UploadedInfo(p: PendingFile, r: TransportResult): DatasetInfo
  {
    DatasetInfo(p.name, Extension(p.name), |p.data|, Some(r.path), None)
  }

  /** The upload result for the i-th stored file, sent to "/tmp". */
  function UploadOf(ps: seq<PendingFile>, i: nat, reply: nat -> FetchOutcome): TransportResult
    requires i < |ps|
  {
    UploadToRuntime.UploadResult(ps[i].name, "/tmp", reply(i))
  }

  /** `results` after the first n stored files: one descriptor per success,
      in stored order. */
  function Uploaded(ps: seq<PendingFile>, n: nat, reply: nat -> FetchOutcome): (ds: seq<DatasetInfo>)
    requires n <= |ps|
    ensures |ds| <= n
  {
    if n == 0 then []
    else
      var r := UploadOf(ps, n - 1, reply);
      Uploaded(ps, n - 1, reply) + (if r.success then [UploadedInfo(ps[n - 1], r)] else [])
  }

  /** The upload requests for the first n stored files, in order. */
  function UploadRequests(ps: seq<PendingFile>, conversationId: string, n: nat): (t: seq<Request>)
    requires n <= |ps|
    ensures |t| == n
    ensures forall i :: 0 <= i < n ==>
      t[i] == UploadRequest(UploadToRuntime.UploadUrl(conversationId, "/tmp"), Rebuilt(ps[i]))
  {
    seq(n, i requires 0 <= i < n => UploadRequest(UploadToRuntime.UploadUrl(conversationId, "/tmp"), Rebuilt(ps[i])))
  }

  /** Each descriptor has a byte count and a "/tmp/"-based path, and there is
      one exactly for each successful upload. */
  lemma {:induction false} UploadedSpec(ps: seq<PendingFile>, n: nat, reply: nat -> FetchOutcome)
    requires n <= |ps|
    ensures var ds := Uploaded(ps, n, reply);
      && (|ds| == 0 <==> forall i :: 0 <= i < n ==> !UploadOf(ps, i, reply).success)
      && (forall k :: 0 <= k < |ds| ==> ds[k].path.Some? && ds[k].content == None)
      && (forall k :: 0 <= k < |ds| ==> exists i :: 0 <= i < n && ds[k].name == ps[i].name && ds[k].size == |ps[i].data|
                                                     && ds[k].path == Some("/tmp/" + ps[i].name))
  {
    if n > 0 {
      UploadedSpec(ps, n - 1, reply);
      var ds := Uploaded(ps, n, reply);
      var prev := Uploaded(ps, n - 1, reply);
      var r := UploadOf(ps, n - 1, reply);
      if r.success {
        assert ds == prev + [UploadedInfo(ps[n - 1], r)];
        assert ds[|ds| - 1].name == ps[n - 1].name;
      } else {
        assert ds == prev;
      }
      forall k | 0 <= k < |ds|
        ensures exists i :: 0 <= i < n && ds[k].name == ps[i].name && ds[k].size == |ps[i].data|
                            && ds[k].path == Some("/tmp/" + ps[i].name)
      {
        if k < |prev| {
          assert ds[k] == prev[k];
          var i :| 0 <= i < n - 1 && prev[k].name == ps[i].name && prev[k].size == |ps[i].data|
                   && prev[k].path == Some("/tmp/" + ps[i].name);
        } else {
          assert ds[k] == UploadedInfo(ps[n - 1], r);
          assert r.path == "/tmp" + "/" + ps[n - 1].name;
          assert "/tmp" + "/" + ps[n - 1].name == "/tmp/" + ps[n - 1].name;
        }
      }
    }
  }

  /** What the task form stores reads back as the very files it was given:
      the same names, types and bytes, in batch order. */
  lemma StoredFilesRoundTrip(ds: seq<File>)
    ensures var ps := TaskForm.PendingFiles(ds);
      |ps| == |ds| && forall i :: 0 <= i < |ds| ==> Rebuilt(ps[i]) == ds[i]
  {
    var ps := TaskForm.PendingFiles(ds);
    forall i | 0 <= i < |ds| ensures Rebuilt(ps[i]) == ds[i] {
      BytesRoundTrip(ds[i].data);
    }
  }

  /** How one run of the effect ended. */
  datatype Outcome =
    | Skipped           // a key missing or empty, or an upload in progress
    | ParseFailed       // a stored value that is not the expected array
    | Drained(results: seq<DatasetInfo>)

  /** The stored text parses: it is the JSON of one of the two arrays. */
  predicate Parses(v: StoredValue)
  {
    !v.Text?
  }

  /** What `JSON.parse(...) as PendingDatasetFile[]` yields: the cast checks
      nothing, so a descriptor list is walked as a file list whose entries
      have no `data` (and `new Uint8Array(undefined)` is empty). */
  function AsPendingFiles(v: StoredValue): (ps: seq<PendingFile>)
    requires Parses(v)
    ensures v.Files? ==> ps == v.files
    ensures v.Infos? ==> |ps| == |v.infos| && forall i :: 0 <= i < |ps| ==> ps[i].data == []
  {
    match v
    case Files(files) => files
    case Infos(infos) => seq(|infos|, i requires 0 <= i < |infos| => PendingFile(infos[i].name, infos[i].mimeType, []))
  }

  /** Both keys hold a non-empty value and no upload is running. */
  predicate Ready(items: map<string, StoredValue>, uploading: bool)
  {
    && InfoKey in items && Truthy(items[InfoKey])
    && FilesKey in items && Truthy(items[FilesKey])
    && !uploading
  }

  /** Everything one run of the effect changes or yields. */
  datatype EffectResult = EffectResult(
    outcome: Outcome,
    trace: seq<Request>,
    items: map<string, StoredValue>,
    completed: seq<string>)

  /** One run of the effect, from the storage contents, the upload flag and
      the prompts handed over so far; `prompt` turns the uploaded files into
      the text handed to the parent (the uploader passes
      `MLPipelineInstructions`, and nothing below depends on which). */
  function Effect(items: map<string, StoredValue>, uploading: bool, completed: seq<string>,
                  conversationId: string, reply: nat -> FetchOutcome,
                  prompt: seq<DatasetInfo> -> string): EffectResult
  {
    if !Ready(items, uploading) then EffectResult(Skipped, [], items, completed)
    else if !(Parses(items[InfoKey]) && Parses(items[FilesKey])) then EffectResult(ParseFailed, [], items, completed)
    else
      var ps := AsPendingFiles(items[FilesKey]);
      var results := Uploaded(ps, |ps|, reply);
      EffectResult(Drained(results), UploadRequests(ps, conversationId, |ps|),
                   items - {InfoKey, FilesKey},
                   completed + (if |results| > 0 then [prompt(results)] else []))
  }

  /** A run that does not drain changes nothing and sends nothing. */
  lemma NoDrainNoChange(items: map<string, StoredValue>, uploading: bool, completed: seq<string>,
                        conversationId: string, reply: nat -> FetchOutcome,
                        prompt: seq<DatasetInfo> -> string)
    ensures var e := Effect(items, uploading, completed, conversationId, reply, prompt);
      !e.outcome.Drained? ==> e.trace == [] && e.items == items && e.completed == completed
    ensures var e := Effect(items, uploading, completed, conversationId, reply, prompt);
      e.outcome.Skipped? <==> !Ready(items, uploading)
  {
  }

  /** A drain removes both keys and nothing else, so the next run finds
      nothing to do. */
  lemma DrainsOnce(items: map<string, StoredValue>, uploading: bool, completed: seq<string>,
                   conversationId: string, reply: nat -> FetchOutcome,
                   prompt: seq<DatasetInfo> -> string)
    requires Effect(items, uploading, completed, conversationId, reply, prompt).outcome.Drained?
    ensures var e := Effect(items, uploading, completed, conversationId, reply, prompt);
      && InfoKey !in e.items && FilesKey !in e.items
      && (forall k :: k in items && k != InfoKey && k != FilesKey ==> k in e.items && e.items[k] == items[k])
      && Effect(e.items, uploading, e.completed, conversationId, reply, prompt).outcome == Skipped
  {
  }

  /** The parent hears at most once per run: exactly when a drain had a
      success, and then with the pipeline prompt for the uploaded files. */
  lemma CompletesAtMostOnce(items: map<string, StoredValue>, uploading: bool, completed: seq<string>,
                            conversationId: string, reply: nat -> FetchOutcome,
                            prompt: seq<DatasetInfo> -> string)
    ensures var e := Effect(items, uploading, completed, conversationId, reply, prompt);
      && completed <= e.completed
      && (|e.completed| == |completed| + 1 <==> e.outcome.Drained? && |e.outcome.results| > 0)
      && (|e.completed| == |completed| + 1 ==> e.completed[|completed|] == prompt(e.outcome.results))
      && |e.completed| <= |completed| + 1
  {
  }

  /** The stored descriptors are parsed but play no part: any other
      parseable value there gives the same run. */
  lemma InfoIgnored(items: map<string, StoredValue>, v: StoredValue, uploading: bool, completed: seq<string>,
                    conversationId: string, reply: nat -> FetchOutcome,
                    prompt: seq<DatasetInfo> -> string)
    requires InfoKey in items && Parses(items[InfoKey]) && Parses(v)
    ensures var e := Effect(items, uploading, completed, conversationId, reply, prompt);
      var e2 := Effect(items[InfoKey := v], uploading, completed, conversationId, reply, prompt);
      e2.outcome == e.outcome && e2.trace == e.trace && e2.completed == e.completed
  {
    assert Truthy(items[InfoKey]) && Truthy(v);
    var items2 := items[InfoKey := v];
    assert FilesKey in items2 <==> FilesKey in items;
    if FilesKey in items {
      assert items2[FilesKey] == items[FilesKey];
    }
  }

  /** What the task form parks is what gets uploaded: one request per
      dataset file, in batch order, each carrying that very file. */
  lemma ParkedBatchIsUploaded(items: map<string, StoredValue>, ds: seq<File>, completed: seq<string>,
                              conversationId: string, reply: nat -> FetchOutcome,
                              prompt: seq<DatasetInfo> -> string)
    ensures var parked := items[InfoKey := Infos(TaskForm.PendingInfos(ds))][FilesKey := Files(TaskForm.PendingFiles(ds))];
      var e := Effect(parked, false, completed, conversationId, reply, prompt);
      && e.outcome.Drained?
      && |e.trace| == |ds|
      && (forall i :: 0 <= i < |ds| ==>
            e.trace[i] == UploadRequest(UploadToRuntime.UploadUrl(conversationId, "/tmp"), ds[i]))
  {
    var parked := items[InfoKey := Infos(TaskForm.PendingInfos(ds))][FilesKey := Files(TaskForm.PendingFiles(ds))];
    assert parked[FilesKey] == Files(TaskForm.PendingFiles(ds));
    assert parked[InfoKey] == Infos(TaskForm.PendingInfos(ds));
    assert Ready(parked, false);
    StoredFilesRoundTrip(ds);
  }

  /** A park whose files write was refused leaves only the descriptors:
      with no earlier batch's files in storage the uploader finds nothing to
      do, and the batch is never uploaded. */
  lemma PartialParkSkips(items: map<string, StoredValue>, ds: seq<File>, completed: seq<string>,
                         conversationId: string, reply: nat -> FetchOutcome,
                         prompt: seq<DatasetInfo> -> string)
    requires FilesKey !in items
    ensures var partial := items[InfoKey := Infos(TaskForm.PendingInfos(ds))];
      var e := Effect(partial, false, completed, conversationId, reply, prompt);
      e.outcome == Skipped && e.trace == [] && e.items == partial && e.completed == completed
  {
  }

  /** With an earlier batch's files still stored, a park whose files write
      was refused makes the uploader drain those earlier files, under the
      new batch's descriptors. */
  lemma PartialParkDrainsEarlierFiles(items: map<string, StoredValue>, ds: seq<File>, completed: seq<string>,
                                      conversationId: string, reply: nat -> FetchOutcome,
                                      prompt: seq<DatasetInfo> -> string)
    requires FilesKey in items && items[FilesKey].Files?
    ensures var partial := items[InfoKey := Infos(TaskForm.PendingInfos(ds))];
      var earlier := items[FilesKey].files;
      var e := Effect(partial, false, completed, conversationId, reply, prompt);
      && e.outcome == Drained(Uploaded(earlier, |earlier|, reply))
      && e.trace == UploadRequests(earlier, conversationId, |earlier|)
  {
    var partial := items[InfoKey := Infos(TaskForm.PendingInfos(ds))];
    assert partial[FilesKey] == items[FilesKey];
    assert Ready(partial, false);
  }

  lemma RemoveBoth<K, V>(m: map<K, V>, a: K, b: K)
    ensures m - {a} - {b} == m - {a, b}
  {
  }

  class Uploader {
    /** `isUploading`. */
    var isUploading: bool
    /** The prompts handed to `onUploadComplete`, oldest first. */
    var completed: seq<string>

    constructor ()
      ensures !isUploading && completed == []
    {
      isUploading := false;
      completed := [];
    }

    /** The uploads themselves: one `uploadFileToRuntime(file,
        conversationId, '/tmp')` per stored file, awaited in order. */
    method UploadAll(ps: seq<PendingFile>, conversationId: string, reply: nat -> FetchOutcome)
      returns (results: seq<DatasetInfo>, trace: seq<Request>)
      ensures results == Uploaded(ps, |ps|, reply)
      ensures trace == UploadRequests(ps, conversationId, |ps|)
    {
      results := [];
      trace := [];
      var url := UploadToRuntime.UploadUrl(conversationId, "/tmp");
      var i := 0;
      while i < |ps|
        invariant 0 <= i <= |ps|
        invariant results == Uploaded(ps, i, reply)
        invariant |trace| == i
        invariant forall j :: 0 <= j < i ==> trace[j] == UploadRequest(url, Rebuilt(ps[j]))
      {
        var file := Rebuilt(ps[i]);
        var r, t := UploadToRuntime.UploadFileToRuntime(file, conversationId, reply(i), "/tmp");
        assert r == UploadOf(ps, i, reply);
        assert Uploaded(ps, i + 1, reply) == results + (if r.success then [UploadedInfo(ps[i], r)] else []);
        if r.success {
          results := results + [UploadedInfo(ps[i], r)];
        }
        var sent := trace;
        trace := trace + t;
        assert trace[i] == UploadRequest(url, file);
        assert forall j :: 0 <= j < i ==> trace[j] == sent[j];
        i := i + 1;
      }
      assert i == |ps|;
      var expected := UploadRequests(ps, conversationId, |ps|);
      assert forall j :: 0 <= j < |ps| ==> trace[j] == expected[j];
      assert trace == expected;
    }

    /** The `try` block once both values parsed: upload every stored file,
        clear both keys, and hand the prompt over when anything arrived. */
    method Drain(store: Store, ps: seq<PendingFile>, conversationId: string, reply: nat -> FetchOutcome)
      returns (results: seq<DatasetInfo>, trace: seq<Request>)
      modifies this, store
      ensures results == Uploaded(ps, |ps|, reply)
      ensures trace == UploadRequests(ps, conversationId, |ps|)
      ensures store.items == old(store.items) - {InfoKey, FilesKey}
      ensures completed == old(completed) + (if |results| > 0 then [MLPipelineInstructions(results)] else [])
      ensures isUploading == old(isUploading)
    {
      results, trace := UploadAll(ps, conversationId, reply);
      store.RemoveItem(InfoKey);
      store.RemoveItem(FilesKey);
      RemoveBoth(old(store.items), InfoKey, FilesKey);
      if |results| > 0 {
        completed := completed + [MLPipelineInstructions(results)];
      }
    }

    /** The effect body. `reply(i)` is the server's answer to the i-th
        upload. */
    method RunEffect(store: Store, conversationId: string, reply: nat -> FetchOutcome)
      returns (outcome: Outcome, trace: seq<Request>)
      modifies this, store
      ensures var e := Effect(old(store.items), old(isUploading), old(completed), conversationId, reply, MLPipelineInstructions);
        outcome == e.outcome && trace == e.trace && store.items == e.items && completed == e.completed
      ensures isUploading == old(isUploading)
    {
      ghost var e := Effect(store.items, isUploading, completed, conversationId, reply, MLPipelineInstructions);
      trace := [];
      var info := store.GetItem(InfoKey);
      var files := store.GetItem(FilesKey);
      if info.None? || !Truthy(info.value) || files.None? || !Truthy(files.value) || isUploading {
        assert !Ready(store.items, isUploading);
        outcome := Skipped;
        return;
      }
      assert Ready(store.items, isUploading);
      isUploading := true;
      if !(Parses(info.value) && Parses(files.value)) {
        // JSON.parse throws: the catch block only logs
        outcome := ParseFailed;
        isUploading := false;
        return;
      }
      var results;
      results, trace := Drain(store, AsPendingFiles(files.value), conversationId, reply);
      outcome := Drained(results);
      isUploading := false;
    }
  }
}
