/** Clearing the workspace, copying a file into it, and uploading a file to
    the runtime container, as the front end's transport helpers shape the
    server's answers (frontend/src/utils/upload-to-runtime.ts). */
module UploadToRuntime {
  import opened Common
  import opened Text
  import opened Http

  /** `clearWorkspace`: the success flag and the error, without a path. */
  function ClearWorkspace(reply: FetchOutcome): (r: ClearResult)
    ensures r.success <==> reply.Ok? && reply.body.Json?
    ensures r.success ==> r.error == None
    ensures reply.HttpError? ==>
      r.error == Some(StatusError("Failed to clear workspace", reply.status, reply.statusText))
    ensures reply.Exception? ==> r.error == Some(reply.message)
    ensures reply.Ok? && reply.body.Malformed? ==> r.error == Some(reply.body.reason)
  {
    var t := Normalise("Failed to clear workspace", reply, "");
    ClearResult(t.success, t.error)
  }

  /** `/workspace/${subdirectory}/${name}` with every run of '/' replaced by
      one '/'. */
  function WorkspacePath(subdirectory: string, name: string): string
  {
    CollapseSlashes("/workspace/" + subdirectory + "/" + name)
  }

  /** The copy path has no doubled slash, starts at '/', and keeps every
      other character of the template in order; for a name without '/',
      its last '/'-piece is the name itself. */
  lemma WorkspacePathSpec(subdirectory: string, name: string)
    ensures var p := WorkspacePath(subdirectory, name);
      && !Contains(p, "//")
      && StartsWith(p, "/")
      && WithoutSlashes(p) == WithoutSlashes("/workspace/" + subdirectory + "/" + name)
      && ('/' !in name ==> LastSegment(p, '/') == name)
  {
    var raw := "/workspace/" + subdirectory + "/" + name;
    CollapseRemovesOnlySlashes(raw);
    if '/' !in name {
      var a := "/workspace/" + subdirectory + "/";
      assert raw == a + name;
      CollapseAppend(a, name);
      ContainedCharsOccur(name, "//", '/');
      CollapseIdentity(name);
      CollapseRemovesOnlySlashes(a);
      LastSegmentAfterSeparator(CollapseSlashes(a), name, '/');
    }
  }

  /** Collapsing "/a" followed by `rest` when `a` is slash-free and not
      empty. */
  lemma CollapseAfterPiece(a: string, rest: string)
    requires '/' !in a && |a| > 0
    ensures CollapseSlashes("/" + a + rest) == "/" + a + CollapseSlashes(rest)
  {
    CollapseAppend("/" + a, rest);
    LoneSlash(a);
  }

  /** An empty subdirectory does not leave a doubled slash behind. */
  lemma WorkspacePathEmptySubdirectory(name: string)
    requires '/' !in name
    ensures WorkspacePath("", name) == "/workspace/" + name
  {
    var w := "workspace";
    assert "/workspace/" + "" + "/" + name == ("/" + w) + ("//" + name);
    CollapseInnerDouble(w, name);
    assert ("/" + w) + ("/" + name) == "/workspace/" + name;
  }

  /** A plain subdirectory and a plain name leave nothing to collapse. */
  lemma WorkspacePathPlain(subdirectory: string, name: string)
    requires '/' !in subdirectory && |subdirectory| > 0
    requires '/' !in name
    ensures WorkspacePath(subdirectory, name) == "/workspace/" + subdirectory + "/" + name
  {
    var w := "workspace";
    var r := "/" + name;
    var m := "/" + subdirectory + r;
    assert "/workspace/" + subdirectory + "/" + name == "/" + w + m;
    CollapseAfterPiece(w, m);
    CollapseAfterPiece(subdirectory, r);
    LoneSlash(name);
  }

  /** With the default subdirectory and a plain name, nothing is collapsed. */
  lemma WorkspacePathUploads(name: string)
    requires '/' !in name
    ensures WorkspacePath("uploads", name) == "/workspace/uploads/" + name
  {
    WorkspacePathPlain("uploads", name);
  }

  /** The result of the copy request, given the server's reply to it. */
  function CopyResult(name: string, subdirectory: string, reply: FetchOutcome): (r: TransportResult)
    ensures r.success <==> reply.Ok? && reply.body.Json?
    ensures r.success ==> r.path == WorkspacePath(subdirectory, name)
    ensures !r.success ==> r.path == ""
  {
    Normalise("Failed to copy file", reply, WorkspacePath(subdirectory, name))
  }

  /** `copyFileToWorkspace`: when `clearFirst` is set, one clear request
      goes out before the copy request, and the copy happens whatever the
      clear returned. `clearReply` and `copyReply` are what the server
      answers to the two requests. */
  method CopyFileToWorkspace(file: File, clearReply: FetchOutcome, copyReply: FetchOutcome,
                             subdirectory: string := "uploads", clearFirst: bool := false)
    returns (r: TransportResult, trace: seq<Request>)
    ensures trace == (if clearFirst then [ClearRequest] else []) + [CopyRequest(file, subdirectory)]
    ensures r == CopyResult(file.name, subdirectory, copyReply)
  {
    trace := [];
    if clearFirst {
      var cleared := ClearWorkspace(clearReply);
      trace := trace + [ClearRequest];
      if !cleared.success {
        // the failure is only logged; the copy goes ahead
      }
    }
    trace := trace + [CopyRequest(file, subdirectory)];
    r := CopyResult(file.name, subdirectory, copyReply);
  }

  /** Called with only the file, the helper neither clears nor leaves the
      uploads folder. */
  method CopyFileToWorkspaceDefaults(file: File, clearReply: FetchOutcome, copyReply: FetchOutcome)
    returns (r: TransportResult, trace: seq<Request>)
    ensures trace == [CopyRequest(file, "uploads")]
    ensures r.success ==> r.path == WorkspacePath("uploads", file.name)
  {
    r, trace := CopyFileToWorkspace(file, clearReply, copyReply);
  }

  /** The upload request's URL. */
  function UploadUrl(conversationId: string, destination: string): string
  {
    "/api/conversations/" + conversationId + "/upload-dataset?destination=" + destination
  }

  /** The result of the upload request: the path is the destination, a
      slash and the name, taken as they are. */
  function UploadResult(name: string, destination: string, reply: FetchOutcome): (r: TransportResult)
    ensures r.success <==> reply.Ok? && reply.body.Json?
    ensures r.success ==> r.path == destination + "/" + name
    ensures !r.success ==> r.path == ""
  {
    Normalise("Failed to upload file", reply, destination + "/" + name)
  }

  /** Unlike the copy path, the upload path is not collapsed: a
      destination ending in '/' leaves a doubled slash. */
  lemma UploadPathKeepsSlashes(reply: FetchOutcome, name: string)
    requires reply.Ok? && reply.body.Json?
    ensures UploadResult(name, "/tmp/", reply).path == "/tmp//" + name
  {
  }

  /** `uploadFileToRuntime`: one request, to the conversation's upload URL. */
  method UploadFileToRuntime(file: File, conversationId: string, reply: FetchOutcome,
                             destination: string := "/tmp")
    returns (r: TransportResult, trace: seq<Request>)
    ensures trace == [UploadRequest(UploadUrl(conversationId, destination), file)]
    ensures r == UploadResult(file.name, destination, reply)
  {
    trace := [UploadRequest(UploadUrl(conversationId, destination), file)];
    r := UploadResult(file.name, destination, reply);
  }

  /** By default the file goes to /tmp. */
  method UploadFileToRuntimeDefaults(file: File, conversationId: string, reply: FetchOutcome)
    returns (r: TransportResult, trace: seq<Request>)
    ensures trace == [UploadRequest(UploadUrl(conversationId, "/tmp"), file)]
    ensures r.success ==> r.path == "/tmp/" + file.name
  {
    r, trace := UploadFileToRuntime(file, conversationId, reply);
  }
}
