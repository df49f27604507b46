/** The other front-end copy helper, which trusts the path the server
    reports (frontend/src/utils/copy-to-workspace.ts). */
module CopyToWorkspace {
  import opened Common
  import opened Text
  import opened Http
  import UploadToRuntime

  /** `data.path || fallback`: a missing or empty `path` is falsy. */
  function ReportedPath(pathField: Option<string>, subdirectory: string, name: string): (p: string)
    ensures pathField.Some? && pathField.value != "" ==> p == pathField.value
    ensures pathField.None? || pathField.value == "" ==> p == UploadToRuntime.WorkspacePath(subdirectory, name)
  {
    if pathField.Some? && pathField.value != "" then pathField.value
    else UploadToRuntime.WorkspacePath(subdirectory, name)
  }

  /** `copyFileToWorkspace`: a single copy request (it has one reply and no
      clear step), shaped like every other helper's result. The default
      subdirectory is empty. */
  function CopyFileToWorkspace(file: File, reply: FetchOutcome, subdirectory: string := ""): (r: TransportResult)
    ensures r.success <==> reply.Ok? && reply.body.Json?
    ensures r.success ==> r.path == ReportedPath(reply.body.pathField, subdirectory, file.name)
    ensures !r.success ==> r.path == ""
    ensures reply.HttpError? ==>
      && r.error.Some?
      && Contains(r.error.value, reply.statusText)
      && Contains(r.error.value, NatToDecimal(reply.status))
    ensures reply.Exception? ==> r.error == Some(reply.message)
    ensures reply.Ok? && reply.body.Malformed? ==> r.error == Some(reply.body.reason)
  {
    var path := if reply.Ok? && reply.body.Json? then ReportedPath(reply.body.pathField, subdirectory, file.name) else "";
    var r := Normalise("Failed to copy file", reply, path);
    if reply.HttpError? then
      StatusErrorMentions("Failed to copy file", reply.status, reply.statusText);
      r
    else r
  }

  /** Whatever the server writes in `path` is passed on, even a path the
      other helper would never produce. */
  lemma TrustsServerPath(file: File, subdirectory: string, p: string)
    requires p != ""
    ensures CopyFileToWorkspace(file, Ok(Json(Some(p))), subdirectory).path == p
  {
  }

  /** Without a server path the two helpers agree on every outcome. */
  lemma AgreesWithoutServerPath(file: File, subdirectory: string, reply: FetchOutcome)
    requires reply.Ok? && reply.body.Json? ==> reply.body.pathField.None? || reply.body.pathField.value == ""
    ensures CopyFileToWorkspace(file, reply, subdirectory)
         == UploadToRuntime.CopyResult(file.name, subdirectory, reply)
  {
  }

  /** The two helpers' defaults differ: with no server path, the same plain
      file lands in /workspace itself here and in /workspace/uploads there. */
  lemma DefaultSubdirectoriesDiffer(file: File)
    requires '/' !in file.name
    ensures CopyFileToWorkspace(file, Ok(Json(None))).path == "/workspace/" + file.name
    ensures UploadToRuntime.CopyResult(file.name, "uploads", Ok(Json(None))).path
         == "/workspace/uploads/" + file.name
  {
    UploadToRuntime.WorkspacePathEmptySubdirectory(file.name);
    UploadToRuntime.WorkspacePathUploads(file.name);
  }
}
