# AIDevX dataset-upload core, modelled in Dafny

AIDevX is an OpenHands-based assistant for machine-learning work. A user
attaches dataset files to a task or a chat message. The files are copied or
uploaded into the conversation's workspace, and a prompt naming them is
placed in the draft. An ML agent then works on that prompt with a fixed set
of tools. This project models the rules underneath that flow and proves what
they promise:

- **Descriptor and prompt rules** (`upload_dataset.dfy`). `processDatasetFile`
  chooses between reading as text and reading as a data URL, and derives the
  descriptor fields. It also holds the two prompt templates built from a
  descriptor list.
- **Transport helpers** (`http.dfy`, `upload_to_runtime.dfy`,
  `copy_to_workspace_client.dfy`).
  - Every `fetch` outcome becomes a `{success, path, error}` record.
  - When asked, the copy helper clears the workspace first.
  - One helper builds the copy path with its slashes collapsed. The other
    helper trusts the path the server reports.
- **Server workspace routes** (`workspace_routes.dfy`).
  - `copy_to_workspace`: the destination default, `os.path.join` and the
    single `//` replacement pass.
  - `clear_workspace`: a `Workspace` class whose entry tree is changed in
    place by nested loops over the globbed names.
- **Dataset reader** (`dataset_parsers.dfy`).
  - `parse_dataset` dispatches on the lower-cased extension.
  - `_print_json_structure` previews a JSON value up to a depth limit and an
    item limit. Its printed output is the sequence of strings handed to
    `print`, one element per call. Below, a "printed line" of the preview
    means one such element.
  - The JSON reader branches that do not use pandas.
- **Upload front end**.
  - `file_kinds.dfy`: the image/dataset split.
  - `task_form.dfy`: the task form. It parks dataset files in session storage.
  - `session_store.dfy`: session storage, a class over a map.
  - `chat_box.dfy`: the chat box. It copies files and rewrites the draft.
  - `dataset_uploader.dfy`: the uploader. It drains session storage once a
    conversation exists.
  - `tab_content.dfy`: the tab area. It shows the one tab whose route matches.
- **ML agent** (`aiagent.dfy`). `_get_tools` decides which tools are offered.
  `step` and `reset` manage the first-in first-out queue of pending actions.

`common.dfy` holds the `Option` type, bytes and the browser `File`.
`text.dfy` holds the string operations both languages use: `split`, `join`,
`replace`, lower-casing, the `/\/+/g` collapse, decimal rendering and
`strip`.

External effects are parameters. A `fetch` is a `FetchOutcome` value, or
`reply(i)` for the i-th request of a batch. A `FileReader` is a `Reader`
oracle. Whether session storage takes a write (its quota) is the `accepts`
oracle. A failing removal in the workspace is named by a `fails` set. The
condenser's answer and the actions a completion turns into are a `StepInput`.
Methods that send requests return the list of requests they sent, in order.

## Model

| member | source | states |
|---|---|---|
| UploadDataset.ChooseEncoding | frontend/src/utils/upload-dataset.ts:52-61 | A file is read as text iff its type contains "text" or its name ends (case-sensitively) in .csv, .json or .txt, and its size is below 1048576; otherwise it is read as a data URL |
| UploadDataset.EncodingBoundary | frontend/src/utils/upload-dataset.ts:56 | The size limit is strict: 1048575 bytes read as text, 1048576 bytes as a data URL |
| UploadDataset.LowerKeepsDots | frontend/src/utils/upload-dataset.ts:65 | Lower-casing neither adds nor removes a '.' |
| Text.LowerIdempotent | frontend/src/utils/upload-dataset.ts:65 | Lower-cased text has no upper-case ASCII letter, lower-casing it again changes nothing, and lower-casing distributes over concatenation |
| UploadDataset.ExtensionSpec | frontend/src/utils/upload-dataset.ts:65 | The extension has no '.', ends the lower-cased name and follows its last '.'; a name without '.' gives the whole lower-cased name; the extension is empty iff the name is empty or ends in '.' |
| UploadDataset.ProcessDatasetFile | frontend/src/utils/upload-dataset.ts:48-74 | Returns null iff the chosen read fails, never a rejection; on success name and size are copied, the extension is derived from the name, the path is exactly "/workspace/uploads/" + name and the content is what the chosen read delivered |
| UploadDataset.AnalysisInstructions | frontend/src/utils/upload-dataset.ts:162-174 | The analysis prompt is empty exactly when the descriptor list is empty |
| UploadDataset.AnalysisLines | frontend/src/utils/upload-dataset.ts:171-174 | For a non-empty list of names without line breaks, the analysis prompt split on '\n' is an empty line, the header, one "- name" line per descriptor in order, and an empty line |
| UploadDataset.MLPipelineInstructions | frontend/src/utils/upload-dataset.ts:83-154 | The ML prompt is empty exactly when the descriptor list is empty |
| UploadDataset.MLExtendsAnalysis | frontend/src/utils/upload-dataset.ts:92-153 | For a non-empty list the ML prompt is the analysis prompt followed by the fixed CRISP-DM text |
| UploadDataset.TemplatesDependOnlyOnNames | frontend/src/utils/upload-dataset.ts:94 | Both prompts depend only on the `name` fields, in order |
| Http.StatusError | frontend/src/utils/upload-to-runtime.ts:22 | The status error text ends with " (" + status + ")" |
| Http.StatusErrorMentions | frontend/src/utils/copy-to-workspace.ts:37 | The status error text contains both the status text and the status code |
| Http.StatusRecoverable | frontend/src/utils/upload-to-runtime.ts:22 | The status code can be read back from the digits at the end of the error text |
| Http.Normalise | frontend/src/utils/upload-to-runtime.ts:75-99 | Success iff the response is OK with a readable body, and then the given path with no error; a non-OK response gives the status error; a network error or an unreadable body gives its message; every failure has an empty path |
| UploadToRuntime.ClearWorkspace | frontend/src/utils/upload-to-runtime.ts:10-39 | Success iff the response is OK with a readable body, and then no error; a non-OK response gives "Failed to clear workspace: statusText (status)"; a thrown error gives its message |
| UploadToRuntime.WorkspacePathSpec | frontend/src/utils/upload-to-runtime.ts:90 | The copy path starts with '/', has no "//", keeps every non-slash character of the template in order, and for a name without '/' its last '/'-piece is the name |
| UploadToRuntime.CollapseAfterPiece | frontend/src/utils/upload-to-runtime.ts:90 | Collapsing "/a" followed by more text, with `a` slash-free, keeps "/a" and collapses the rest |
| UploadToRuntime.WorkspacePathEmptySubdirectory | frontend/src/utils/upload-to-runtime.ts:90 | An empty subdirectory gives "/workspace/" + name, with no doubled slash |
| UploadToRuntime.WorkspacePathPlain | frontend/src/utils/upload-to-runtime.ts:90 | A plain subdirectory and a plain name give "/workspace/sub/name" unchanged |
| UploadToRuntime.WorkspacePathUploads | frontend/src/utils/upload-to-runtime.ts:88-91 | With the default subdirectory a plain name lands at "/workspace/uploads/" + name |
| UploadToRuntime.CopyResult | frontend/src/utils/upload-to-runtime.ts:70-99 | The copy succeeds iff the response is OK with a readable body, and then its path is the collapsed workspace path; otherwise the path is empty |
| UploadToRuntime.CopyFileToWorkspace | frontend/src/utils/upload-to-runtime.ts:49-100 | Exactly one clear request, before the copy request, iff `clearFirst`; then one copy request; the result depends only on the copy reply, whatever the clear returned |
| UploadToRuntime.CopyFileToWorkspaceDefaults | frontend/src/utils/upload-to-runtime.ts:51-52 | Called with the file only, there is no clear request and the file goes to "uploads" |
| UploadToRuntime.UploadResult | frontend/src/utils/upload-to-runtime.ts:126-150 | The upload succeeds iff the response is OK with a readable body, and then the path is destination + "/" + name, uncollapsed; otherwise the path is empty |
| UploadToRuntime.UploadPathKeepsSlashes | frontend/src/utils/upload-to-runtime.ts:141 | The destination "/tmp/" gives the path "/tmp//" + name: the upload path is not collapsed |
| UploadToRuntime.UploadFileToRuntime | frontend/src/utils/upload-to-runtime.ts:110-151 | Exactly one request, to `/api/conversations/{id}/upload-dataset?destination=...`, carrying the file |
| UploadToRuntime.UploadFileToRuntimeDefaults | frontend/src/utils/upload-to-runtime.ts:113 | By default the destination is "/tmp" and a successful path is "/tmp/" + name |
| CopyToWorkspace.ReportedPath | frontend/src/utils/copy-to-workspace.ts:46 | A non-empty server `path` is used as given; a missing or empty one falls back to the collapsed workspace path |
| CopyToWorkspace.CopyFileToWorkspace | frontend/src/utils/copy-to-workspace.ts:15-56 | Success iff the response is OK with a readable body; a failure has an empty path; a non-OK response's error contains the status text and the status; a network error or an unreadable body gives its message |
| CopyToWorkspace.TrustsServerPath | frontend/src/utils/copy-to-workspace.ts:44-47 | Whatever non-empty path the server reports is passed on |
| CopyToWorkspace.AgreesWithoutServerPath | frontend/src/utils/copy-to-workspace.ts:44-47 | Without a server path, this helper and the other copy helper give the same result for every reply |
| CopyToWorkspace.DefaultSubdirectoriesDiffer | frontend/src/utils/copy-to-workspace.ts:17 | With their defaults the two helpers put a plain file in "/workspace/" and "/workspace/uploads/" respectively |
| WorkspaceRoutes.PathJoin | openhands/server/routes/copy_to_workspace.py:129 | An absolute second component replaces the first; otherwise the result starts with the first and ends with the second |
| WorkspaceRoutes.Destination | openhands/server/routes/copy_to_workspace.py:103-125 | A missing or empty destination becomes "uploads"; a non-empty one is kept as given; the result is never empty |
| WorkspaceRoutes.ReplaceBackslashes | openhands/server/routes/copy_to_workspace.py:144 | The backslash pass keeps the length, turns each '\' into '/' and leaves every other character in place |
| WorkspaceRoutes.ReplaceKeepsAbsentChar | openhands/server/routes/copy_to_workspace.py:144 | A replacement whose text lacks a character never introduces it |
| WorkspaceRoutes.RelativePathSpec | openhands/server/routes/copy_to_workspace.py:143-144 | The reported path has no backslash, and no "//" unless the joined path had a run of three slashes |
| WorkspaceRoutes.JoinUnderTripleSlash | openhands/server/routes/copy_to_workspace.py:143 | A destination "///w" replaces '/workspace' in the join |
| WorkspaceRoutes.HalveTripleSlash | openhands/server/routes/copy_to_workspace.py:144 | The single '//' pass turns "///w/f" into "//w/f" |
| WorkspaceRoutes.TripleSlashSurvives | openhands/server/routes/copy_to_workspace.py:143-144 | A destination starting with three slashes is reported starting with two: the pass is not a collapse |
| WorkspaceRoutes.AbsoluteDestination | openhands/server/routes/copy_to_workspace.py:129-143 | An absolute destination drops the workspace base from the write location and '/workspace' from the reported path |
| WorkspaceRoutes.AbsoluteFilename | openhands/server/routes/copy_to_workspace.py:136 | An absolute file name is the whole write location |
| WorkspaceRoutes.PlainPathsAgree | openhands/server/routes/copy_to_workspace.py:143-144 | For a plain destination and name the server reports "/workspace/dest/name", the very path the front-end copy helper computes |
| WorkspaceRoutes.CopyToWorkspace | openhands/server/routes/copy_to_workspace.py:101-159 | Status 200 iff the write raises nothing, with the file name, the defaulted destination and the reported path; otherwise status 500 with "Error copying file to workspace: " + message |
| WorkspaceRoutes.ClearedEntries | openhands/server/routes/copy_to_workspace.py:37-73 | After a clear, uploads is a folder, and a top-level entry other than uploads survives iff it was there and was skipped or could not be removed |
| WorkspaceRoutes.UploadsSurvives | openhands/server/routes/copy_to_workspace.py:37-62 | Uploads is never removed, and keeps exactly its dot-named children and those whose removal raised |
| WorkspaceRoutes.PrefixInjective | openhands/server/routes/copy_to_workspace.py:59 | Two "uploads/"-prefixed records are equal only for equal names |
| WorkspaceRoutes.UploadsRecordHasSlash | openhands/server/routes/copy_to_workspace.py:59 | A child's record contains '/', so it never equals a top-level name |
| WorkspaceRoutes.RemovedAreGone | openhands/server/routes/copy_to_workspace.py:59-70 | Nothing recorded as removed is still present, at the top level or inside uploads |
| WorkspaceRoutes.ChildRecordsStep | openhands/server/routes/copy_to_workspace.py:53-60 | Removing one more child adds exactly its record, and the record is new |
| WorkspaceRoutes.ChildRecordsSkip | openhands/server/routes/copy_to_workspace.py:61-62 | A child whose removal raises adds no record |
| WorkspaceRoutes.StageOther | openhands/server/routes/copy_to_workspace.py:63-73 | Handling a top-level entry removes it and records its name, or, when removal raises, changes nothing |
| WorkspaceRoutes.StageUploads | openhands/server/routes/copy_to_workspace.py:50-62 | Handling uploads replaces its children by the kept ones and adds their records |
| WorkspaceRoutes.StageDone | openhands/server/routes/copy_to_workspace.py:47-73 | Once every globbed name is handled, the tree and the records are those of a complete clear |
| WorkspaceRoutes.RecordsAfterNames | openhands/server/routes/copy_to_workspace.py:59-70 | Appending child records after top-level names keeps the record list free of repeats |
| WorkspaceRoutes.NameNotRecorded | openhands/server/routes/copy_to_workspace.py:70 | A name not yet handled has no record yet |
| WorkspaceRoutes.DistinctAppend | openhands/server/routes/copy_to_workspace.py:70 | Appending a new record keeps the list free of repeats |
| WorkspaceRoutes.Workspace.constructor | openhands/server/routes/copy_to_workspace.py:33 | The workspace starts with the given entries |
| WorkspaceRoutes.Workspace.ClearUploads | openhands/server/routes/copy_to_workspace.py:50-62 | The inner loop leaves uploads holding its kept children, changes nothing else, and records each removed child once as "uploads/" + name |
| WorkspaceRoutes.Workspace.ClearEntry | openhands/server/routes/copy_to_workspace.py:47-73 | One turn of the outer loop moves the tree and the records one stage on and keeps the records free of repeats |
| WorkspaceRoutes.Workspace.ClearGlobbed | openhands/server/routes/copy_to_workspace.py:41-73 | The outer loop leaves the tree and the records of a complete clear, with no record repeated |
| WorkspaceRoutes.Workspace.ClearWorkspace | openhands/server/routes/copy_to_workspace.py:22-89 | An uploads file makes the call fail with the `os.makedirs` error and leaves the tree unchanged; otherwise the tree becomes the cleared tree and `removed_items` lists each removed entry exactly once |
| DatasetParsers.Sequence | openhands/runtime/plugins/agent_skills/file_reader/dataset_parsers.py:135-155 | Printouts that do not raise run in turn without raising |
| DatasetParsers.Indent | openhands/runtime/plugins/agent_skills/file_reader/dataset_parsers.py:128 | The indent is exactly two spaces per level |
| DatasetParsers.Structure | openhands/runtime/plugins/agent_skills/file_reader/dataset_parsers.py:130-132 | At or past the depth limit the printer prints exactly indent + "[...]" and does not recurse |
| DatasetParsers.SequenceAllStartWith | openhands/runtime/plugins/agent_skills/file_reader/dataset_parsers.py:135-155 | If every printout's lines share a prefix, their sequence's lines do too |
| DatasetParsers.SequenceLength | openhands/runtime/plugins/agent_skills/file_reader/dataset_parsers.py:135-155 | n printouts of at most c lines each print at most n·c lines |
| DatasetParsers.SequenceOfSingleLines | openhands/runtime/plugins/agent_skills/file_reader/dataset_parsers.py:144 | One-line printouts print exactly those lines, in order |
| DatasetParsers.IndentGrows | openhands/runtime/plugins/agent_skills/file_reader/dataset_parsers.py:128-142 | A deeper indent starts with every shallower one |
| DatasetParsers.NestedIndented | openhands/runtime/plugins/agent_skills/file_reader/dataset_parsers.py:141-155 | A header followed by a deeper preview keeps this level's indent on every line |
| DatasetParsers.StructureIndented | openhands/runtime/plugins/agent_skills/file_reader/dataset_parsers.py:126-163 | Every printed element (one `print` call) of the printer at a depth starts with two spaces per level of that depth |
| DatasetParsers.ObjectEntriesIndented | openhands/runtime/plugins/agent_skills/file_reader/dataset_parsers.py:135-144 | Every printed element (one `print` call) of a dict's entries starts with its indent |
| DatasetParsers.ArrayEntriesIndented | openhands/runtime/plugins/agent_skills/file_reader/dataset_parsers.py:153-155 | Every printed element (one `print` call) of a list's items starts with its indent |
| DatasetParsers.StructureNoError | openhands/runtime/plugins/agent_skills/file_reader/dataset_parsers.py:126-163 | With an item limit of at least one the printer never raises |
| DatasetParsers.ObjectEntriesNoError | openhands/runtime/plugins/agent_skills/file_reader/dataset_parsers.py:135-144 | With an item limit of at least one a dict's entries never raise |
| DatasetParsers.ArrayEntriesNoError | openhands/runtime/plugins/agent_skills/file_reader/dataset_parsers.py:151-155 | With an item limit of at least one a list's items never raise |
| DatasetParsers.ZeroLimitOnList | openhands/runtime/plugins/agent_skills/file_reader/dataset_parsers.py:151-152 | Below the depth limit, an item limit of zero makes a non-empty list raise IndexError before printing anything |
| DatasetParsers.TimesMono | openhands/runtime/plugins/agent_skills/file_reader/dataset_parsers.py:136 | More items never lower the line bound |
| DatasetParsers.StructureLineBound | openhands/runtime/plugins/agent_skills/file_reader/dataset_parsers.py:126-163 | The number of `print` calls is bounded by the depth and item limits alone, whatever the size of the data |
| DatasetParsers.ObjectEntriesBound | openhands/runtime/plugins/agent_skills/file_reader/dataset_parsers.py:135-144 | A dict's entries make at most max_items times one more than the next level's bound of `print` calls |
| DatasetParsers.ArrayEntriesBound | openhands/runtime/plugins/agent_skills/file_reader/dataset_parsers.py:153-155 | A list's items make at most max_items times one more than the next level's bound of `print` calls |
| DatasetParsers.ScalarObjectPreview | openhands/runtime/plugins/agent_skills/file_reader/dataset_parsers.py:135-144 | A dict of scalars prints one "key: value" line per shown entry, in order, then one overflow line naming len − max_items iff len > max_items |
| DatasetParsers.ContainerEntryNests | openhands/runtime/plugins/agent_skills/file_reader/dataset_parsers.py:140-142 | When the first entry holds a container, the output starts with its "key:" line followed by the value's own preview one level deeper |
| DatasetParsers.ObjectPreviewLines | openhands/runtime/plugins/agent_skills/file_reader/dataset_parsers.py:134-138 | A dict prints its shown entries and then the overflow line, if any |
| DatasetParsers.ObjectPreviewEntries | openhands/runtime/plugins/agent_skills/file_reader/dataset_parsers.py:134-144 | With room for one item, a dict prints, for each shown entry in order, either "key: value" on one line or "key:" followed by the value's own preview one level deeper, and then the overflow line iff len > max_items |
| DatasetParsers.ObjectEntriesHead | openhands/runtime/plugins/agent_skills/file_reader/dataset_parsers.py:140-142 | The first entry of a dict whose first value is a container prints "key:" followed by its nested preview |
| DatasetParsers.ScalarListPreview | openhands/runtime/plugins/agent_skills/file_reader/dataset_parsers.py:151-160 | A list whose first item is a scalar prints the shown slice on one line, then one overflow line iff len > max_items |
| DatasetParsers.ArrayPreviewLines | openhands/runtime/plugins/agent_skills/file_reader/dataset_parsers.py:146-160 | A non-empty list prints its shown items and then the overflow line, if any |
| DatasetParsers.ContainerListPreview | openhands/runtime/plugins/agent_skills/file_reader/dataset_parsers.py:146-160 | A list whose first item is a container prints, for each shown item in order, an "Item i:" line followed by that item's preview one level deeper, and then the overflow line iff len > max_items |
| DatasetParsers.OverflowLineLast | openhands/runtime/plugins/agent_skills/file_reader/dataset_parsers.py:136-160 | When entries were left out, the last line reports how many |
| DatasetParsers.ParseJson | openhands/runtime/plugins/agent_skills/file_reader/dataset_parsers.py:68-123 | The first line names the file; a load failure prints exactly "Error parsing JSON file: " + message after it |
| DatasetParsers.SimpleArrayListing | openhands/runtime/plugins/agent_skills/file_reader/dataset_parsers.py:99-107 | A list not starting with a dict prints "i: item" for each shown item, in order, and an overflow line iff len > max_items |
| DatasetParsers.ObjectListing | openhands/runtime/plugins/agent_skills/file_reader/dataset_parsers.py:109-116 | For every item limit, zero included, a dict shows at most 20 key names, and its preview is the printer at depth 0 with a depth limit of 2 |
| DatasetParsers.BaseExtSpec | openhands/runtime/plugins/agent_skills/file_reader/dataset_parsers.py:274 | The extension of a name is empty, or a '.' then text with no '.', at the end of the name |
| DatasetParsers.SplitExtSpec | openhands/runtime/plugins/agent_skills/file_reader/dataset_parsers.py:274 | `splitext`'s extension is empty, or a '.' then text with no '.' or '/', at the end of the path |
| DatasetParsers.PlainNameExtension | openhands/runtime/plugins/agent_skills/file_reader/dataset_parsers.py:274 | "stem.ext" has the extension ".ext" |
| DatasetParsers.DotFileHasNoExtension | openhands/runtime/plugins/agent_skills/file_reader/dataset_parsers.py:274 | A dot file such as ".csv" has no extension |
| DatasetParsers.ParseDataset | openhands/runtime/plugins/agent_skills/file_reader/dataset_parsers.py:267-286 | A reader is called iff the lower-cased extension is supported: .csv → CSV, .json → JSON, .xlsx/.xls → Excel with sheet 0, .parquet → Parquet, with the path and the row limit; otherwise it prints the two "Unsupported" lines |
| DatasetParsers.DispatchIgnoresCase | openhands/runtime/plugins/agent_skills/file_reader/dataset_parsers.py:274 | Paths whose extensions differ only in case go to the same reader |
| DatasetParsers.UpperCaseCsv | openhands/runtime/plugins/agent_skills/file_reader/dataset_parsers.py:274-277 | "name.CSV" is read by the CSV reader |
| FileKinds.Images | frontend/src/components/features/chat/interactive-chat-box.tsx:41 | Only files whose type starts with "image/" are kept |
| FileKinds.Datasets | frontend/src/components/features/chat/interactive-chat-box.tsx:42 | Only files whose type does not start with "image/" are kept |
| FileKinds.FilterAppend | frontend/src/components/shared/task-form.tsx:128-131 | Both filters distribute over concatenation, so each kind keeps its batch order |
| FileKinds.PartitionComplete | frontend/src/components/features/chat/interactive-chat-box.tsx:41-42 | The two kinds together are exactly the batch, as a multiset |
| FileKinds.NoImagesKeepsBatch | frontend/src/components/shared/task-form.tsx:128 | A batch with no image is its own dataset list |
| SessionStore.BytesRoundTrip | frontend/src/components/features/ml/dataset-uploader.tsx:46-49 | Storing bytes and reading them back gives the same bytes |
| SessionStore.NumbersRoundTrip | frontend/src/components/features/ml/dataset-uploader.tsx:46 | A stored list of numbers survives a read and store iff every number is 0..255 |
| SessionStore.Store.constructor | frontend/src/components/shared/task-form.tsx:171 | The storage starts empty |
| SessionStore.Store.GetItem | frontend/src/components/features/ml/dataset-uploader.tsx:25-26 | Yields the stored value, or nothing for a missing key |
| SessionStore.Store.SetItem | frontend/src/components/shared/task-form.tsx:171-178 | Sets one key and changes nothing else |
| SessionStore.Store.TrySetItem | frontend/src/components/shared/task-form.tsx:171-178 | A write throws iff the browser refuses it; a refused write leaves the storage as it was, an accepted one sets that key only |
| SessionStore.Store.RemoveItem | frontend/src/components/features/ml/dataset-uploader.tsx:68-69 | Removes one key and changes nothing else |
| TaskForm.AppendParagraph | frontend/src/components/shared/task-form.tsx:181-182 | The new text starts with the old and ends with the addition, and is the addition alone when the old text is empty |
| TaskForm.UploadingNoteStays | frontend/src/components/shared/task-form.tsx:181-185 | The "Uploading dataset files..." note is still in the text after the pipeline request or the failure note is added |
| TaskForm.Candidates | frontend/src/components/shared/task-form.tsx:43-49 | A refresh chooses among the suggestion keys other than the current one |
| TaskForm.RefreshHasChoice | frontend/src/components/shared/task-form.tsx:43-50 | With at least two suggestions a refresh always finds another one |
| TaskForm.TaskForm.constructor | frontend/src/components/shared/task-form.tsx:35-39 | The form starts with empty text and no images, showing an entry of the suggestion table, or none iff the table is empty |
| TaskForm.TaskForm.RefreshSuggestion | frontend/src/components/shared/task-form.tsx:43-51 | The new suggestion is an entry of the table whose key differs from the current one; the text and the images are unchanged |
| TaskForm.TaskForm.OnUpload | frontend/src/components/shared/task-form.tsx:126-190 | Images are appended in order and no request is sent. A batch without datasets leaves text and storage alone. When every read succeeds and storage takes both writes, the note and then the pipeline request are added and both keys are written. When the descriptor write is refused, or a read fails, the note and then the failure text are added and storage is unchanged. When only the files write is refused, the descriptors stay written and the failure text is added |
| ChatBox.SuccessInfos | frontend/src/components/features/chat/interactive-chat-box.tsx:77-88 | At most one descriptor per result, and none iff no copy succeeded |
| ChatBox.InfoNamesAreFileNames | frontend/src/components/features/chat/interactive-chat-box.tsx:77-91 | For file names without '/', the descriptors name exactly the files whose copy succeeded, in order |
| ChatBox.ResultsNames | frontend/src/components/features/chat/interactive-chat-box.tsx:83-84 | When every successful path is that file's workspace path, the descriptor names are the succeeded files' names, in order |
| ChatBox.UploadOnlyAppends | frontend/src/components/features/chat/interactive-chat-box.tsx:58-111 | A draft holding no marker is only appended to |
| ChatBox.UploadDropsOneMarker | frontend/src/components/features/chat/interactive-chat-box.tsx:61-108 | For a non-empty batch the new text starts with the draft minus the first marker, exactly one marker shorter |
| ChatBox.SpliceStart | frontend/src/components/features/chat/interactive-chat-box.tsx:118 | The start of `splice(index, 1)` is within the list and equals an in-range index |
| ChatBox.RemoveAtSpec | frontend/src/components/features/chat/interactive-chat-box.tsx:115-121 | Removing one entry keeps the others in order and removes exactly that entry |
| ChatBox.CopyAll | frontend/src/components/features/chat/interactive-chat-box.tsx:71-75 | One clear request, then one copy request per dataset file in order: only the first call clears; the results are the per-file copy results |
| ChatBox.InteractiveChatBox.constructor | frontend/src/components/features/chat/interactive-chat-box.tsx:35 | The box starts with no files and the given draft |
| ChatBox.InteractiveChatBox.HandleUpload | frontend/src/components/features/chat/interactive-chat-box.tsx:39-113 | Images are appended after the earlier files. Without datasets nothing is sent and the draft is kept. Without a conversation nothing is sent and the no-conversation note follows the draft minus its first marker. Otherwise the clear request and the copies go out, and the draft minus its first marker gets the analysis prompt for the successes, or the failure note when there are none |
| ChatBox.InteractiveChatBox.HandleRemoveFile | frontend/src/components/features/chat/interactive-chat-box.tsx:115-121 | Exactly the entry `splice(index, 1)` picks is removed; the draft is unchanged |
| ChatBox.InteractiveChatBox.HandleSubmit | frontend/src/components/features/chat/interactive-chat-box.tsx:123-129 | The queued files go out, the queue empties, and the draft is cleared only for a non-empty message |
| DatasetUploader.Rebuilt | frontend/src/components/features/ml/dataset-uploader.tsx:46-49 | The rebuilt file keeps the stored name and type, and its size is the number of stored bytes |
| DatasetUploader.Uploaded | frontend/src/components/features/ml/dataset-uploader.tsx:44-65 | At most one descriptor per stored file |
| DatasetUploader.UploadedSpec | frontend/src/components/features/ml/dataset-uploader.tsx:54-60 | No descriptor iff no upload succeeded; each descriptor has the name and byte count of a stored file and the path "/tmp/" + name |
| DatasetUploader.StoredFilesRoundTrip | frontend/src/components/features/ml/dataset-uploader.tsx:46-49 | The files the task form stores are rebuilt identical, in batch order |
| DatasetUploader.AsPendingFiles | frontend/src/components/features/ml/dataset-uploader.tsx:38 | A stored file list is read as it is; a descriptor list in its place is walked as files with no bytes, because the cast checks nothing |
| DatasetUploader.NoDrainNoChange | frontend/src/components/features/ml/dataset-uploader.tsx:28-30 | A run that does not drain sends nothing and changes neither storage nor the handed-over prompts; it skips exactly when a key is missing or empty or an upload is running |
| DatasetUploader.DrainsOnce | frontend/src/components/features/ml/dataset-uploader.tsx:68-69 | A drain removes both keys and nothing else, so the next run skips |
| DatasetUploader.CompletesAtMostOnce | frontend/src/components/features/ml/dataset-uploader.tsx:72-75 | The parent hears at most once per run, exactly when a drain had a success, and then with the prompt for the results |
| DatasetUploader.InfoIgnored | frontend/src/components/features/ml/dataset-uploader.tsx:37-60 | Any other parseable descriptor value gives the same run |
| DatasetUploader.ParkedBatchIsUploaded | frontend/src/components/shared/task-form.tsx:171-178 | What the task form parks is drained: one upload request per dataset file, in batch order, each carrying that very file |
| DatasetUploader.PartialParkSkips | frontend/src/components/features/ml/dataset-uploader.tsx:25-30 | When the task form's files write was refused and no earlier files are stored, the next run skips: the batch is never uploaded and nothing changes |
| DatasetUploader.PartialParkDrainsEarlierFiles | frontend/src/components/features/ml/dataset-uploader.tsx:25-52 | When the files write was refused but an earlier batch's files are still stored, the run uploads those earlier files, in their order, under the new descriptors |
| DatasetUploader.Uploader.constructor | frontend/src/components/features/ml/dataset-uploader.tsx:21 | No upload is running and nothing has been handed over |
| DatasetUploader.Uploader.UploadAll | frontend/src/components/features/ml/dataset-uploader.tsx:42-65 | The loop's results are the successful uploads' descriptors in stored order, and its requests are one upload per stored file in order |
| DatasetUploader.Uploader.Drain | frontend/src/components/features/ml/dataset-uploader.tsx:42-75 | Uploads every stored file, removes both keys and nothing else, and hands the ML prompt over iff something arrived |
| DatasetUploader.Uploader.RunEffect | frontend/src/components/features/ml/dataset-uploader.tsx:23-84 | The run's outcome, requests, storage and handed-over prompts are exactly those of the effect specification, and the upload flag is back where it was |
| TabContent.SuffixInjective | frontend/src/components/layout/tab-content.tsx:22-27 | The six route suffixes are pairwise distinct |
| TabContent.AtMostOneActive | frontend/src/components/layout/tab-content.tsx:22-27 | At most one tab is active for any location |
| TabContent.ActiveTab | frontend/src/components/layout/tab-content.tsx:22-27 | The tab found is active, and when none is found no tab is active |
| TabContent.TabClasses | frontend/src/components/layout/tab-content.tsx:39-80 | One class string per tab: all six tabs are always rendered |
| TabContent.OnlyActiveShown | frontend/src/components/layout/tab-content.tsx:39-80 | A tab gets the visible classes iff it is the active tab, so every other tab is hidden |
| AIAgent.GetTools | openhands/agenthub/aiagent/aiagent.py:95-130 | The tool list appended step by step is the list of the six blocks, with short descriptions iff there is a model whose name contains a marker |
| AIAgent.AllBlocks | openhands/agenthub/aiagent/aiagent.py:107-130 | The list after six blocks is the whole tool list |
| AIAgent.BlockRanks | openhands/agenthub/aiagent/aiagent.py:108-129 | Each block appends increasing ranks from its own range |
| AIAgent.BlocksOrdered | openhands/agenthub/aiagent/aiagent.py:107-130 | After any number of blocks the ranks increase and stay below the next block's range |
| AIAgent.ToolListOrdered | openhands/agenthub/aiagent/aiagent.py:107-130 | Tools come in the fixed order cmd, think, finish, web-read, browser, ipython, editor, each at most once |
| AIAgent.BlockPresence | openhands/agenthub/aiagent/aiagent.py:108-129 | A rank is in a block iff it is in that block's range and its flag asks for it |
| AIAgent.BlocksPresence | openhands/agenthub/aiagent/aiagent.py:107-130 | A rank is in the first k blocks iff it is below their range's end and its flag asks for it |
| AIAgent.ToolListPresence | openhands/agenthub/aiagent/aiagent.py:107-130 | A tool is in the list iff its flag asks for it |
| AIAgent.BlocksDescriptions | openhands/agenthub/aiagent/aiagent.py:109-128 | In any prefix of blocks, both tools built with a description length get the chosen one |
| AIAgent.ToolListDescriptions | openhands/agenthub/aiagent/aiagent.py:100-128 | The command tool and the editor tool both get the chosen description length |
| AIAgent.WindowsIgnoresBrowsing | openhands/agenthub/aiagent/aiagent.py:114-119 | On win32 the browsing flag adds nothing: the list is the one without the flag, and the one without the flag anywhere else |
| AIAgent.EditorsExclusive | openhands/agenthub/aiagent/aiagent.py:122-129 | At most one editor is offered, and the LLM editor whenever it is asked for |
| AIAgent.RankMembers | openhands/agenthub/aiagent/aiagent.py:123-129 | The editors are found by their ranks |
| AIAgent.Next | openhands/agenthub/aiagent/aiagent.py:137-209 | A completion is requested iff the queue is empty, the last user message is not "/exit" and the condenser gives a view; it carries the agent's tools |
| AIAgent.QueuedActionFirst | openhands/agenthub/aiagent/aiagent.py:153-154 | A queued action is returned first, with no exit check and no completion |
| AIAgent.ResponseQueued | openhands/agenthub/aiagent/aiagent.py:185-209 | A completion's actions are queued in order and the first is returned; an empty completion makes `popleft` raise; the tools are stripped of defaults only for the Gemini preview model |
| AIAgent.DrainInOrder | openhands/agenthub/aiagent/aiagent.py:153-154 | Queued actions come out in the order they went in, whatever the steps see, and none of those steps asks for a completion |
| AIAgent.Agent.constructor | openhands/agenthub/aiagent/aiagent.py:64-78 | A new agent has an empty queue and the tool list for its configuration, model and platform |
| AIAgent.Agent.Reset | openhands/agenthub/aiagent/aiagent.py:132-135 | `reset` empties the queue and keeps the tools |
| AIAgent.Agent.Step | openhands/agenthub/aiagent/aiagent.py:137-209 | One step returns, queues and requests exactly what the step function says, and leaves `self.tools` unchanged |
| Text.SplitOn | frontend/src/components/features/chat/interactive-chat-box.tsx:84 | `split` gives at least one piece, no piece holds the separator, and two or more pieces iff the text holds it |
| Text.LastSegmentSpec | frontend/src/components/features/chat/interactive-chat-box.tsx:84 | The last piece ends the text, holds no separator and follows the last separator; it is the whole text when there is none |
| Text.SplitJoin | frontend/src/utils/upload-dataset.ts:173 | Splitting undoes joining when no part holds the separator |
| Text.ReplaceFirstRemovesOne | frontend/src/components/features/chat/interactive-chat-box.tsx:61-95 | Removing the first occurrence shortens the text by exactly the pattern's length, and changes nothing when there is none |
| Text.ReplaceAllAbsent | openhands/server/routes/copy_to_workspace.py:144 | A replacement pass changes nothing when the pattern does not occur |
| Text.HalveSlashesNoDouble | openhands/server/routes/copy_to_workspace.py:144 | One '//' pass over a text without "///" leaves no "//" |
| Text.CollapseSlashes | frontend/src/utils/upload-to-runtime.ts:90 | The collapse leaves no "//", empties only the empty text and keeps the first character |
| Text.CollapseIdentity | frontend/src/utils/upload-to-runtime.ts:90 | Collapsing changes nothing in a text without "//" |
| Text.CollapseIdempotent | frontend/src/utils/upload-to-runtime.ts:90 | Collapsing twice is collapsing once |
| Text.CollapseRemovesOnlySlashes | frontend/src/utils/upload-to-runtime.ts:90 | Collapsing removes slashes and nothing else, and keeps the last character |
| Text.NatToDecimal | frontend/src/utils/upload-to-runtime.ts:22 | The decimal rendering of a number is never empty |
| Text.DecimalRoundTrip | frontend/src/utils/upload-to-runtime.ts:22 | A rendered number reads back as the same number |
| Text.StripLeft | openhands/agenthub/aiagent/aiagent.py:158 | `lstrip` drops a run of leading white space and keeps a suffix that does not start with white space |
| Text.StripRight | openhands/agenthub/aiagent/aiagent.py:158 | `rstrip` drops a run of trailing white space and keeps a prefix that does not end with white space |

## Left out

- `fetch`, `FormData` and the server behind them are not modelled. A reply is a `FetchOutcome` parameter, and `response.text()` on an error response is not modelled.
- `FileReader` is a `Reader` oracle. The data URL encoding the browser produces is not modelled, and neither is the text decoding; `fileToBase64` and `fileToText` are the two fields of the oracle.
- `Promise.all` in the chat box is modelled as the calls in file order. The race between the first file's clear and the other copies is not modelled.
- The `.catch` branch of the chat box's `Promise.all` is not modelled: the helpers never reject, as `Http.Normalise` states, so that branch cannot be reached.
- The JSON text in session storage is not modelled. A stored value is the array it encodes, or text that does not parse.
- The task form's images go through `convertImageToBase64` and a Redux store. The model keeps the `File` values in place of their base64 strings.
- `TaskForm.TaskForm.OnUpload`: every image is taken to convert. `convertImageToBase64` is not part of this model. If one conversion rejected, the handler would stop at its `Promise.all`, before the dataset branch: no note would be added and nothing would be stored. The model does not capture that path.
- `getRandomKey` is modelled by an arbitrary choice (`:|`), and the suggestion table is a parameter.
- The task form's `onClickSuggestion`, `handleSubmit`, `onImagePaste` and the image-only `UploadImageInput` handler are not modelled. They set state, submit the form or dispatch base64 images, and hold no upload rule.
- The chat box's `onChange` is assumed to be present. Without it the draft is never written.
- Console and logger output is left out everywhere.
- The workspace base comes from the `WORKSPACE_BASE` environment variable. It is a parameter of the clear and copy routes.
- The file write in `copy_to_workspace` is not modelled. Any error it raises is the `writeError` parameter.
- `WorkspaceRoutes.CopyToWorkspace`: the uploaded file's `filename` is always a string. An upload with no filename would make `os.path.join` raise a `TypeError`, and the route would answer 500. The model does not capture that case.
- A JSON `null` body is not a `Body` value. With a `null` body, `data.path` in the copy helper without a clear step would throw a `TypeError`, and the copy would fail with that message. The model does not capture that case. The other helpers only log `data`, so for them a `null` body succeeds like any parsed body.
- The order `glob` returns names in is left open: the loops pick the next name with `:|`, and `removed_items` is stated as a list without repeats whose elements are a set.
- When `shutil.rmtree` fails part-way through a folder, the real folder may be partly removed. In the model a removal that raises leaves the entry untouched.
- `WorkspaceRoutes.Workspace.ClearWorkspace`: an uploads entry that is a file is the only error path modelled. Other `os.makedirs` or `glob` errors are not.
- `parse_csv`, `parse_xlsx` and `parse_parquet` are left out: they are pandas calls with float statistics. `parse_dataset` returns which reader it would call.
- In `parse_json`, the table pandas renders for a list of dicts is the `frame` parameter, and `json.load` is the `LoadOutcome` parameter.
- Python's `repr` is modelled for strings, numbers, `None`, booleans, lists and dicts. Escapes inside strings and the rendering of floats are not: a number carries its own text.
- Negative `max_items`, `max_depth` and `max_rows` are not modelled; they are `nat`.
- DatasetParsers.StructureIndented: is about printed elements, one per `print` call. A key or string value that holds a line break prints as one element spanning several terminal lines; the terminal lines after the first carry no indent, and this is not promised.
- DatasetParsers.ObjectEntriesIndented: is about printed elements, one per `print` call. A key or string value that holds a line break prints as one element spanning several terminal lines; the terminal lines after the first carry no indent, and this is not promised.
- DatasetParsers.ArrayEntriesIndented: is about printed elements, one per `print` call. A key or string value that holds a line break prints as one element spanning several terminal lines; the terminal lines after the first carry no indent, and this is not promised.
- DatasetParsers.StructureLineBound: counts `print` calls, not terminal lines. A key or string value with k line breaks adds k terminal lines that the bound does not count, so no bound on terminal lines is promised.
- DatasetParsers.ObjectEntriesBound: counts `print` calls, not terminal lines. A key or string value with k line breaks adds k terminal lines that the bound does not count, so no bound on terminal lines is promised.
- DatasetParsers.ArrayEntriesBound: counts `print` calls, not terminal lines. A key or string value with k line breaks adds k terminal lines that the bound does not count, so no bound on terminal lines is promised.
- Lower-casing covers ASCII letters only.
- The ML agent without an LLM (`self.llm` None) is not modelled. In `step` that case would fail on `self.llm.format_messages_for_llm`.
- `AIAgent.Next`: of the Gemini branch, only whether defaults are stripped from the copy is recorded. The tool schemas are not modelled.
- The condenser, `ConversationMemory`, prompt caching, the LLM completion, `response_to_actions` and the prompt manager are oracles. A step's `StepInput` carries what they would give.
- `DatasetUploader.Effect` is stated for any prompt function. The uploader passes `MLPipelineInstructions`, and `Uploader.RunEffect` states its result with it.
- React re-renders, hooks and the effect's dependency list are not modelled. Each run of the effect is a `RunEffect` call, and the `isUploading` toggles inside one run are not visible outside it.
- The fixed CRISP-DM text is stored as concatenated pieces, one element per line. This changes only how it is written down: the text is the same.
