# Nyx analysis status — a Dafny model

This project models how the status of an analysis record moves through the
malware-analysis platform, and how each side of the system reads that status.

- **Backend** (`backend/main.py`). The sqlite `analyses` table is a map from
  id to `Record`, and the upload and results directories are a `FileStore`.
  - `save_analysis` and the `update_*` helpers are table writes.
  - `run_analysis` moves a row `pending → running → completed | failed`. On
    the way it writes `<sha256>.json` and a `completed` marker that names that
    file.
  - `restart_analysis` puts a row back to `pending`.
  - `start_interactive_session` creates a row that is already `completed`.
  - `get_analysis` reads a row and validates it into the `FileAnalysis`
    response model. That model declares `container_info` a dict, while the
    column holds the JSON text `update_container_info` wrote. So every row with
    container info, which is every interactive session, is refused: reading it
    answers HTTP 500.
  - `get_file`, `get_results` and `get_vnc_info` are ordered guard chains over
    a snapshot of the table and the disk, behind that read.
  - The state-changing operations are methods of the class
    `BackendService.AnalysisStore`. Each is proved against the pure functions
    of module `Backend`. A ghost trace records the status writes and tool runs
    in order.
- **Interactive-session page** (`frontend/src/components/InteractiveSession.jsx`).
  The `loading` / `error` / `sessionInfo` state and the self-rescheduling
  `checkSessionStatus` are modelled as a pure transition `SessionPoll.Fire`
  and the class `SessionPoll.InteractiveSessionPage`. The class keeps the
  checks still armed: a new route id adds a check and cancels none.
- **Dashboard** (`frontend/src/App.jsx`). Module `Dashboard` holds:
  - the status badge;
  - the `enabled` gate on the results query;
  - the routing of interactive rows to `VncSession`;
  - when a VNC descriptor is usable, and the noVNC and direct addresses (each
    with a parser that reads it back);
  - the upload form's file;
  - `VncSession`'s `connected` flag;
  - the start button's session id.
- **End to end** (module `EndToEnd`). Lemmas about what the pages do with the
  answers the backend actually produces. Every answer of the VNC endpoint is an
  error. So for a session this backend starts:
  - the interactive page stops on its retrieval error after the first check;
  - `VncSession` shows its error text;
  - the details pane shows no analysis.

  The endpoint's success payload as written has no `status` and no port. A page
  that received it would poll for ever, but the backend never sends it.

JSON values (`Json.Value`) carry JavaScript's property access, truthiness and
template-literal text. `json.dump`/`json.load` are an abstract `Codec`. The
write/read round trip needs `load(dump(doc)) == doc` for the document written.

## Model

| member | source | states |
|---|---|---|
| Backend.Insert | backend/main.py:194-202 | A new id gets a row that is "pending", has the given type, and has no completion time, container, hash or info; other rows are kept; an existing id is refused |
| Backend.SetStatus | backend/main.py:204-220 | Only "completed"/"failed" stamp completion_time; otherwise only the status column changes; other rows, the keys and the table invariant are kept |
| Backend.SetContainerId | backend/main.py:222-230 | Only container_id of that one row changes |
| Backend.SetFileHash | backend/main.py:232-240 | Only file_hash of that one row changes |
| Backend.SetContainerInfo | backend/main.py:242-250 | Only container_id and container_info of that one row change |
| Backend.RecordJson | backend/main.py:35-44 | definition; no contract: the FileAnalysis object sent for a row |
| Backend.Readable | backend/main.py:43 | definition; no contract: a row passes FileAnalysis validation exactly when it has no container info (the column holds text, the field is a dict) |
| Backend.GetAnalysis | backend/main.py:252-262 | Missing exactly for an unknown id; refused exactly for a row with container info; otherwise the row |
| Backend.GetFile | backend/main.py:318-324 | 404 for an unknown id, 500 for a refused row, else the row's JSON (with container_info null) |
| Backend.Join | backend/main.py:126-127 | definition; no contract: os.path.join of two components |
| Backend.Basename | backend/main.py:133 | The basename has no '/' |
| Backend.BasenameOfJoin | backend/main.py:133-134 | The basename of `dir/name` is `name` when name has no '/' |
| Backend.MakeDirs | backend/main.py:129-130 | definition; no contract: makedirs(exist_ok=True) fails only on an existing file |
| Backend.CreateJobDirs | backend/main.py:126-130 | definition; no contract: the upload job directory, then the results one |
| Backend.Copy2 | backend/main.py:135 | definition; no contract: copy2 fails on a missing source or a copy onto itself |
| Backend.CopyTarget | backend/main.py:133-134 | definition; no contract: the job upload directory joined with the basename of the source |
| Backend.WriteText | backend/main.py:168-176 | Writing fails exactly when the path is a directory |
| Backend.Prepare | backend/main.py:124-135 | As written: preparation succeeds exactly when neither job directory is a file, the source is a file and the source is not its own copy target; it adds both directories and the copy |
| Backend.PrepareFixed | backend/main.py:124-135 | Corrected: preparation succeeds exactly when neither job directory is a file and the source is a file; it succeeds wherever the as-written copy does, and also when the source already is the target |
| Backend.RunFrom | backend/main.py:137-191 | definition; no contract: the run after preparation (see RunEndsTerminal, RunStepOrder) |
| Backend.RunSpec | backend/main.py:123-191 | definition; no contract: run_analysis as written (see RunEndsTerminal, RunStepOrder, RunThenResults) |
| Backend.RunSpecFixed | backend/main.py:123-191 | definition; no contract: run_analysis with the corrected preparation (see FixedRunAgrees) |
| Backend.CommandJson | backend/main.py:104-108 | definition; no contract: the stdout, stderr and returncode dict of run_command |
| Backend.MetadataJson | backend/main.py:143-148 | definition; no contract: filename, filesize, hashes and analysis timestamp |
| Backend.ToolsJson | backend/main.py:149-162 | definition; no contract: the file, strings and binwalk results |
| Backend.ResultDocument | backend/main.py:142-162 | definition; no contract: the results dict with its metadata and tools |
| Backend.ResultName | backend/main.py:165 | definition; no contract: `<sha256>.json` |
| Backend.RunEndsTerminal | backend/main.py:123-191 | run_analysis leaves the analysed row "completed" with the sha256 and a completion time, changing only those columns, or "failed"; other rows are unchanged; it fails at preparation exactly when the as-written preparation fails |
| Backend.RunStepOrder | backend/main.py:137-179 | "running" is written before the file, strings and binwalk runs; a failed preparation writes only "failed"; each run ends with exactly one terminal status write |
| Backend.FixedRunAgrees | backend/main.py:124-135 | Wherever the as-written copy succeeds, the corrected run is the same run |
| Backend.RunSuccessDisk | backend/main.py:164-176 | After success, the marker holds `<sha256>.json` and that file holds the dumped result document |
| Backend.Strip | backend/main.py:355 | definition; no contract: str.strip with Python's white-space set |
| Backend.StripUntrimmed | backend/main.py:354-355 | `.strip()` leaves a name alone when it has no surrounding white space |
| Backend.GetOrEmpty | backend/main.py:371-372 | definition; no contract: `d.get(key, {})` |
| Backend.GetResults | backend/main.py:326-373 | The guard order: unknown id gives 404; a refused row gives 500; not completed gives the status and the not-finished message; a missing directory gives 404; a missing marker gives "error"; a marker naming a missing file gives "error"; a ready answer carries the metadata and tools (default {}) of the document the marker names |
| Backend.ResultsFollowMarker | backend/main.py:346-373 | A marker naming `<sha256>.json` leads get_results to that document's metadata and tools, each defaulting to {} |
| Backend.RunThenResults | backend/main.py:165-176 | Round trip: after a successful run, get_results answers "completed" with the metadata and tool outputs that were written (500 for a row with container info) |
| Backend.UnfinishedIgnoresDisk | backend/main.py:333-338 | While not completed, the answer does not depend on the disk, and a readable row gets its status and the not-finished message |
| Backend.RestartSource | backend/main.py:382-388 | The restart source is UPLOAD_DIR/<filename> if it exists, else UPLOAD_DIR/<id>/<filename> if that exists, else none |
| Backend.RestartFallbackFailsAsWritten | backend/main.py:385-386 | The fallback source is exactly the copy target, so the as-written preparation fails |
| Backend.RestartFallbackRunFails | backend/main.py:385-386 | As written, run_analysis on restart's fallback source fails at preparation: the row ends "failed" and "running" is never written |
| Backend.RestartSourcePreparesFixed | backend/main.py:383-394 | With the fix, a source found by restart can always be prepared |
| Backend.RestartFallbackRunsFixed | backend/main.py:383-394 | With the fix, run_analysis on restart's fallback source gets past preparation and writes "running" before the tools |
| Backend.InteractiveInfo | backend/main.py:409-411 | definition; no contract: the placeholder container info with its one message |
| Backend.SessionRow | backend/main.py:406-417 | definition; no contract: the row after the insert, the container-info write and the "completed" write |
| Backend.StartSession | backend/main.py:398-429 | The session row is inserted as "interactive" with placeholder info and status "completed"; a duplicate id fails |
| Backend.VncBody | backend/main.py:442-456 | definition; no contract: the JSON body of each VNC answer |
| Backend.VncReadyPayload | backend/main.py:453-456 | The success payload as written has only session_id and message |
| Backend.HasContainerInfo | backend/main.py:448 | definition; no contract: `analysis.container_info` is present and not an empty dict |
| Backend.GetVncInfo | backend/main.py:438-456 | The rejection order: unknown id gives 404, a refused row 500, a non-interactive row 400, then 400 for missing container info; no answer is a success |
| BackendService.AnalysisStore.constructor | backend/main.py:21-23 | The store starts with an empty table, and the two roots are created |
| BackendService.AnalysisStore.SaveAnalysis | backend/main.py:194-202 | Inserts exactly when the id is new, with default type "auto" |
| BackendService.AnalysisStore.UpdateStatus | backend/main.py:204-220 | The table becomes SetStatus of the old one, and the status write is traced |
| BackendService.AnalysisStore.UpdateContainerId | backend/main.py:222-230 | The table becomes SetContainerId of the old one |
| BackendService.AnalysisStore.UpdateFileHash | backend/main.py:232-240 | The table becomes SetFileHash of the old one |
| BackendService.AnalysisStore.UpdateContainerInfo | backend/main.py:242-250 | The table becomes SetContainerInfo of the old one |
| BackendService.AnalysisStore.RunAnalysis | backend/main.py:123-191 | The table, disk, result and event trace are those of RunSpec (the copy as written) |
| BackendService.AnalysisStore.RestartAnalysis | backend/main.py:375-396 | 404 with nothing changed for an unknown id or a missing file; 500 with nothing changed for a refused row; otherwise the row is reset to "pending" and returned with its source |
| BackendService.AnalysisStore.StartInteractiveSession | backend/main.py:398-436 | A new session id gets the completed interactive row; a duplicate id fails with nothing changed |
| SessionPoll.Decide | frontend/src/components/InteractiveSession.jsx:18-30 | "running" means ready; "error" means the message or the default text; a null body throws; anything else means recheck |
| SessionPoll.Init | frontend/src/components/InteractiveSession.jsx:8-10 | definition; no contract: loading, no error, no session info, one immediate check |
| SessionPoll.Fire | frontend/src/components/InteractiveSession.jsx:13-31 | The body is stored first. ready/error/failure stop loading and arm nothing; a failure sets the fixed text; a recheck arms one check 2000 ms later and changes neither loading nor error |
| SessionPoll.FireAll | frontend/src/components/InteractiveSession.jsx:13-31 | definition; no contract: successive answers to one chain |
| SessionPoll.RouteChanged | frontend/src/components/InteractiveSession.jsx:33-34 | A new id issues one immediate check and keeps the ones already armed |
| SessionPoll.NoRetryBound | frontend/src/components/InteractiveSession.jsx:23-26 | However many recheck answers arrive, the page is unchanged and exactly one check stays armed 2000 ms ahead |
| SessionPoll.ChainStopsAtFirstFinalAnswer | frontend/src/components/InteractiveSession.jsx:13-31 | A chain stops at its first answer that is not a recheck, with loading false |
| SessionPoll.Render | frontend/src/components/InteractiveSession.jsx:36-58 | Loading wins over error; the session view appears exactly when loading is false and there is no error |
| SessionPoll.InteractiveSessionPage.constructor | frontend/src/components/InteractiveSession.jsx:8-10 | loading is true, error and sessionInfo are null, and one immediate check is armed |
| SessionPoll.InteractiveSessionPage.CheckSessionStatus | frontend/src/components/InteractiveSession.jsx:13-31 | The new page state is Fire of the old one |
| SessionPoll.InteractiveSessionPage.OnRouteChange | frontend/src/components/InteractiveSession.jsx:12-34 | The new page state is RouteChanged of the old one |
| SessionPoll.InteractiveSessionPage.Show | frontend/src/components/InteractiveSession.jsx:36-58 | Returns Render of the page state: the session view exactly when loading is false and there is no error |
| Dashboard.StatusColor | frontend/src/App.jsx:138-145 | completed is green, failed red, running blue; every other string is yellow (both directions) |
| Dashboard.ResultsQueryEnabled | frontend/src/App.jsx:204-208 | Results are never fetched before the row is loaded as an object |
| Dashboard.Details | frontend/src/App.jsx:220-323 | definition; no contract: loading text, then no analysis, then the interactive view, else the standard view with its panels |
| Dashboard.InteractiveRouting | frontend/src/App.jsx:223-240 | An interactive row goes to VncSession: no restart button, no panels, no results fetch |
| Dashboard.ResultsFetchedIffPanelShown | frontend/src/App.jsx:204-270 | Once loaded, results are fetched exactly when the results panel is shown |
| Dashboard.StatusPanelsExclusive | frontend/src/App.jsx:259-311 | A standard row always has the restart button and at most one status panel |
| Dashboard.HasConnectionInfo | frontend/src/App.jsx:341-349 | definition; no contract: the descriptor is truthy and has a truthy novnc_port |
| Dashboard.VncView | frontend/src/App.jsx:347-377 | The iframe appears exactly when not loading, no error and the descriptor has novnc_port; its addresses come from that descriptor |
| Dashboard.NovncUrl | frontend/src/App.jsx:354 | definition; no contract: the template with the descriptor's host, novnc_port and vnc_password |
| Dashboard.NovncUrlRoundTrip | frontend/src/App.jsx:354 | The noVNC URL is `http://host:port/vnc.html?password=pw&autoconnect=true`, and it reads back to its three parts |
| Dashboard.NumericPortUrl | frontend/src/App.jsx:354 | A numeric novnc_port and a host without ':' give a URL that reads back to them |
| Dashboard.DirectAddress | frontend/src/App.jsx:377 | definition; no contract: `host:vnc_port` from the descriptor |
| Dashboard.DirectAddressRoundTrip | frontend/src/App.jsx:377 | The direct address `host:vnc_port` reads back to its two parts |
| Dashboard.ConnectedAfter | frontend/src/App.jsx:340-344 | definition; no contract: the never-reset flag after a sequence of descriptors |
| Dashboard.ConnectedIffSomeUsable | frontend/src/App.jsx:338-344 | `connected` is true exactly when some descriptor seen so far had novnc_port |
| Dashboard.VncSessionWidget.constructor | frontend/src/App.jsx:338 | `connected` starts false |
| Dashboard.VncSessionWidget.OnDescriptor | frontend/src/App.jsx:340-344 | `connected` becomes true on a usable descriptor and is never reset |
| Dashboard.SubmitDisabled | frontend/src/App.jsx:109 | An enabled submit button always has a file, and the button is disabled while an upload is in flight |
| Dashboard.FileUploader.constructor | frontend/src/App.jsx:60 | No file is selected at first |
| Dashboard.FileUploader.HandleFileChange | frontend/src/App.jsx:74-78 | The first chosen file is kept; an empty choice changes nothing |
| Dashboard.FileUploader.HandleSubmit | frontend/src/App.jsx:80-88 | Nothing is sent without a file, and the selected file is sent otherwise |
| Dashboard.FileUploader.OnUploadSuccess | frontend/src/App.jsx:67-70 | A successful upload clears the file, which disables the button |
| Dashboard.SessionIdAfter | frontend/src/App.jsx:391-394 | definition; no contract: the response's id is kept; a null body throws before the setter |
| Dashboard.ButtonView | frontend/src/App.jsx:397-404 | VncSession for the kept id replaces the button exactly when the id is truthy |
| Dashboard.StartedSessionShown | frontend/src/App.jsx:388-404 | After a session starts with a non-empty id, VncSession is shown for that id |
| Dashboard.StartInteractiveButton.constructor | frontend/src/App.jsx:386 | No session id at first, so the start button is shown |
| Dashboard.StartInteractiveButton.OnStartSuccess | frontend/src/App.jsx:392-394 | The response's id is kept |
| EndToEnd.ClientReply | frontend/src/components/InteractiveSession.jsx:14-16 | Only a 200 answer reaches the page, and it carries the endpoint's body |
| EndToEnd.ClientRow | frontend/src/App.jsx:199-202 | The details query holds the row exactly when get_file answers with it |
| EndToEnd.VncSessionScreen | frontend/src/App.jsx:346-351 | definition; no contract: what VncSession settles on for one VNC answer |
| EndToEnd.VncSessionNeverConnects | backend/main.py:438-456 | Every VNC answer is an error: the session page's request fails and VncSession shows its error text |
| EndToEnd.StartedSessionPageStops | frontend/src/components/InteractiveSession.jsx:13-31 | For a session just started, the VNC endpoint answers 500 and the page stops after one check on the retrieval error |
| EndToEnd.StartButtonLeadsToVncError | frontend/src/App.jsx:385-404 | The start button hands the new id to VncSession, which shows its error text |
| EndToEnd.StartedSessionDetailsMissing | frontend/src/App.jsx:198-221 | The details pane of a session just started gets a 500, shows no analysis and fetches no results |
| EndToEnd.InteractiveRowRouting | frontend/src/App.jsx:204-240 | A served interactive row routes to VncSession and never fetches results |
| EndToEnd.CompletedRowFetchesResults | frontend/src/App.jsx:204-270 | A served completed non-interactive row fetches results, shows only the results panel, and has a green badge |
| EndToEnd.ReadyPayloadWouldPollForever | frontend/src/components/InteractiveSession.jsx:13-45 | The success payload as written has no port and no status: a page fed only that payload keeps its spinner and one armed check for ever |

`BackendService.AnalysisStore.RunAnalysis` and `Backend.RunSpec` follow the
copy as written (`Backend.Prepare`). The corrected run, `Backend.RunSpecFixed`,
uses `Backend.PrepareFixed` and is kept beside it for the finding below.

## Left out

- sqlite connections and SQL text: the table is a map. The start-up `init_db` and the database directory are not modelled.
- `calculate_hashes` (hashlib), `os.path.getsize` and `run_command` (subprocess running file, strings and binwalk): digests, size and tool outputs are inputs (`FileProbe`, `ToolOutputs`). The timeout and `-1` branches of run_command and the binwalk `except` are inside that input.
- `uuid.uuid4()` and `datetime.now()` are parameters. One `now` stands for every clock read of one call, so start_interactive_session's response row carries the same time as the stored row.
- `json.dump` / `json.load` are the abstract `Codec`. The round trip assumes the codec is lossless on the document written. Numbers are integers only.
- The container_info column is kept as the dict whose JSON text it holds. The model records only that such a row is refused when read (`Backend.Readable`); the text itself is not modelled.
- Paths: `os.path.abspath` roots become the relative names "uploads" and "results". Only `join`, `basename` and `exists` are modelled. A copy onto an existing directory is not modelled.
- FastAPI background-task scheduling, CORS, start-up hooks, and the upload, list and health endpoints are not modelled. Restart returns the source it would schedule; it does not run the analysis.
- The container-side `docker/analysis_scripts/analyze.py` is not part of this model.
- React rendering and styling, react-query caching, invalidation, refetch and `retry: 3`, and axios transport are not modelled. A reply is either a body or a failed request. `VncView` takes `isLoading` and `isError` as inputs.
- `Dashboard.StatusPanelsExclusive`: the restart button's own loading state and the results-loading text inside the results panel are not modelled.
- `Json.Member`: it looks up only object members, as every key read here is a member of a JSON object.

## Findings

| source | as written | input that shows it | evidently intended | confidence | as-written member | corrected member |
|---|---|---|---|---|---|---|
| backend/main.py:383-386 | When UPLOAD_DIR/<filename> is gone, restart_analysis passes UPLOAD_DIR/<id>/<filename> to run_analysis, which copies it to UPLOAD_DIR/<id>/<basename> — the same path. shutil.copy2 raises SameFileError and the row ends "failed" | a row whose upload exists only as uploads/<id>/<filename> (the job copy), then POST /files/<id>/restart | the job copy is analysed in place and the run can complete | not executed | Backend.RestartFallbackRunFails | Backend.RestartFallbackRunsFixed |
