/**
 * The analysis-record table of the backend and the read endpoints over it
 * (backend/main.py).
 *
 * The sqlite table `analyses` is a map from analysis id to a Record; the disk is
 * a FileStore of text files and directories. Digests, file sizes, tool outputs,
 * timestamps and the JSON encoder/decoder are inputs. This module holds the
 * values and the pure functions; the class that owns the table and the disk and
 * changes them step by step is in backend_service.dfy.
 */
module Backend {
  import opened Json

  // Directory roots (the source makes them absolute against its working directory).
  const UploadDir: string := "uploads"
  const ResultsDir: string := "results"

  // Statuses written by the backend.
  const Pending: string := "pending"
  const Running: string := "running"
  const Completed: string := "completed"
  const Failed: string := "failed"

  // Analysis types.
  const Auto: string := "auto"
  const Interactive: string := "interactive"

  /** Name of the marker file whose text names the result file. */
  const MarkerName: string := "completed"

  const InteractiveFilename: string := "Session interactive (simplifiée)"
  const InteractiveInfoMessage: string := "Mode interactif non disponible dans cette version simplifiée"
  const NoContainer: string := "none"

  // Texts of the HTTP errors and messages of the read endpoints.
  const AnalysisNotFound: string := "Analyse non trouvée"
  const ResultDirNotFound: string := "Répertoire de résultats non trouvé"
  const FileToAnalyseNotFound: string := "Fichier à analyser non trouvé"
  const NotFinishedMessage: string := "L'analyse n'est pas encore terminée."
  const MarkerMissingMessage: string := "Fichier de complétion non trouvé."
  const ResultFileMissingMessage: string := "Fichier de résultats non trouvé."
  const SessionNotFound: string := "Session non trouvée"
  const NotInteractiveDetail: string := "Cette analyse n'est pas une session interactive"
  const NoConnectionDetail: string := "Aucune information de connexion disponible"
  const VncMessage: string := "Mode interactif simplifié dans cette version"
  /** The plain-text body of an uncaught exception (HTTP 500). */
  const InternalServerErrorText: string := "Internal Server Error"

  /**
   * One row of the `analyses` table, keyed by its id. `containerInfo` is the dict
   * whose json.dumps text the column holds: in sqlite any present value is text.
   */
  datatype Record = Record(
    filename: string,
    status: string,
    uploadTime: string,
    completionTime: Option<string>,
    containerId: Option<string>,
    fileHash: Option<string>,
    containerInfo: Option<map<string, Value>>,
    analysisType: string)

  type Table = map<string, Record>

  /** The columns of a row other than its id. */
  datatype Column =
    | FilenameCol | StatusCol | UploadTimeCol | CompletionTimeCol
    | ContainerIdCol | FileHashCol | ContainerInfoCol | AnalysisTypeCol

  function OptText(o: Option<string>): Value
  {
    if o.Some? then Str(o.value) else Null
  }

  /** The value of one column, as the row is serialised to the client. */
  function Cell(r: Record, c: Column): Value
  {
    match c
    case FilenameCol => Str(r.filename)
    case StatusCol => Str(r.status)
    case UploadTimeCol => Str(r.uploadTime)
    case CompletionTimeCol => OptText(r.completionTime)
    case ContainerIdCol => OptText(r.containerId)
    case FileHashCol => OptText(r.fileHash)
    case ContainerInfoCol => if r.containerInfo.Some? then Object(r.containerInfo.value) else Null
    case AnalysisTypeCol => Str(r.analysisType)
  }

  /** Row `b` agrees with row `a` on every column outside `cols`. */
  predicate ChangesOnly(a: Record, b: Record, cols: set<Column>)
  {
    forall c: Column :: c !in cols ==> Cell(a, c) == Cell(b, c)
  }

  /** The JSON object the API sends for a row (the FileAnalysis response model). */
  function RecordJson(id: string, r: Record): Value
  {
    Object(map[
      "id" := Str(id),
      "filename" := Cell(r, FilenameCol),
      "status" := Cell(r, StatusCol),
      "upload_time" := Cell(r, UploadTimeCol),
      "completion_time" := Cell(r, CompletionTimeCol),
      "container_id" := Cell(r, ContainerIdCol),
      "file_hash" := Cell(r, FileHashCol),
      "container_info" := Cell(r, ContainerInfoCol),
      "analysis_type" := Cell(r, AnalysisTypeCol)])
  }

  predicate IsTerminal(status: string)
  {
    status == Completed || status == Failed
  }

  /** What every operation keeps: a row with a terminal status has a completion time. */
  predicate TableValid(t: Table)
  {
    forall id :: id in t && IsTerminal(t[id].status) ==> t[id].completionTime.Some?
  }

  // ---------------------------------------------------------------------------
  // Writes to the table (save_analysis and the update_* helpers)
  // ---------------------------------------------------------------------------

  /** The row save_analysis inserts. */
  function NewRow(filename: string, analysisType: string, now: string): Record
  {
    Record(filename, Pending, now, None, None, None, None, analysisType)
  }

  /** INSERT of a new row; None when the id is already a primary key (sqlite raises). */
  function Insert(t: Table, id: string, filename: string, analysisType: string, now: string): (r: Option<Table>)
    ensures r.None? <==> id in t
    ensures r.Some? ==> r.value.Keys == t.Keys + {id}
    ensures r.Some? ==> forall k :: k in t ==> r.value[k] == t[k]
    ensures r.Some? ==> var row := r.value[id];
      row.status == Pending && row.analysisType == analysisType && row.filename == filename
      && row.completionTime.None? && row.containerId.None? && row.fileHash.None? && row.containerInfo.None?
    ensures r.Some? && TableValid(t) ==> TableValid(r.value)
  {
    if id in t then None else Some(t[id := NewRow(filename, analysisType, now)])
  }

  /** UPDATE of the status; a terminal status also stamps the completion time. */
  function SetStatus(t: Table, id: string, status: string, now: string): (t': Table)
    ensures t'.Keys == t.Keys
    ensures forall k :: k in t && k != id ==> t'[k] == t[k]
    ensures id in t ==> t'[id].status == status
    ensures id in t && IsTerminal(status) ==>
      t'[id].completionTime == Some(now) && ChangesOnly(t[id], t'[id], {StatusCol, CompletionTimeCol})
    ensures id in t && !IsTerminal(status) ==> ChangesOnly(t[id], t'[id], {StatusCol})
    ensures TableValid(t) ==> TableValid(t')
  {
    if id !in t then t
    else if IsTerminal(status) then t[id := t[id].(status := status, completionTime := Some(now))]
    else t[id := t[id].(status := status)]
  }

  function SetContainerId(t: Table, id: string, containerId: string): (t': Table)
    ensures t'.Keys == t.Keys
    ensures forall k :: k in t && k != id ==> t'[k] == t[k]
    ensures id in t ==> t'[id].containerId == Some(containerId) && ChangesOnly(t[id], t'[id], {ContainerIdCol})
    ensures TableValid(t) ==> TableValid(t')
  {
    if id !in t then t else t[id := t[id].(containerId := Some(containerId))]
  }

  function SetFileHash(t: Table, id: string, hash: string): (t': Table)
    ensures t'.Keys == t.Keys
    ensures forall k :: k in t && k != id ==> t'[k] == t[k]
    ensures id in t ==> t'[id].fileHash == Some(hash) && ChangesOnly(t[id], t'[id], {FileHashCol})
    ensures TableValid(t) ==> TableValid(t')
  {
    if id !in t then t else t[id := t[id].(fileHash := Some(hash))]
  }

  function SetContainerInfo(t: Table, id: string, containerId: string, info: map<string, Value>): (t': Table)
    ensures t'.Keys == t.Keys
    ensures forall k :: k in t && k != id ==> t'[k] == t[k]
    ensures id in t ==>
      t'[id].containerId == Some(containerId) && t'[id].containerInfo == Some(info)
      && ChangesOnly(t[id], t'[id], {ContainerIdCol, ContainerInfoCol})
    ensures TableValid(t) ==> TableValid(t')
  {
    if id !in t then t else t[id := t[id].(containerId := Some(containerId), containerInfo := Some(info))]
  }

  /** What get_analysis yields: no row, a row the response model refuses, or the validated row. */
  datatype Lookup = Missing | Unreadable | Found(row: Record)

  /**
   * Whether FileAnalysis(**row) accepts a row: its container_info field is a
   * dict, and pydantic refuses the JSON text the column holds once
   * update_container_info has written it.
   */
  predicate Readable(r: Record)
  {
    r.containerInfo.None?
  }

  /** SELECT of one row by primary key, then validation into FileAnalysis (a ValidationError propagates). */
  function GetAnalysis(t: Table, id: string): (r: Lookup)
    ensures r == Missing <==> id !in t
    ensures r == Unreadable <==> id in t && !Readable(t[id])
    ensures r.Found? ==> id in t && r.row == t[id] && Readable(r.row)
  {
    if id !in t then Missing
    else if !Readable(t[id]) then Unreadable
    else Found(t[id])
  }

  datatype FileResponse = FileNotFound | FileServerError | FileFound(body: Value)

  /** GET /files/{id}: 404 for an unknown id, 500 for a row the response model refuses, else the row. */
  function GetFile(t: Table, id: string): (r: FileResponse)
    ensures r == FileNotFound <==> id !in t
    ensures r == FileServerError <==> id in t && !Readable(t[id])
    ensures r.FileFound? ==> id in t && r.body == RecordJson(id, t[id]) && Member(r.body, "container_info") == Some(Null)
  {
    match GetAnalysis(t, id)
    case Missing => FileNotFound
    case Unreadable => FileServerError
    case Found(row) => FileFound(RecordJson(id, row))
  }

  // ---------------------------------------------------------------------------
  // Paths and the file store
  // ---------------------------------------------------------------------------

  /** os.path.join of two components. */
  function Join(dir: string, name: string): string
  {
    if |name| > 0 && name[0] == '/' then name
    else if dir == [] then name
    else if dir[|dir| - 1] == '/' then dir + name
    else dir + "/" + name
  }

  /** os.path.basename: the text after the last '/'. */
  function Basename(p: string): (b: string)
    ensures '/' !in b
  {
    if p == [] then []
    else if p[|p| - 1] == '/' then []
    else Basename(p[..|p| - 1]) + [p[|p| - 1]]
  }

  lemma {:induction false} BasenameOfJoin(dir: string, name: string)
    requires dir != [] && dir[|dir| - 1] != '/'
    requires '/' !in name
    ensures Join(dir, name) == dir + "/" + name
    ensures Basename(Join(dir, name)) == name
  {
    if name == [] {
      assert Join(dir, name) == dir + "/";
    } else {
      var init := name[..|name| - 1];
      assert name == init + [name[|name| - 1]];
      BasenameOfJoin(dir, init);
      assert Join(dir, name)[..|Join(dir, name)| - 1] == Join(dir, init);
    }
  }

  function JobUploadDir(id: string): string { Join(UploadDir, id) }
  function JobResultsDir(id: string): string { Join(ResultsDir, id) }

  /** Text files and directories, by path. */
  datatype FileStore = FileStore(files: map<string, string>, dirs: set<string>)

  /** os.path.exists. */
  predicate Exists(fs: FileStore, p: string)
  {
    p in fs.files || p in fs.dirs
  }

  /** The disk after a file operation, and whether the operation went through. */
  datatype Step = Step(fs: FileStore, ok: bool)

  /** os.makedirs(p, exist_ok=True): fails only when p exists as a file. */
  function MakeDirs(fs: FileStore, p: string): Step
  {
    if p in fs.files then Step(fs, false) else Step(fs.(dirs := fs.dirs + {p}), true)
  }

  /** shutil.copy2: fails when the source is not a file or is the target itself (SameFileError). */
  function Copy2(fs: FileStore, src: string, dst: string): Step
  {
    if src !in fs.files || src == dst then Step(fs, false)
    else Step(fs.(files := fs.files[dst := fs.files[src]]), true)
  }

  /** open(p, 'w').write(text): fails when p is a directory. */
  function WriteText(fs: FileStore, p: string, text: string): (r: Option<FileStore>)
    ensures r.None? <==> p in fs.dirs
  {
    if p in fs.dirs then None else Some(fs.(files := fs.files[p := text]))
  }

  /** Creates both job directories (upload first, then results). */
  function CreateJobDirs(fs: FileStore, id: string): Step
  {
    var up := MakeDirs(fs, JobUploadDir(id));
    if !up.ok then up else MakeDirs(up.fs, JobResultsDir(id))
  }

  /** Where run_analysis copies the file it is given. */
  function CopyTarget(id: string, src: string): string
  {
    Join(JobUploadDir(id), Basename(src))
  }

  /** The preparation steps of run_analysis AS WRITTEN: job directories, then the copy. */
  function Prepare(fs: FileStore, id: string, src: string): (r: Step)
    ensures r.ok <==>
      JobUploadDir(id) !in fs.files && JobResultsDir(id) !in fs.files && src in fs.files && src != CopyTarget(id, src)
    ensures r.ok ==>
      r.fs.dirs == fs.dirs + {JobUploadDir(id), JobResultsDir(id)}
      && r.fs.files == fs.files[CopyTarget(id, src) := fs.files[src]]
  {
    var dirs := CreateJobDirs(fs, id);
    if !dirs.ok then dirs else Copy2(dirs.fs, src, CopyTarget(id, src))
  }

  /** The preparation steps as evidently intended: a file already at its target is not copied. */
  function PrepareFixed(fs: FileStore, id: string, src: string): (r: Step)
    ensures r.ok <==> Prepare(fs, id, src).ok || (CreateJobDirs(fs, id).ok && src in fs.files && src == CopyTarget(id, src))
    ensures r.ok <==> JobUploadDir(id) !in fs.files && JobResultsDir(id) !in fs.files && src in fs.files
    ensures r.fs.dirs <= fs.dirs + {JobUploadDir(id), JobResultsDir(id)}
    ensures r.ok ==> r.fs.dirs == fs.dirs + {JobUploadDir(id), JobResultsDir(id)}
  {
    var dirs := CreateJobDirs(fs, id);
    if !dirs.ok then dirs
    else if src == CopyTarget(id, src) && src in dirs.fs.files then dirs
    else Copy2(dirs.fs, src, CopyTarget(id, src))
  }

  // ---------------------------------------------------------------------------
  // What run_analysis writes
  // ---------------------------------------------------------------------------

  /** What hashlib and os.path.getsize report for the copied file. */
  datatype FileProbe = FileProbe(size: nat, md5: string, sha1: string, sha256: string)

  /** What run_command returns for one tool. */
  datatype CommandResult = CommandResult(stdout: string, stderr: string, returncode: int)

  datatype ToolOutputs = ToolOutputs(file: CommandResult, strings: CommandResult, binwalk: CommandResult)

  datatype Tool = FileTool | StringsTool | BinwalkTool

  /** The observable steps of the backend, in order: status writes and tool runs. */
  datatype Event = StatusWritten(id: string, status: string) | ToolRan(tool: Tool)

  /** json.dump and json.load, left abstract. */
  datatype Codec = Codec(dump: Value -> string, load: string -> Option<Value>)

  predicate Lossless(codec: Codec, v: Value)
  {
    codec.load(codec.dump(v)) == Some(v)
  }

  function CommandJson(c: CommandResult): Value
  {
    Object(map["stdout" := Str(c.stdout), "stderr" := Str(c.stderr), "returncode" := Number(c.returncode)])
  }

  function MetadataJson(filename: string, probe: FileProbe, now: string): Value
  {
    Object(map[
      "filename" := Str(filename),
      "filesize" := Number(probe.size),
      "hashes" := Object(map["md5" := Str(probe.md5), "sha1" := Str(probe.sha1), "sha256" := Str(probe.sha256)]),
      "analysis_timestamp" := Str(now)])
  }

  function ToolsJson(tools: ToolOutputs): Value
  {
    Object(map["file" := CommandJson(tools.file), "strings" := CommandJson(tools.strings), "binwalk" := CommandJson(tools.binwalk)])
  }

  function ResultDocument(filename: string, probe: FileProbe, tools: ToolOutputs, now: string): Value
  {
    Object(map["metadata" := MetadataJson(filename, probe, now), "tools" := ToolsJson(tools)])
  }

  /** `<sha256>.json`, the name of the result file and the text of the marker. */
  function ResultName(sha256: string): string
  {
    sha256 + ".json"
  }

  predicate IsHexDigest(s: string)
  {
    |s| == 64 && forall i :: 0 <= i < |s| ==> IsDigit(s[i]) || 'a' <= s[i] <= 'f'
  }

  datatype RunStep = PrepareStep | WriteResultStep | WriteMarkerStep

  /** The value run_analysis returns: success, or the step whose exception was caught. */
  datatype RunResult = Succeeded | FailedAt(step: RunStep)

  datatype RunOutcome = RunOutcome(table: Table, fs: FileStore, result: RunResult, events: seq<Event>)

  /** run_analysis once its preparation (job directories and copy) has produced `prep`. */
  function RunFrom(t: Table, prep: Step, id: string, src: string, probe: FileProbe,
                   tools: ToolOutputs, now: string, codec: Codec): RunOutcome
  {
    if !prep.ok then
      RunOutcome(SetStatus(t, id, Failed, now), prep.fs, FailedAt(PrepareStep), [StatusWritten(id, Failed)])
    else
      var t1 := SetStatus(t, id, Running, now);
      var ran := [StatusWritten(id, Running), ToolRan(FileTool), ToolRan(StringsTool), ToolRan(BinwalkTool)];
      var doc := ResultDocument(Basename(src), probe, tools, now);
      var dir := JobResultsDir(id);
      match WriteText(prep.fs, Join(dir, ResultName(probe.sha256)), codec.dump(doc))
      case None =>
        RunOutcome(SetStatus(t1, id, Failed, now), prep.fs, FailedAt(WriteResultStep), ran + [StatusWritten(id, Failed)])
      case Some(fs2) =>
        var t2 := SetFileHash(t1, id, probe.sha256);
        match WriteText(fs2, Join(dir, MarkerName), ResultName(probe.sha256))
        case None =>
          RunOutcome(SetStatus(t2, id, Failed, now), fs2, FailedAt(WriteMarkerStep), ran + [StatusWritten(id, Failed)])
        case Some(fs3) =>
          RunOutcome(SetStatus(t2, id, Completed, now), fs3, Succeeded, ran + [StatusWritten(id, Completed)])
  }

  /** run_analysis(id, src) as written: its effect on the table and the disk, its result and its steps. */
  function RunSpec(t: Table, fs: FileStore, id: string, src: string, probe: FileProbe,
                   tools: ToolOutputs, now: string, codec: Codec): RunOutcome
  {
    RunFrom(t, Prepare(fs, id, src), id, src, probe, tools, now, codec)
  }

  /** run_analysis with the corrected preparation step. */
  function RunSpecFixed(t: Table, fs: FileStore, id: string, src: string, probe: FileProbe,
                        tools: ToolOutputs, now: string, codec: Codec): RunOutcome
  {
    RunFrom(t, PrepareFixed(fs, id, src), id, src, probe, tools, now, codec)
  }

  /** How run_analysis leaves the table: the analysed row ends "completed" with its digest, or "failed". */
  lemma RunEndsTerminal(t: Table, fs: FileStore, id: string, src: string, probe: FileProbe,
                        tools: ToolOutputs, now: string, codec: Codec)
    ensures var o := RunSpec(t, fs, id, src, probe, tools, now, codec);
      && o.table.Keys == t.Keys
      && (forall k :: k in t && k != id ==> o.table[k] == t[k])
      && (TableValid(t) ==> TableValid(o.table))
      && (id in t && o.result == Succeeded ==>
            o.table[id].status == Completed && o.table[id].fileHash == Some(probe.sha256)
            && o.table[id].completionTime == Some(now)
            && ChangesOnly(t[id], o.table[id], {StatusCol, CompletionTimeCol, FileHashCol}))
      && (id in t && o.result.FailedAt? ==> o.table[id].status == Failed && o.table[id].completionTime == Some(now))
      && (o.result == FailedAt(PrepareStep) <==> !Prepare(fs, id, src).ok)
  {
  }

  /** The steps of run_analysis in order: "running" comes before every tool, and exactly one terminal status ends the run. */
  lemma RunStepOrder(t: Table, fs: FileStore, id: string, src: string, probe: FileProbe,
                     tools: ToolOutputs, now: string, codec: Codec)
    ensures var o := RunSpec(t, fs, id, src, probe, tools, now, codec);
      && (o.result == FailedAt(PrepareStep) ==> o.events == [StatusWritten(id, Failed)])
      && (o.result != FailedAt(PrepareStep) ==>
            |o.events| == 5
            && o.events[..4] == [StatusWritten(id, Running), ToolRan(FileTool), ToolRan(StringsTool), ToolRan(BinwalkTool)]
            && o.events[4] == StatusWritten(id, if o.result == Succeeded then Completed else Failed))
  {
  }

  // ---------------------------------------------------------------------------
  // GET /files/{id}/results
  // ---------------------------------------------------------------------------

  /** str.isspace, the characters str.strip removes. */
  predicate IsSpace(c: char)
  {
    c == ' ' || '\t' <= c <= '\r' || '\U{1c}' <= c <= '\U{1f}' || c == '\U{85}' || c == '\U{a0}'
    || c == '\U{1680}' || '\U{2000}' <= c <= '\U{200a}' || c == '\U{2028}' || c == '\U{2029}'
    || c == '\U{202f}' || c == '\U{205f}' || c == '\U{3000}'
  }

  function TrimStart(s: string): string
  {
    if |s| > 0 && IsSpace(s[0]) then TrimStart(s[1..]) else s
  }

  function TrimEnd(s: string): string
  {
    if |s| > 0 && IsSpace(s[|s| - 1]) then TrimEnd(s[..|s| - 1]) else s
  }

  /** str.strip(). */
  function Strip(s: string): string
  {
    TrimEnd(TrimStart(s))
  }

  datatype ResultsResponse =
    | ResultsNotFound(detail: string)                                   // HTTP 404
    | NotFinished(analysisId: string, status: string, message: string)
    | ResultsError(analysisId: string, message: string)                 // body status "error"
    | ResultsReady(analysisId: string, metadata: Value, toolsResults: Value)  // body status "completed"
    | ServerError                                                       // uncaught exception: HTTP 500

  /** The value of `d.get(key, {})`. */
  function GetOrEmpty(fields: map<string, Value>, key: string): Value
  {
    if key in fields then fields[key] else Object(map[])
  }

  /** The ordered guard chain of get_results over a snapshot of the table and the disk. */
  function GetResults(t: Table, fs: FileStore, id: string, codec: Codec): (r: ResultsResponse)
    ensures r == ResultsNotFound(AnalysisNotFound) <==> id !in t
    ensures id in t && !Readable(t[id]) ==> r == ServerError
    ensures r.NotFinished? <==> id in t && Readable(t[id]) && t[id].status != Completed
    ensures r.NotFinished? ==> r == NotFinished(id, t[id].status, NotFinishedMessage)
    ensures r == ResultsNotFound(ResultDirNotFound) <==>
      id in t && Readable(t[id]) && t[id].status == Completed && !Exists(fs, JobResultsDir(id))
    ensures r == ResultsError(id, MarkerMissingMessage) <==>
      id in t && Readable(t[id]) && t[id].status == Completed && Exists(fs, JobResultsDir(id))
      && !Exists(fs, Join(JobResultsDir(id), MarkerName))
    ensures r == ResultsError(id, ResultFileMissingMessage) <==>
      id in t && Readable(t[id]) && t[id].status == Completed && Exists(fs, JobResultsDir(id))
      && Join(JobResultsDir(id), MarkerName) in fs.files
      && Strip(fs.files[Join(JobResultsDir(id), MarkerName)]) != []
      && !Exists(fs, Join(JobResultsDir(id), Strip(fs.files[Join(JobResultsDir(id), MarkerName)])))
    ensures r.ResultsError? ==> r.analysisId == id
    ensures r.ResultsReady? ==>
      r.analysisId == id && id in t && Readable(t[id]) && t[id].status == Completed
      && Join(JobResultsDir(id), MarkerName) in fs.files
      && ResultPath(fs, id) in fs.files
      && codec.load(fs.files[ResultPath(fs, id)]).Some?
      && codec.load(fs.files[ResultPath(fs, id)]).value.Object?
      && r.metadata == GetOrEmpty(codec.load(fs.files[ResultPath(fs, id)]).value.fields, "metadata")
      && r.toolsResults == GetOrEmpty(codec.load(fs.files[ResultPath(fs, id)]).value.fields, "tools")
  {
    match GetAnalysis(t, id)
    case Missing => ResultsNotFound(AnalysisNotFound)
    case Unreadable => ServerError                          // get_analysis raises
    case Found(row) =>
      if row.status != Completed then NotFinished(id, row.status, NotFinishedMessage)
      else
        var dir := JobResultsDir(id);
        var marker := Join(dir, MarkerName);
        if !Exists(fs, dir) then ResultsNotFound(ResultDirNotFound)
        else if !Exists(fs, marker) then ResultsError(id, MarkerMissingMessage)
        else if marker !in fs.files then ServerError        // open() of a directory raises
        else
          var name := Strip(fs.files[marker]);
          var path := Join(dir, name);
          if name == [] then ServerError                    // the path is the directory itself
          else if !Exists(fs, path) then ResultsError(id, ResultFileMissingMessage)
          else if path !in fs.files then ServerError
          else match codec.load(fs.files[path])
            case None => ServerError                        // json.load raises
            case Some(doc) =>
              if !doc.Object? then ServerError              // results.get raises
              else ResultsReady(id, GetOrEmpty(doc.fields, "metadata"), GetOrEmpty(doc.fields, "tools"))
  }

  /** The path the marker of analysis `id` names (meaningful when the marker is a file). */
  function ResultPath(fs: FileStore, id: string): string
  {
    var marker := Join(JobResultsDir(id), MarkerName);
    if marker in fs.files then Join(JobResultsDir(id), Strip(fs.files[marker])) else marker
  }

  lemma StripUntrimmed(s: string)
    requires |s| > 0 && !IsSpace(s[0]) && !IsSpace(s[|s| - 1])
    ensures Strip(s) == s
  {
  }

  lemma JoinDistinct(dir: string, a: string, b: string)
    requires |a| > 0 && a[0] != '/' && |b| > 0 && b[0] != '/' && |a| != |b|
    ensures Join(dir, a) != Join(dir, b)
  {
    assert |Join(dir, a)| - |Join(dir, b)| == |a| - |b|;
  }

  /** get_results follows a marker naming `<sha256>.json` to the document stored there. */
  lemma ResultsFollowMarker(t: Table, fs: FileStore, id: string, sha256: string, doc: Value, codec: Codec)
    requires id in t && Readable(t[id]) && t[id].status == Completed
    requires IsHexDigest(sha256) && doc.Object? && Lossless(codec, doc)
    requires JobResultsDir(id) in fs.dirs
    requires Join(JobResultsDir(id), MarkerName) in fs.files
    requires fs.files[Join(JobResultsDir(id), MarkerName)] == ResultName(sha256)
    requires Join(JobResultsDir(id), ResultName(sha256)) in fs.files
    requires fs.files[Join(JobResultsDir(id), ResultName(sha256))] == codec.dump(doc)
    ensures GetResults(t, fs, id, codec) ==
      ResultsReady(id, GetOrEmpty(doc.fields, "metadata"), GetOrEmpty(doc.fields, "tools"))
  {
    var name := ResultName(sha256);
    assert name[0] == sha256[0] && name[|name| - 1] == 'n';
    StripUntrimmed(name);
  }

  /** The disk after a successful run_analysis: the result file, then the marker naming it. */
  lemma RunSuccessDisk(t: Table, fs: FileStore, id: string, src: string, probe: FileProbe,
                       tools: ToolOutputs, now: string, codec: Codec)
    requires IsHexDigest(probe.sha256)
    ensures var o := RunSpec(t, fs, id, src, probe, tools, now, codec);
      var dir := JobResultsDir(id);
      o.result == Succeeded ==>
        && dir in o.fs.dirs
        && Join(dir, MarkerName) in o.fs.files
        && o.fs.files[Join(dir, MarkerName)] == ResultName(probe.sha256)
        && Join(dir, ResultName(probe.sha256)) in o.fs.files
        && o.fs.files[Join(dir, ResultName(probe.sha256))] == codec.dump(ResultDocument(Basename(src), probe, tools, now))
  {
    var dir := JobResultsDir(id);
    var name := ResultName(probe.sha256);
    assert name[0] == probe.sha256[0];
    JoinDistinct(dir, name, MarkerName);
  }

  /**
   * The write/read round trip: after a successful run_analysis the marker names
   * `<sha256>.json`, and get_results follows it back to the document written,
   * answering "completed" with its metadata and tool outputs. A row carrying
   * container info is refused by get_analysis before the disk is read.
   */
  lemma {:induction false} RunThenResults(t: Table, fs: FileStore, id: string, src: string, probe: FileProbe,
                                          tools: ToolOutputs, now: string, codec: Codec)
    requires id in t
    requires IsHexDigest(probe.sha256)
    requires Lossless(codec, ResultDocument(Basename(src), probe, tools, now))
    ensures var o := RunSpec(t, fs, id, src, probe, tools, now, codec);
      o.result == Succeeded ==>
        GetResults(o.table, o.fs, id, codec) ==
          if Readable(t[id]) then ResultsReady(id, MetadataJson(Basename(src), probe, now), ToolsJson(tools))
          else ServerError
  {
    var o := RunSpec(t, fs, id, src, probe, tools, now, codec);
    if o.result == Succeeded {
      RunEndsTerminal(t, fs, id, src, probe, tools, now, codec);
      assert Cell(t[id], ContainerInfoCol) == Cell(o.table[id], ContainerInfoCol);
      if Readable(t[id]) {
        RunSuccessDisk(t, fs, id, src, probe, tools, now, codec);
        var doc := ResultDocument(Basename(src), probe, tools, now);
        ResultsFollowMarker(o.table, o.fs, id, probe.sha256, doc, codec);
      }
    }
  }

  /** While an analysis is not completed, get_results does not look at the disk. */
  lemma UnfinishedIgnoresDisk(t: Table, fs1: FileStore, fs2: FileStore, id: string, c1: Codec, c2: Codec)
    requires id in t && t[id].status != Completed
    ensures GetResults(t, fs1, id, c1) == GetResults(t, fs2, id, c2)
    ensures Readable(t[id]) ==> GetResults(t, fs1, id, c1) == NotFinished(id, t[id].status, NotFinishedMessage)
  {
  }

  // ---------------------------------------------------------------------------
  // POST /files/{id}/restart
  // ---------------------------------------------------------------------------

  /** Which file restart_analysis hands to run_analysis for the row of `id`: the original upload, else the job copy. */
  function RestartSource(t: Table, fs: FileStore, id: string): (src: Option<string>)
    ensures src.None? <==>
      id !in t || (!Exists(fs, Join(UploadDir, t[id].filename)) && !Exists(fs, Join(JobUploadDir(id), t[id].filename)))
    ensures id in t && Exists(fs, Join(UploadDir, t[id].filename)) ==> src == Some(Join(UploadDir, t[id].filename))
    ensures id in t && !Exists(fs, Join(UploadDir, t[id].filename)) && src.Some? ==>
      src == Some(Join(JobUploadDir(id), t[id].filename))
  {
    if id !in t then None
    else
      var row := t[id];
      var primary := Join(UploadDir, row.filename);
      if Exists(fs, primary) then Some(primary)
      else
        var fallback := Join(JobUploadDir(id), row.filename);
        if Exists(fs, fallback) then Some(fallback) else None
  }

  /**
   * As written, restarting from the job copy always fails: the fallback source
   * UPLOAD_DIR/<id>/<filename> is exactly where run_analysis copies its input,
   * so shutil.copy2 raises SameFileError and the analysis ends "failed".
   */
  lemma RestartFallbackFailsAsWritten(t: Table, fs: FileStore, id: string)
    requires id in t && id != [] && '/' !in id && '/' !in t[id].filename
    requires !Exists(fs, Join(UploadDir, t[id].filename))
    requires Exists(fs, Join(JobUploadDir(id), t[id].filename))
    ensures RestartSource(t, fs, id) == Some(Join(JobUploadDir(id), t[id].filename))
    ensures !Prepare(fs, id, Join(JobUploadDir(id), t[id].filename)).ok
  {
    var name := t[id].filename;
    assert JobUploadDir(id) == UploadDir + "/" + id;
    BasenameOfJoin(JobUploadDir(id), name);
    assert CopyTarget(id, Join(JobUploadDir(id), name)) == Join(JobUploadDir(id), name);
  }

  /** With the fix, whatever file restart_analysis finds is a file run_analysis can prepare. */
  lemma RestartSourcePreparesFixed(t: Table, fs: FileStore, id: string)
    requires RestartSource(t, fs, id).Some? && RestartSource(t, fs, id).value in fs.files
    requires JobUploadDir(id) !in fs.files && JobResultsDir(id) !in fs.files
    ensures PrepareFixed(fs, id, RestartSource(t, fs, id).value).ok
  {
  }

  /** Where the as-written copy goes through, the corrected run is the very same run. */
  lemma FixedRunAgrees(t: Table, fs: FileStore, id: string, src: string, probe: FileProbe,
                       tools: ToolOutputs, now: string, codec: Codec)
    requires Prepare(fs, id, src).ok
    ensures PrepareFixed(fs, id, src) == Prepare(fs, id, src)
    ensures RunSpecFixed(t, fs, id, src, probe, tools, now, codec) == RunSpec(t, fs, id, src, probe, tools, now, codec)
  {
  }

  /**
   * As written, run_analysis on restart's fallback source fails at the copy:
   * the row ends "failed" and "running" is never written.
   */
  lemma RestartFallbackRunFails(t: Table, fs: FileStore, id: string, probe: FileProbe,
                                tools: ToolOutputs, now: string, codec: Codec)
    requires id in t && id != [] && '/' !in id && '/' !in t[id].filename
    requires !Exists(fs, Join(UploadDir, t[id].filename))
    requires Exists(fs, Join(JobUploadDir(id), t[id].filename))
    ensures var o := RunSpec(t, fs, id, RestartSource(t, fs, id).value, probe, tools, now, codec);
      o.result == FailedAt(PrepareStep) && o.table[id].status == Failed && o.events == [StatusWritten(id, Failed)]
  {
    RestartFallbackFailsAsWritten(t, fs, id);
  }

  /** With the fix, run_analysis on restart's fallback source gets past preparation and runs the tools. */
  lemma RestartFallbackRunsFixed(t: Table, fs: FileStore, id: string, probe: FileProbe,
                                 tools: ToolOutputs, now: string, codec: Codec)
    requires id in t
    requires !Exists(fs, Join(UploadDir, t[id].filename))
    requires Join(JobUploadDir(id), t[id].filename) in fs.files
    requires JobUploadDir(id) !in fs.files && JobResultsDir(id) !in fs.files
    ensures var o := RunSpecFixed(t, fs, id, RestartSource(t, fs, id).value, probe, tools, now, codec);
      o.result != FailedAt(PrepareStep) && o.events[..2] == [StatusWritten(id, Running), ToolRan(FileTool)]
  {
    RestartSourcePreparesFixed(t, fs, id);
  }

  datatype RestartResponse =
    | RestartNotFound(detail: string)                 // HTTP 404
    | RestartServerError                              // get_analysis raises: HTTP 500
    | Restarted(record: Record, source: string)

  // ---------------------------------------------------------------------------
  // POST /interactive and GET /files/{id}/vnc
  // ---------------------------------------------------------------------------

  function InteractiveInfo(): map<string, Value>
  {
    map["message" := Str(InteractiveInfoMessage)]
  }

  /** The row an interactive session ends up with once its three writes are done. */
  function SessionRow(now: string): Record
  {
    Record(InteractiveFilename, Completed, now, Some(now), Some(NoContainer), None, Some(InteractiveInfo()), Interactive)
  }

  /** The three writes of start_interactive_session: insert, container info, status "completed". */
  function StartSession(t: Table, id: string, now: string): (r: Option<Table>)
    ensures r.None? <==> id in t
    ensures r.Some? ==> r.value == t[id := SessionRow(now)]
    ensures r.Some? && TableValid(t) ==> TableValid(r.value)
  {
    match Insert(t, id, InteractiveFilename, Interactive, now)
    case None => None
    case Some(t1) => Some(SetStatus(SetContainerInfo(t1, id, NoContainer, InteractiveInfo()), id, Completed, now))
  }

  datatype SessionResponse = SessionStarted(id: string, record: Record) | SessionFailed  // SessionFailed: HTTP 500

  datatype VncResponse =
    | VncNotFound                                  // HTTP 404
    | NotInteractive                               // HTTP 400
    | NoConnectionInfo                             // HTTP 400
    | VncServerError                               // get_analysis raises: HTTP 500
    | VncReady(sessionId: string, message: string)

  function HttpStatus(r: VncResponse): nat
  {
    match r
    case VncNotFound => 404
    case VncServerError => 500
    case NotInteractive => 400
    case NoConnectionInfo => 400
    case VncReady(_, _) => 200
  }

  /** The JSON body get_vnc_info answers with (FastAPI's `{"detail": ...}` for an HTTPException). */
  function VncBody(r: VncResponse): Value
  {
    match r
    case VncNotFound => Object(map["detail" := Str(SessionNotFound)])
    case NotInteractive => Object(map["detail" := Str(NotInteractiveDetail)])
    case NoConnectionInfo => Object(map["detail" := Str(NoConnectionDetail)])
    case VncServerError => Str(InternalServerErrorText)
    case VncReady(sid, msg) => Object(map["session_id" := Str(sid), "message" := Str(msg)])
  }

  /** `not analysis.container_info`: missing or an empty dict. */
  predicate HasContainerInfo(row: Record)
  {
    row.containerInfo.Some? && row.containerInfo.value != map[]
  }

  /** The success payload as written: only the session id and a message, no status and no ports. */
  lemma VncReadyPayload(sessionId: string, message: string)
    ensures VncBody(VncReady(sessionId, message)).fields.Keys == {"session_id", "message"}
    ensures HttpStatus(VncReady(sessionId, message)) == 200
  {
  }

  /**
   * The ordered guard chain of get_vnc_info. A row that passes get_analysis has
   * no container info, so the `not container_info` guard always answers 400 and
   * the success branch is never reached.
   */
  function GetVncInfo(t: Table, id: string): (r: VncResponse)
    ensures r == VncNotFound <==> id !in t
    ensures r == VncServerError <==> id in t && !Readable(t[id])
    ensures r == NotInteractive <==> id in t && Readable(t[id]) && t[id].analysisType != Interactive
    ensures r == NoConnectionInfo <==> id in t && Readable(t[id]) && t[id].analysisType == Interactive
    ensures !r.VncReady? && HttpStatus(r) != 200
  {
    match GetAnalysis(t, id)
    case Missing => VncNotFound
    case Unreadable => VncServerError
    case Found(row) =>
      if row.analysisType != Interactive then NotInteractive
      else if !HasContainerInfo(row) then NoConnectionInfo
      else VncReady(id, VncMessage)
  }
}
