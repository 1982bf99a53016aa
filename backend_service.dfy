/**
 * The backend's state-changing operations (backend/main.py): the `analyses`
 * table and the upload/results directories as fields of one object, and the
 * helpers and endpoints that INSERT, UPDATE and write files step by step.
 * Each method is proved against the pure functions of module Backend.
 */
module BackendService {
  import opened Json
  import opened Backend

  class AnalysisStore {
    var table: Table
    var fs: FileStore
    /** The status writes and tool runs so far, in order. */
    ghost var trace: seq<Event>

    ghost predicate Valid()
      reads this
    {
      TableValid(table)
    }

    /** Start-up: an empty table, and the two roots created with makedirs(exist_ok=True). */
    constructor (disk: FileStore)
      requires UploadDir !in disk.files && ResultsDir !in disk.files
      ensures Valid() && table == map[] && trace == []
      ensures fs == disk.(dirs := disk.dirs + {UploadDir, ResultsDir})
    {
      table := map[];
      fs := disk.(dirs := disk.dirs + {UploadDir, ResultsDir});
      trace := [];
    }

    /** save_analysis: inserts a "pending" row; sqlite refuses an id that is already present. */
    method SaveAnalysis(id: string, filename: string, now: string, analysisType: string := Auto)
      returns (inserted: bool)
      requires Valid()
      modifies this`table
      ensures Valid()
      ensures inserted <==> id !in old(table)
      ensures table == if inserted then Insert(old(table), id, filename, analysisType, now).value else old(table)
    {
      var r := Insert(table, id, filename, analysisType, now);
      inserted := r.Some?;
      if inserted {
        table := r.value;
      }
    }

    /** update_status: a terminal status also stamps the completion time. */
    method UpdateStatus(id: string, status: string, now: string)
      requires Valid()
      modifies this`table, this`trace
      ensures Valid()
      ensures table == SetStatus(old(table), id, status, now)
      ensures trace == old(trace) + [StatusWritten(id, status)]
    {
      table := SetStatus(table, id, status, now);
      trace := trace + [StatusWritten(id, status)];
    }

    method UpdateContainerId(id: string, containerId: string)
      requires Valid()
      modifies this`table
      ensures Valid()
      ensures table == SetContainerId(old(table), id, containerId)
    {
      table := SetContainerId(table, id, containerId);
    }

    method UpdateFileHash(id: string, hash: string)
      requires Valid()
      modifies this`table
      ensures Valid()
      ensures table == SetFileHash(old(table), id, hash)
    {
      table := SetFileHash(table, id, hash);
    }

    method UpdateContainerInfo(id: string, containerId: string, info: map<string, Value>)
      requires Valid()
      modifies this`table
      ensures Valid()
      ensures table == SetContainerInfo(old(table), id, containerId, info)
    {
      table := SetContainerInfo(table, id, containerId, info);
    }

    /**
     * run_analysis: prepare the job directories and the copy, mark the row
     * "running", run the three tools, write `<sha256>.json`, store the digest,
     * write the marker and mark the row "completed"; any exception marks it
     * "failed" instead. The copy is as written: it fails when the file is
     * already at its target (see Backend.RestartFallbackRunFails).
     */
    method RunAnalysis(id: string, src: string, probe: FileProbe, tools: ToolOutputs, now: string, codec: Codec)
      returns (result: RunResult)
      requires Valid()
      modifies this
      ensures Valid()
      ensures var o := RunSpec(old(table), old(fs), id, src, probe, tools, now, codec);
        table == o.table && fs == o.fs && result == o.result && trace == old(trace) + o.events
    {
      var prep := Prepare(fs, id, src);
      fs := prep.fs;
      if !prep.ok {
        UpdateStatus(id, Failed, now);
        return FailedAt(PrepareStep);
      }
      UpdateStatus(id, Running, now);
      trace := trace + [ToolRan(FileTool)];
      trace := trace + [ToolRan(StringsTool)];
      trace := trace + [ToolRan(BinwalkTool)];
      var doc := ResultDocument(Basename(src), probe, tools, now);
      var dir := JobResultsDir(id);
      var resultName := ResultName(probe.sha256);
      var written := WriteText(fs, Join(dir, resultName), codec.dump(doc));
      if written.None? {
        UpdateStatus(id, Failed, now);
        return FailedAt(WriteResultStep);
      }
      fs := written.value;
      UpdateFileHash(id, probe.sha256);
      var marked := WriteText(fs, Join(dir, MarkerName), resultName);
      if marked.None? {
        UpdateStatus(id, Failed, now);
        return FailedAt(WriteMarkerStep);
      }
      fs := marked.value;
      UpdateStatus(id, Completed, now);
      result := Succeeded;
    }

    /**
     * restart_analysis: 404 for an unknown id or a file found in neither place,
     * 500 for a row get_analysis refuses; otherwise the row goes back to
     * "pending" (its completion time is kept) and the file to analyse again is
     * returned with the row.
     */
    method RestartAnalysis(id: string, now: string) returns (r: RestartResponse)
      requires Valid()
      modifies this`table, this`trace
      ensures Valid()
      ensures id !in old(table) ==>
        r == RestartNotFound(AnalysisNotFound) && table == old(table) && trace == old(trace)
      ensures id in old(table) && !Readable(old(table)[id]) ==>
        r == RestartServerError && table == old(table) && trace == old(trace)
      ensures id in old(table) && Readable(old(table)[id]) && RestartSource(old(table), fs, id).None? ==>
        r == RestartNotFound(FileToAnalyseNotFound) && table == old(table) && trace == old(trace)
      ensures id in old(table) && Readable(old(table)[id]) && RestartSource(old(table), fs, id).Some? ==>
        && table == SetStatus(old(table), id, Pending, now)
        && r == Restarted(table[id], RestartSource(old(table), fs, id).value)
        && trace == old(trace) + [StatusWritten(id, Pending)]
    {
      var row := GetAnalysis(table, id);
      if row.Missing? {
        return RestartNotFound(AnalysisNotFound);
      }
      if row.Unreadable? {
        return RestartServerError;
      }
      var src := RestartSource(table, fs, id);
      if src.None? {
        return RestartNotFound(FileToAnalyseNotFound);
      }
      UpdateStatus(id, Pending, now);
      r := Restarted(table[id], src.value);
    }

    /**
     * start_interactive_session: a row of type "interactive" that is already
     * "completed", with placeholder container info; the response is that row.
     */
    method StartInteractiveSession(sessionId: string, now: string) returns (r: SessionResponse)
      requires Valid()
      modifies this`table, this`trace
      ensures Valid()
      ensures r.SessionStarted? <==> sessionId !in old(table)
      ensures r.SessionStarted? ==>
        && StartSession(old(table), sessionId, now) == Some(table)
        && r == SessionStarted(sessionId, table[sessionId])
        && trace == old(trace) + [StatusWritten(sessionId, Completed)]
      ensures r.SessionFailed? ==> table == old(table) && trace == old(trace)
    {
      var inserted := SaveAnalysis(sessionId, InteractiveFilename, now, Interactive);
      if !inserted {
        return SessionFailed;
      }
      UpdateContainerInfo(sessionId, NoContainer, InteractiveInfo());
      UpdateStatus(sessionId, Completed, now);
      r := SessionStarted(sessionId, SessionRow(now));
    }
  }
}
