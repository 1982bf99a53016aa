/**
 * The backend's answers as the browser consumes them: what the pages do with
 * the rows and the VNC answers that backend/main.py actually produces.
 */
module EndToEnd {
  import opened Json
  import opened Backend
  import opened SessionPoll
  import opened Dashboard

  /** What axios hands the interactive-session page: a non-2xx answer rejects the request. */
  function ClientReply(r: VncResponse): (reply: Reply)
    ensures reply.Received? <==> HttpStatus(r) == 200
    ensures reply.Received? ==> reply.data == VncBody(r)
  {
    if HttpStatus(r) == 200 then Received(VncBody(r)) else RequestFailed
  }

  /** react-query's `data` for GET /files/{id}: the row on success, `undefined` on an error answer. */
  function ClientRow(r: FileResponse): (data: Option<Value>)
    ensures data.Some? <==> r.FileFound?
    ensures r.FileFound? ==> data == Some(r.body)
  {
    if r.FileFound? then Some(r.body) else None
  }

  /** What VncSession settles on for one VNC answer: `isError` on an error answer, else the body as `data`. */
  function VncSessionScreen(r: VncResponse): VncScreen
  {
    VncView(false, HttpStatus(r) != 200, if HttpStatus(r) == 200 then Some(VncBody(r)) else None)
  }

  /** Every VNC answer is an error, so VncSession shows its error text and never the iframe. */
  lemma VncSessionNeverConnects(t: Table, id: string)
    ensures ClientReply(GetVncInfo(t, id)) == RequestFailed
    ensures VncSessionScreen(GetVncInfo(t, id)) == VncFailed
  {
  }

  /**
   * The interactive-session page of a session just started: get_analysis refuses
   * the row, the first check gets a 500, and the page stops on the retrieval
   * error with nothing armed.
   */
  lemma StartedSessionPageStops(t: Table, id: string, now: string)
    requires id !in t
    ensures StartSession(t, id, now).Some?
    ensures GetVncInfo(StartSession(t, id, now).value, id) == VncServerError
    ensures var s := Fire(Init(id), 0, ClientReply(GetVncInfo(StartSession(t, id, now).value, id)));
      && !s.loading && s.error == Some(Str(RetrievalError)) && s.checks == []
      && Render(s) == ErrorPanel(Str(RetrievalError))
  {
    var t' := StartSession(t, id, now).value;
    assert t'[id] == SessionRow(now);
  }

  /**
   * The dashboard's start button: the session's own response carries its id, so
   * VncSession replaces the button, and that VncSession shows its error text.
   */
  lemma StartButtonLeadsToVncError(t: Table, id: string, now: string)
    requires id !in t && id != ""
    ensures StartSession(t, id, now).Some?
    ensures ButtonView(SessionIdAfter(None, RecordJson(id, SessionRow(now)))) == SessionPanel(Str(id))
    ensures VncSessionScreen(GetVncInfo(StartSession(t, id, now).value, id)) == VncFailed
  {
    StartedSessionShown(None, RecordJson(id, SessionRow(now)), id);
  }

  /** The details pane of a session just started: the row read answers 500, so no analysis is shown and no results are fetched. */
  lemma StartedSessionDetailsMissing(t: Table, id: string, now: string)
    requires id !in t
    ensures StartSession(t, id, now).Some?
    ensures GetFile(StartSession(t, id, now).value, id) == FileServerError
    ensures Details(id, false, ClientRow(GetFile(StartSession(t, id, now).value, id))) == NoAnalysis
    ensures !ResultsQueryEnabled(ClientRow(GetFile(StartSession(t, id, now).value, id)))
  {
    var t' := StartSession(t, id, now).value;
    assert t'[id] == SessionRow(now);
  }

  /** An interactive row the backend does serve is routed to VncSession and never fetches results. */
  lemma InteractiveRowRouting(t: Table, id: string)
    requires id in t && Readable(t[id]) && t[id].analysisType == Interactive
    ensures Details(id, false, ClientRow(GetFile(t, id))) == InteractiveDetails(id)
    ensures !ResultsQueryEnabled(ClientRow(GetFile(t, id)))
  {
    InteractiveRouting(id, ClientRow(GetFile(t, id)));
  }

  /** A served "completed" row of any other type shows only its results panel, fetches its results and has the green badge. */
  lemma CompletedRowFetchesResults(t: Table, id: string)
    requires id in t && Readable(t[id]) && t[id].analysisType != Interactive && t[id].status == Completed
    ensures ResultsQueryEnabled(ClientRow(GetFile(t, id)))
    ensures Details(id, false, ClientRow(GetFile(t, id))) == StandardDetails(true, true, false, false)
    ensures StatusColor(t[id].status) == GreenBadge
  {
  }

  /**
   * The success payload as written has no `status` and no port: a page that
   * received it would never connect and would recheck for ever.
   */
  lemma ReadyPayloadWouldPollForever(sessionId: string, message: string, id: string, n: nat)
    ensures !HasConnectionInfo(Some(VncBody(VncReady(sessionId, message))))
    ensures var s := FireAll(Init(id), seq(n, _ => ClientReply(VncReady(sessionId, message))));
      && s.loading && s.error.None? && Render(s) == Spinner
      && |s.checks| == 1 && s.checks[0].sessionId == id
  {
    var replies := seq(n, _ => ClientReply(VncReady(sessionId, message)));
    assert "status" !in VncBody(VncReady(sessionId, message)).fields;
    NoRetryBound(Init(id), replies);
  }
}
