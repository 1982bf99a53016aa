/**
 * The dashboard's decisions over analysis rows (frontend/src/App.jsx): the
 * status badge, when results are fetched, how a row is routed to the VNC view,
 * when a VNC descriptor is usable and how its addresses are written, and the
 * state kept by the upload form, the VNC widget and the start-session button.
 */
module Dashboard {
  import opened Json

  const GreenBadge: string := "bg-green-100 text-green-800"
  const RedBadge: string := "bg-red-100 text-red-800"
  const BlueBadge: string := "bg-blue-100 text-blue-800"
  const YellowBadge: string := "bg-yellow-100 text-yellow-800"

  /** getStatusColor: three known statuses get their own badge, every other string the yellow one. */
  function StatusColor(status: string): (cls: string)
    ensures cls == GreenBadge <==> status == "completed"
    ensures cls == RedBadge <==> status == "failed"
    ensures cls == BlueBadge <==> status == "running"
    ensures cls == YellowBadge <==> status != "completed" && status != "failed" && status != "running"
  {
    if status == "completed" then GreenBadge
    else if status == "failed" then RedBadge
    else if status == "running" then BlueBadge
    else YellowBadge
  }

  // ---------------------------------------------------------------------------
  // AnalysisDetails
  // ---------------------------------------------------------------------------

  predicate PropIs(a: Option<Value>, key: string, text: string)
  {
    Prop(a, key) == Some(Str(text))
  }

  /** The `enabled` option of the results query; None is the row not loaded yet. */
  function ResultsQueryEnabled(analysis: Option<Value>): (enabled: bool)
    ensures enabled ==> analysis.Some? && analysis.value.Object? && Truthy(analysis)
  {
    PropIs(analysis, "status", "completed") && !PropIs(analysis, "analysis_type", "interactive")
  }

  /** What AnalysisDetails shows. A standard row always has the restart button. */
  datatype DetailsScreen =
    | LoadingDetails
    | NoAnalysis
    | InteractiveDetails(vncFileId: string)
    | StandardDetails(restartButton: bool, resultsPanel: bool, failedPanel: bool, runningPanel: bool)

  function Details(fileId: string, loadingAnalysis: bool, analysis: Option<Value>): DetailsScreen
  {
    if loadingAnalysis then LoadingDetails
    else if !Truthy(analysis) then NoAnalysis
    else if PropIs(analysis, "analysis_type", "interactive") then InteractiveDetails(fileId)
    else StandardDetails(
      true,
      PropIs(analysis, "status", "completed"),
      PropIs(analysis, "status", "failed"),
      PropIs(analysis, "status", "running"))
  }

  /** An interactive row is always shown through VncSession: no restart button, no status panel, no results fetch. */
  lemma InteractiveRouting(fileId: string, analysis: Option<Value>)
    requires Truthy(analysis) && PropIs(analysis, "analysis_type", "interactive")
    ensures Details(fileId, false, analysis) == InteractiveDetails(fileId)
    ensures !ResultsQueryEnabled(analysis)
  {
  }

  /** Once the row is loaded, results are fetched exactly when the results panel is on screen. */
  lemma ResultsFetchedIffPanelShown(fileId: string, analysis: Option<Value>)
    requires Truthy(analysis)
    ensures ResultsQueryEnabled(analysis) <==>
      Details(fileId, false, analysis).StandardDetails? && Details(fileId, false, analysis).resultsPanel
  {
  }

  /** At most one of the three status panels is shown, and the restart button is shown exactly for standard rows. */
  lemma StatusPanelsExclusive(fileId: string, loadingAnalysis: bool, analysis: Option<Value>)
    ensures var d := Details(fileId, loadingAnalysis, analysis);
      d.StandardDetails? ==>
        d.restartButton
        && !(d.resultsPanel && d.failedPanel) && !(d.resultsPanel && d.runningPanel) && !(d.failedPanel && d.runningPanel)
  {
  }

  // ---------------------------------------------------------------------------
  // VncSession
  // ---------------------------------------------------------------------------

  /** `vncInfo && vncInfo.novnc_port`: the descriptor counts as usable. */
  predicate HasConnectionInfo(info: Option<Value>)
  {
    Truthy(info) && Truthy(Prop(info, "novnc_port"))
  }

  const UrlScheme: string := "http://"
  const UrlPath: string := "/vnc.html?password="
  const UrlTail: string := "&autoconnect=true"

  function ComposeNovncUrl(host: string, port: string, password: string): string
  {
    UrlScheme + host + ":" + port + UrlPath + password + UrlTail
  }

  /** The noVNC iframe address: `http://{host}:{novnc_port}/vnc.html?password={vnc_password}&autoconnect=true`. */
  function NovncUrl(info: Value): string
  {
    ComposeNovncUrl(Text(Member(info, "host")), Text(Member(info, "novnc_port")), Text(Member(info, "vnc_password")))
  }

  /** The address shown for a native VNC client: `{host}:{vnc_port}`. */
  function DirectAddress(info: Value): string
  {
    Text(Member(info, "host")) + ":" + Text(Member(info, "vnc_port"))
  }

  /** Index of the first occurrence of `c`. */
  function IndexOf(s: string, c: char): (r: Option<nat>)
    ensures r.Some? ==> r.value < |s| && s[r.value] == c && c !in s[..r.value]
    ensures r.None? ==> c !in s
  {
    if s == [] then None
    else if s[0] == c then Some(0)
    else match IndexOf(s[1..], c)
      case None => None
      case Some(i) =>
        assert s[..i + 1] == [s[0]] + s[1..][..i];
        Some(i + 1)
  }

  /** The first `c` in `a + b` is the head of `b` when `a` has none. */
  lemma {:induction false} IndexOfAfter(a: string, b: string, c: char)
    requires c !in a && |b| > 0 && b[0] == c
    ensures IndexOf(a + b, c) == Some(|a|)
    decreases |a|
  {
    if a == [] {
      assert a + b == b;
    } else {
      assert (a + b)[0] == a[0];
      assert (a + b)[1..] == a[1..] + b;
      assert forall k :: 0 <= k < |a[1..]| ==> a[1..][k] == a[k + 1];
      IndexOfAfter(a[1..], b, c);
    }
  }

  datatype UrlParts = UrlParts(host: string, port: string, password: string)

  /** The text between the scheme and the trailing `&autoconnect=true`. */
  function UrlBody(url: string): Option<string>
  {
    if |url| < |UrlScheme| + |UrlTail| || url[..|UrlScheme|] != UrlScheme || url[|url| - |UrlTail|..] != UrlTail then None
    else Some(url[|UrlScheme|..|url| - |UrlTail|])
  }

  /** Splits `port/vnc.html?password=pw` at its first '/'. */
  function SplitPortPath(rest: string): Option<(string, string)>
  {
    match IndexOf(rest, '/')
    case None => None
    case Some(j) =>
      var tail := rest[j..];
      if |tail| < |UrlPath| || tail[..|UrlPath|] != UrlPath then None
      else Some((rest[..j], tail[|UrlPath|..]))
  }

  /** Splits `host:port/vnc.html?password=pw` at its first ':'. */
  function SplitBody(body: string): Option<UrlParts>
  {
    match IndexOf(body, ':')
    case None => None
    case Some(i) =>
      match SplitPortPath(body[i + 1..])
      case None => None
      case Some(pp) => Some(UrlParts(body[..i], pp.0, pp.1))
  }

  /** Reads host, port and password back out of a noVNC address. */
  function SplitNovncUrl(url: string): Option<UrlParts>
  {
    match UrlBody(url)
    case None => None
    case Some(body) => SplitBody(body)
  }

  lemma UrlBodyOf(body: string)
    ensures UrlBody(UrlScheme + body + UrlTail) == Some(body)
  {
    var url := UrlScheme + body + UrlTail;
    assert url[..|UrlScheme|] == UrlScheme;
    assert url[|url| - |UrlTail|..] == UrlTail;
    assert url[|UrlScheme|..|url| - |UrlTail|] == body;
  }

  lemma SplitPortPathOf(port: string, password: string)
    requires '/' !in port
    ensures SplitPortPath(port + UrlPath + password) == Some((port, password))
  {
    var rest := port + UrlPath + password;
    assert rest == port + (UrlPath + password);
    IndexOfAfter(port, UrlPath + password, '/');
    assert rest[..|port|] == port;
    assert rest[|port|..] == UrlPath + password;
    assert (UrlPath + password)[..|UrlPath|] == UrlPath;
    assert (UrlPath + password)[|UrlPath|..] == password;
  }

  lemma SplitBodyOf(host: string, port: string, password: string)
    requires ':' !in host && '/' !in port
    ensures SplitBody(host + ":" + port + UrlPath + password) == Some(UrlParts(host, port, password))
  {
    var body := host + ":" + port + UrlPath + password;
    assert body == host + (":" + port + UrlPath + password);
    IndexOfAfter(host, ":" + port + UrlPath + password, ':');
    assert body[..|host|] == host;
    assert body[|host| + 1..] == port + UrlPath + password;
    SplitPortPathOf(port, password);
  }

  /** The noVNC address determines its parts, when the host has no ':' and the port text no '/'. */
  lemma NovncUrlRoundTrip(host: string, port: string, password: string)
    requires ':' !in host && '/' !in port
    ensures SplitNovncUrl(ComposeNovncUrl(host, port, password)) == Some(UrlParts(host, port, password))
  {
    var body := host + ":" + port + UrlPath + password;
    assert ComposeNovncUrl(host, port, password) == UrlScheme + body + UrlTail;
    UrlBodyOf(body);
    SplitBodyOf(host, port, password);
  }

  /** Reads host and port back out of a direct address. */
  function SplitAddress(addr: string): Option<(string, string)>
  {
    match IndexOf(addr, ':')
    case None => None
    case Some(i) => Some((addr[..i], addr[i + 1..]))
  }

  lemma DirectAddressRoundTrip(info: Value)
    requires ':' !in Text(Member(info, "host"))
    ensures SplitAddress(DirectAddress(info)) == Some((Text(Member(info, "host")), Text(Member(info, "vnc_port"))))
  {
    var host := Text(Member(info, "host"));
    var port := Text(Member(info, "vnc_port"));
    IndexOfAfter(host, ":" + port, ':');
    assert DirectAddress(info) == host + (":" + port);
    assert DirectAddress(info)[..|host|] == host;
    assert DirectAddress(info)[|host| + 1..] == port;
  }

  /** A descriptor with a numeric noVNC port and a host without ':' yields an address that reads back to them. */
  lemma NumericPortUrl(info: Value, host: string, port: int)
    requires Member(info, "host") == Some(Str(host)) && ':' !in host
    requires Member(info, "novnc_port") == Some(Number(port))
    ensures SplitNovncUrl(NovncUrl(info)) == Some(UrlParts(host, IntText(port), Text(Member(info, "vnc_password"))))
  {
    var text := IntText(port);
    assert forall i :: 0 <= i < |text| ==> text[i] != '/';
    NovncUrlRoundTrip(host, text, Text(Member(info, "vnc_password")));
  }

  datatype VncScreen = VncLoading | VncFailed | VncUnavailable | VncFrame(url: string, directAddress: string)

  /** What VncSession renders: loading, then a request error, then an unusable descriptor, else the iframe. */
  function VncView(isLoading: bool, isError: bool, info: Option<Value>): (v: VncScreen)
    ensures v.VncFrame? <==> !isLoading && !isError && HasConnectionInfo(info)
    ensures v.VncFrame? ==> info.Some? && v.url == NovncUrl(info.value) && v.directAddress == DirectAddress(info.value)
    ensures v == VncUnavailable <==> !isLoading && !isError && !HasConnectionInfo(info)
  {
    if isLoading then VncLoading
    else if isError then VncFailed
    else if !HasConnectionInfo(info) then VncUnavailable
    else VncFrame(NovncUrl(info.value), DirectAddress(info.value))
  }

  /** `connected` after the effect has seen each descriptor in turn. */
  function ConnectedAfter(infos: seq<Option<Value>>): bool
  {
    if infos == [] then false
    else ConnectedAfter(infos[..|infos| - 1]) || HasConnectionInfo(infos[|infos| - 1])
  }

  /** `connected` is true exactly when some descriptor seen so far had a noVNC port. */
  lemma {:induction false} ConnectedIffSomeUsable(infos: seq<Option<Value>>)
    ensures ConnectedAfter(infos) <==> exists i :: 0 <= i < |infos| && HasConnectionInfo(infos[i])
  {
    if infos != [] {
      var init := infos[..|infos| - 1];
      ConnectedIffSomeUsable(init);
      if ConnectedAfter(init) {
        var i :| 0 <= i < |init| && HasConnectionInfo(init[i]);
        assert infos[i] == init[i];
      }
      if exists i :: 0 <= i < |infos| && HasConnectionInfo(infos[i]) {
        var i :| 0 <= i < |infos| && HasConnectionInfo(infos[i]);
        if i < |init| {
          assert init[i] == infos[i];
        }
      }
    }
  }

  /** VncSession's `connected` flag, set by the effect on each new descriptor. */
  class VncSessionWidget {
    var connected: bool
    ghost var seen: seq<Option<Value>>

    ghost predicate Valid()
      reads this
    {
      connected == ConnectedAfter(seen)
    }

    constructor ()
      ensures Valid() && !connected && seen == []
    {
      connected := false;
      seen := [];
    }

    method OnDescriptor(info: Option<Value>)
      requires Valid()
      modifies this
      ensures Valid() && seen == old(seen) + [info]
      ensures connected == (old(connected) || HasConnectionInfo(info))
    {
      if HasConnectionInfo(info) {
        connected := true;
      }
      seen := seen + [info];
      assert seen[..|seen| - 1] == old(seen);
    }
  }

  // ---------------------------------------------------------------------------
  // FileUploader
  // ---------------------------------------------------------------------------

  datatype SelectedFile = SelectedFile(name: string)

  /** `disabled={!file || uploadMutation.isLoading}`. */
  function SubmitDisabled(file: Option<SelectedFile>, uploading: bool): (disabled: bool)
    ensures !disabled ==> file.Some?
    ensures uploading ==> disabled
  {
    file.None? || uploading
  }

  class FileUploader {
    var file: Option<SelectedFile>

    constructor ()
      ensures file == None
    {
      file := None;
    }

    /** handleFileChange: keeps the first chosen file; an empty choice changes nothing. */
    method HandleFileChange(chosen: seq<SelectedFile>)
      modifies this
      ensures file == if |chosen| > 0 then Some(chosen[0]) else old(file)
    {
      if |chosen| > 0 {
        file := Some(chosen[0]);
      }
    }

    /** handleSubmit: returns the file posted, or None when nothing is selected and nothing is sent. */
    method HandleSubmit() returns (sent: Option<SelectedFile>)
      ensures sent.None? <==> file.None?
      ensures sent.Some? ==> sent == file
    {
      if file.None? {
        return None;
      }
      sent := file;
    }

    /** onSuccess of the upload: the selection is cleared. */
    method OnUploadSuccess()
      modifies this
      ensures file == None
      ensures SubmitDisabled(file, false)
    {
      file := None;
    }
  }

  // ---------------------------------------------------------------------------
  // StartInteractiveButton
  // ---------------------------------------------------------------------------

  datatype ButtonScreen = StartButton | SessionPanel(vncFileId: Value)

  /** The id kept by onSuccess: `setSessionId(data.data.id)`; a `null` body throws before the setter. */
  function SessionIdAfter(current: Option<Value>, body: Value): Option<Value>
  {
    if body.Null? then current else Member(body, "id")
  }

  /** `if (sessionId)`: a kept id replaces the button by VncSession for that id. */
  function ButtonView(sessionId: Option<Value>): (v: ButtonScreen)
    ensures v.SessionPanel? <==> Truthy(sessionId)
    ensures v.SessionPanel? ==> sessionId == Some(v.vncFileId)
  {
    if Truthy(sessionId) then SessionPanel(sessionId.value) else StartButton
  }

  /** A started session whose response carries a non-empty id is shown through VncSession for that id. */
  lemma StartedSessionShown(current: Option<Value>, body: Value, id: string)
    requires Member(body, "id") == Some(Str(id)) && id != ""
    ensures ButtonView(SessionIdAfter(current, body)) == SessionPanel(Str(id))
  {
  }

  class StartInteractiveButton {
    var sessionId: Option<Value>

    constructor ()
      ensures sessionId == None && ButtonView(sessionId) == StartButton
    {
      sessionId := None;
    }

    method OnStartSuccess(body: Value)
      modifies this
      ensures sessionId == SessionIdAfter(old(sessionId), body)
    {
      if !body.Null? {
        sessionId := Member(body, "id");
      }
    }
  }
}
