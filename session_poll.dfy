/**
 * The status poll of the interactive-session page
 * (frontend/src/components/InteractiveSession.jsx).
 *
 * The page holds three state variables, `loading`, `error` and `sessionInfo`,
 * and a self-rescheduling `checkSessionStatus`: each answer is stored, then its
 * `status` decides between stopping (ready or error) and re-arming a check
 * 2000 ms later. A failed request stops with a fixed message. There is no retry
 * bound and no cancellation: a new route id starts a second chain beside the old.
 */
module SessionPoll {
  import opened Json

  const RecheckDelayMs: nat := 2000
  const DefaultStartError: string := "Erreur lors du démarrage de la session interactive"
  const RetrievalError: string := "Erreur lors de la récupération des informations de la session"

  /** One armed call of checkSessionStatus: the route id it fetches and the delay before it runs. */
  datatype Check = Check(sessionId: string, delayMs: nat)

  /** The outcome of one GET of the VNC endpoint: a rejected request or the response body. */
  datatype Reply = RequestFailed | Received(data: Value)

  /** What the `try` block does with a response body. */
  datatype Decision = Ready | Errored(message: Value) | Recheck | Threw

  /** The branch checkSessionStatus takes on a body: reading `.status` of `null` throws into `catch`. */
  function Decide(data: Value): (d: Decision)
    ensures d == Threw <==> data.Null?
    ensures d == Ready <==> Member(data, "status") == Some(Str("running"))
    ensures d.Errored? <==> Member(data, "status") == Some(Str("error"))
    ensures d.Errored? && Truthy(Member(data, "message")) ==> Some(d.message) == Member(data, "message")
    ensures d.Errored? && !Truthy(Member(data, "message")) ==> d.message == Str(DefaultStartError)
    ensures d.Errored? ==> Truthy(Some(d.message))
    ensures d == Recheck <==>
      !data.Null? && Member(data, "status") != Some(Str("running")) && Member(data, "status") != Some(Str("error"))
  {
    if data.Null? then Threw
    else if Member(data, "status") == Some(Str("running")) then Ready
    else if Member(data, "status") == Some(Str("error")) then
      var m := Member(data, "message");
      Errored(if Truthy(m) then m.value else Str(DefaultStartError))
    else Recheck
  }

  /** A reply after which the chain that issued it arms another check. */
  predicate Continues(reply: Reply)
  {
    reply.Received? && Decide(reply.data) == Recheck
  }

  datatype State = State(routeId: string, loading: bool, error: Option<Value>, sessionInfo: Value, checks: seq<Check>)

  /** On mount: loading, no error, no session info, and one check issued at once. */
  function Init(id: string): State
  {
    State(id, true, None, Null, [Check(id, 0)])
  }

  /** `if (error)` tests presence: every error the page sets is truthy. */
  predicate Consistent(s: State)
  {
    s.error.Some? ==> Truthy(s.error)
  }

  function Without(cs: seq<Check>, k: nat): (r: seq<Check>)
    requires k < |cs|
    ensures |r| == |cs| - 1
  {
    cs[..k] + cs[k + 1..]
  }

  /** Check number `k` runs and gets `reply`. */
  function Fire(s: State, k: nat, reply: Reply): (s': State)
    requires k < |s.checks|
    ensures Consistent(s) ==> Consistent(s')
    ensures s'.routeId == s.routeId
    ensures s'.loading ==> s.loading
    ensures s.error.Some? ==> s'.error.Some?
    ensures reply.Received? ==> s'.sessionInfo == reply.data
    ensures reply.RequestFailed? ==>
      s'.sessionInfo == s.sessionInfo && !s'.loading && s'.error == Some(Str(RetrievalError))
    ensures reply.Received? && Decide(reply.data) == Threw ==> !s'.loading && s'.error == Some(Str(RetrievalError))
    ensures reply.Received? && Decide(reply.data) == Ready ==> !s'.loading && s'.error == s.error
    ensures reply.Received? && Decide(reply.data).Errored? ==>
      !s'.loading && s'.error == Some(Decide(reply.data).message)
    ensures Continues(reply) ==>
      && s'.loading == s.loading && s'.error == s.error
      && s'.checks == Without(s.checks, k) + [Check(s.checks[k].sessionId, RecheckDelayMs)]
    ensures !Continues(reply) ==> s'.checks == Without(s.checks, k)
  {
    var rest := Without(s.checks, k);
    match reply
    case RequestFailed => s.(loading := false, error := Some(Str(RetrievalError)), checks := rest)
    case Received(data) =>
      var stored := s.(sessionInfo := data, checks := rest);
      match Decide(data)
      case Threw => stored.(loading := false, error := Some(Str(RetrievalError)))
      case Ready => stored.(loading := false)
      case Errored(m) => stored.(loading := false, error := Some(m))
      case Recheck => stored.(checks := rest + [Check(s.checks[k].sessionId, RecheckDelayMs)])
  }

  /** The effect of `[id]` in useEffect: a new id issues one more immediate check; nothing is cancelled. */
  function RouteChanged(s: State, id: string): (s': State)
    ensures id == s.routeId ==> s' == s
    ensures id != s.routeId ==>
      s' == s.(routeId := id, checks := s.checks + [Check(id, 0)])
      && s'.checks[..|s.checks|] == s.checks
  {
    if id == s.routeId then s else s.(routeId := id, checks := s.checks + [Check(id, 0)])
  }

  /** Replies to a single chain: each one answers the oldest armed check. */
  function FireAll(s: State, replies: seq<Reply>): State
    decreases |replies|
  {
    if replies == [] || s.checks == [] then s
    else FireAll(Fire(s, 0, replies[0]), replies[1..])
  }

  /**
   * No retry bound: however many answers arrive that are neither "running" nor
   * "error", the chain is still armed 2000 ms ahead and the page is unchanged.
   */
  lemma {:induction false} NoRetryBound(s: State, replies: seq<Reply>)
    requires |s.checks| == 1
    requires forall i :: 0 <= i < |replies| ==> Continues(replies[i])
    ensures var s' := FireAll(s, replies);
      && s'.loading == s.loading && s'.error == s.error
      && |s'.checks| == 1 && s'.checks[0].sessionId == s.checks[0].sessionId
      && (|replies| > 0 ==> s'.checks[0].delayMs == RecheckDelayMs)
      && (|replies| > 0 ==> replies[|replies| - 1].Received? && s'.sessionInfo == replies[|replies| - 1].data)
    decreases |replies|
  {
    if replies != [] {
      var next := Fire(s, 0, replies[0]);
      assert Continues(replies[0]);
      assert next.checks == [Check(s.checks[0].sessionId, RecheckDelayMs)];
      NoRetryBound(next, replies[1..]);
      if |replies| == 1 {
        assert replies[1..] == [];
      } else {
        assert replies[1..][|replies[1..]| - 1] == replies[|replies| - 1];
      }
    }
  }

  /** A single chain stops at its first answer that is not a recheck, and stays stopped. */
  lemma {:induction false} ChainStopsAtFirstFinalAnswer(s: State, replies: seq<Reply>)
    requires |s.checks| == 1 && |replies| > 0
    requires forall i :: 0 <= i < |replies| - 1 ==> Continues(replies[i])
    requires !Continues(replies[|replies| - 1])
    ensures FireAll(s, replies).checks == []
    ensures !FireAll(s, replies).loading
    decreases |replies|
  {
    var next := Fire(s, 0, replies[0]);
    if |replies| > 1 {
      assert Continues(replies[0]);
      ChainStopsAtFirstFinalAnswer(next, replies[1..]);
    } else {
      assert FireAll(next, replies[1..]) == next;
      assert !Continues(replies[0]);
    }
  }

  datatype Screen = Spinner | ErrorPanel(message: Value) | Terminal

  /** The page's render: loading wins over error, and the terminal iframe needs neither. */
  function Render(s: State): (v: Screen)
    ensures s.loading ==> v == Spinner
    ensures v.ErrorPanel? ==> !s.loading && s.error == Some(v.message)
    ensures Consistent(s) ==> (v == Terminal <==> !s.loading && s.error.None?)
  {
    if s.loading then Spinner
    else if Truthy(s.error) then ErrorPanel(s.error.value)
    else Terminal
  }

  /** The page as an object: its state variables are fields, and each timer firing is a call. */
  class InteractiveSessionPage {
    var routeId: string
    var loading: bool
    var error: Option<Value>
    var sessionInfo: Value
    var checks: seq<Check>

    function Snapshot(): State
      reads this
    {
      State(routeId, loading, error, sessionInfo, checks)
    }

    ghost predicate Valid()
      reads this
    {
      Consistent(Snapshot())
    }

    constructor (id: string)
      ensures Valid() && Snapshot() == Init(id)
    {
      routeId := id;
      loading := true;
      error := None;
      sessionInfo := Null;
      checks := [Check(id, 0)];
    }

    /** Armed check number `k` runs checkSessionStatus and gets `reply`. */
    method CheckSessionStatus(k: nat, reply: Reply)
      requires Valid() && k < |checks|
      modifies this
      ensures Valid()
      ensures Snapshot() == Fire(old(Snapshot()), k, reply)
    {
      var check := checks[k];
      checks := checks[..k] + checks[k + 1..];
      match reply {
        case RequestFailed =>
          error := Some(Str(RetrievalError));
          loading := false;
        case Received(data) =>
          sessionInfo := data;
          if data.Null? {
            error := Some(Str(RetrievalError));
            loading := false;
          } else if Member(data, "status") == Some(Str("running")) {
            loading := false;
          } else if Member(data, "status") == Some(Str("error")) {
            var m := Member(data, "message");
            error := Some(if Truthy(m) then m.value else Str(DefaultStartError));
            loading := false;
          } else {
            checks := checks + [Check(check.sessionId, RecheckDelayMs)];
          }
      }
    }

    /** The route parameter changes; the effect runs again. */
    method OnRouteChange(id: string)
      requires Valid()
      modifies this
      ensures Valid()
      ensures Snapshot() == RouteChanged(old(Snapshot()), id)
    {
      if id != routeId {
        routeId := id;
        checks := checks + [Check(id, 0)];
      }
    }

    method Show() returns (v: Screen)
      requires Valid()
      ensures v == Render(Snapshot())
      ensures v == Terminal <==> !loading && error.None?
    {
      v := Render(Snapshot());
    }
  }
}
