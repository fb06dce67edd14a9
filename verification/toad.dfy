/**
 The request-level decision logic of toad.go: the `/_health` handler, the
 `/do/:name` handler and the `--get health` command-line probe, each as a pure
 function of the mode string, whether `Init` reached the store, the store and
 the host name. Routing, JSON rendering and logging are not modelled.
 */
module Toad {
  import opened Decimal
  import opened State

  const StatusOK: int := 200
  const StatusBadRequest: int := 400
  const StatusServiceUnavailable: int := 503

  /** The text of the error `Init` returns when the store cannot be pinged. */
  const InitErrorMessage: string := "Unable to connect to redis"
  const StatelessErrorMessage: string := "Error! Application is stateless"

  /** The single field of each JSON body the handlers write. */
  datatype Body = Status(status: string) | Error(error: string) | Current(current: int)

  datatype Response = Response(code: int, body: Body)

  /** The store after a request, and the response sent for it. */
  datatype Outcome = Outcome(store: Store, response: Response)

  // ---------------------------------------------------------------- GET /_health

  /**
   `GET /_health`: 200 "ok" in stateless mode without touching the store;
   in stateful mode 503 with the connection error when `Init` fails, else
   503 "down" or 200 "ok" by the verdict.
   */
  function Health(mode: string, initOk: bool, s: Store, host: string): (r: Response)
    ensures r.code == StatusOK <==> IsStateless(mode) || (initOk && !IsDown(s, host))
    ensures r.code == StatusOK ==> r.body == Status("ok")
    ensures r.code != StatusOK ==> r.code == StatusServiceUnavailable
    ensures IsStateful(mode) && !initOk ==> r.body == Error(InitErrorMessage)
    ensures IsStateful(mode) && initOk && IsDown(s, host) ==> r.body == Status("down")
  {
    if IsStateless(mode) then
      Response(StatusOK, Status("ok"))
    else if !initOk then
      Response(StatusServiceUnavailable, Error(InitErrorMessage))
    else if IsDown(s, host) then
      Response(StatusServiceUnavailable, Status("down"))
    else
      Response(StatusOK, Status("ok"))
  }

  /** In stateless mode the answer depends on nothing: not `Init`, the store or the host. */
  lemma HealthStatelessIgnoresStore(mode: string, i1: bool, i2: bool, s1: Store, s2: Store, h1: string, h2: string)
    requires IsStateless(mode)
    ensures Health(mode, i1, s1, h1) == Health(mode, i2, s2, h2)
  {
  }

  /** When `Init` fails the verdict is never consulted: the store does not matter. */
  lemma HealthInitFailureIgnoresStore(mode: string, s1: Store, s2: Store, h1: string, h2: string)
    ensures Health(mode, false, s1, h1) == Health(mode, false, s2, h2)
  {
  }

  // ---------------------------------------------------------------- GET /do/:name

  /** The action a `/do/:name` path segment names, if any. */
  function ActionNamed(name: string): Option<Op> {
    if name == "change" then Some(OpChange)
    else if name == "reset" then Some(OpReset)
    else if name == "host_up" then Some(OpHostUp)
    else if name == "host_down" then Some(OpHostDown)
    else if name == "all_up" then Some(OpAllUp)
    else if name == "all_down" then Some(OpAllDown)
    else None
  }

  /** The path segment that names each action. */
  function NameOf(op: Op): string {
    match op
    case OpChange => "change"
    case OpReset => "reset"
    case OpHostUp => "host_up"
    case OpHostDown => "host_down"
    case OpAllUp => "all_up"
    case OpAllDown => "all_down"
  }

  /** Each action has exactly one name. */
  lemma ActionNames(name: string, op: Op)
    ensures ActionNamed(NameOf(op)) == Some(op)
    ensures ActionNamed(name) == Some(op) <==> name == NameOf(op)
  {
  }

  /**
   The six `if name == ...` tests of the `/do/:name` handler, run in turn on
   the store; the name selects exactly one operation, or none.
   */
  function RunNamed(name: string, s: Store, host: string): (r: Store)
    ensures r == (match ActionNamed(name) case Some(op) => Apply(s, host, op) case None => s)
  {
    var s1 := if name == "change" then Change(s) else s;
    var s2 := if name == "reset" then Reset(s1) else s1;
    var s3 := if name == "host_up" then HostUp(s2, host) else s2;
    var s4 := if name == "host_down" then HostDown(s3, host) else s3;
    var s5 := if name == "all_up" then AllUp(s4) else s4;
    var s6 := if name == "all_down" then AllDown(s5) else s5;
    s6
  }

  /**
   `GET /do/:name`. Stateless mode rejects with 400 and a failing `Init`
   with 503, both leaving the store as it was. Otherwise the handler runs its
   six `if name == ...` tests in turn, so exactly the one operation the name
   selects is applied (none for an unknown name), and the response carries
   the generation read back from the resulting store.
   */
  function Do(mode: string, initOk: bool, name: string, s: Store, host: string): (r: Outcome)
    ensures IsStateless(mode) ==> r == Outcome(s, Response(StatusBadRequest, Error(StatelessErrorMessage)))
    ensures IsStateful(mode) && !initOk ==> r == Outcome(s, Response(StatusServiceUnavailable, Error(InitErrorMessage)))
    ensures IsStateful(mode) && initOk ==>
              r.store == (match ActionNamed(name) case Some(op) => Apply(s, host, op) case None => s)
    ensures IsStateful(mode) && initOk ==> r.response == Response(StatusOK, Current(Get(r.store)))
    ensures r.response.code != StatusOK ==> r.store == s
  {
    if IsStateless(mode) then
      Outcome(s, Response(StatusBadRequest, Error(StatelessErrorMessage)))
    else if !initOk then
      Outcome(s, Response(StatusServiceUnavailable, Error(InitErrorMessage)))
    else
      var s' := RunNamed(name, s, host);
      Outcome(s', Response(StatusOK, Current(Get(s'))))
  }

  /** A series of `/do/:name` requests served one after another. */
  function Replay(mode: string, initOk: bool, names: seq<string>, s: Store, host: string): Store
    decreases |names|
  {
    if |names| == 0 then s
    else Replay(mode, initOk, names[1..], Do(mode, initOk, names[0], s, host).store, host)
  }

  /** The generation a series of requests should leave, counted on the names alone. */
  function Generation(names: seq<string>, g: int): int
    decreases |names|
  {
    if |names| == 0 then g
    else if names[0] == "change" then Generation(names[1..], g + 1)
    else if names[0] == "reset" then Generation(names[1..], 1)
    else Generation(names[1..], g)
  }

  /**
   Served in stateful mode against a reachable store, a series of requests
   leaves the generation that counting its `change` and `reset` names predicts.
   */
  lemma {:induction false} ReplayGeneration(mode: string, names: seq<string>, s: Store, host: string)
    requires IsStateful(mode)
    ensures Get(Replay(mode, true, names, s, host)) == Generation(names, Get(s))
    decreases |names|
  {
    if |names| > 0 {
      var s' := Do(mode, true, names[0], s, host).store;
      ReplayGeneration(mode, names[1..], s', host);
      match ActionNamed(names[0])
      case None =>
      case Some(op) =>
        ApplyRefinesStep(s, host, op);
    }
  }

  /** In stateless mode, or with the store unreachable, no series of requests changes the store. */
  lemma {:induction false} ReplayRejectedLeavesStore(mode: string, initOk: bool, names: seq<string>, s: Store, host: string)
    requires IsStateless(mode) || !initOk
    ensures Replay(mode, initOk, names, s, host) == s
    decreases |names|
  {
    if |names| > 0 {
      ReplayRejectedLeavesStore(mode, initOk, names[1..], s, host);
    }
  }

  // ---------------------------------------------------------------- --get health

  /** What the `--get health` probe does: print a line and return, or panic. */
  datatype ProbeOutcome = Printed(line: string) | Panicked(reason: string)

  /**
   `--get health`: succeeds in stateless mode; in stateful mode panics with
   the connection error when `Init` fails and with "I am not ok" when the
   host is down; otherwise succeeds. It succeeds exactly when `/_health`
   would answer 200.
   */
  function HealthProbe(mode: string, initOk: bool, s: Store, host: string): (r: ProbeOutcome)
    ensures r.Printed? <==> Health(mode, initOk, s, host).code == StatusOK
    ensures r.Printed? ==> r.line == "i am ok"
    ensures IsStateful(mode) && !initOk ==> r == Panicked(InitErrorMessage)
    ensures IsStateful(mode) && initOk && IsDown(s, host) ==> r == Panicked("I am not ok")
  {
    if IsStateless(mode) then Printed("i am ok")
    else if !initOk then Panicked(InitErrorMessage)
    else if IsDown(s, host) then Panicked("I am not ok")
    else Printed("i am ok")
  }

  // ---------------------------------------------------------------- scenarios

  /** Three `change` requests on a fresh store answer 2, 3 and 4. */
  lemma ThreeChangesFromEmpty(host: string)
    ensures var o1 := Do("true", true, "change", map[], host);
            var o2 := Do("true", true, "change", o1.store, host);
            var o3 := Do("true", true, "change", o2.store, host);
            && o1.response.body == Current(2)
            && o2.response.body == Current(3)
            && o3.response.body == Current(4)
  {
  }

  /** On a fresh store, `host_down` followed by `/_health` answers 503 "down". */
  lemma HostDownThenHealth(host: string)
    ensures var o := Do("true", true, "host_down", map[], host);
            Health("true", true, o.store, host) == Response(StatusServiceUnavailable, Status("down"))
  {
  }

  /** The regression scenario: the host marked up, then the fleet marked down, is down. */
  lemma HostUpThenFleetDown(s: Store, host: string)
    ensures IsDown(AllDown(HostUp(s, host)), host)
  {
  }

  /**
   A stored value outside the numeral grammar reads as 0, a negative one as
   itself, and a numeral `Itoa` would not write (`+007`) as its value.
   */
  lemma GetOddValues(s: Store)
    ensures Get(s[StateKey := "abc"]) == 0
    ensures Get(s[StateKey := "-3"]) == -3
    ensures Get(s[StateKey := ""]) == 1
    ensures Get(s[StateKey := "+007"]) == 7
  {
    ParseDecimalExamples();
    assert "-3"[1..] == "3" && "3"[..0] == "";
    assert DigitsValue("3") == 3;
  }
}
