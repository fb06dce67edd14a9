/**
 The state coordinator of internal/app/module/state.go over an abstract
 key-value store.

 The Redis store is an immutable `map<string, string>`; every operation is a
 pure function from the store before it to the store after it. The process
 environment is passed in: `mode` is the value of `IS_STATEFUL` and `host` is
 what `os.Hostname` returned (possibly the empty string, since the source
 discards its error).
 */
module State {
  import opened Decimal

  type Store = map<string, string>

  /** The generation counter's key. */
  const StateKey: string := "toad__state"
  /** The fleet-wide health flag's key. */
  const FleetKey: string := "toad__host_health"
  /** Prefix of each host's own health flag key. */
  const HostKeyPrefix: string := "toad__host_health__"

  /** The key of one host's health flag; it never collides with the other two keys. */
  function HostKey(host: string): (k: string)
    ensures k != FleetKey && k != StateKey
    ensures |k| == |HostKeyPrefix| + |host|
    ensures k[..|HostKeyPrefix|] == HostKeyPrefix && k[|HostKeyPrefix|..] == host
  {
    HostKeyPrefix + host
  }

  /** Different hosts have different flag keys. */
  lemma HostKeyInjective(h1: string, h2: string)
    ensures HostKey(h1) == HostKey(h2) <==> h1 == h2
  {
  }

  /** A Redis GET as the source reads it: `.Val()` is "" for an absent key. */
  function Read(s: Store, key: string): (v: string)
    ensures key in s ==> v == s[key]
    ensures v == "" <==> key !in s || s[key] == ""
  {
    if key in s then s[key] else ""
  }

  /** `r` is `s` with one key written: no other key is added, dropped or changed. */
  ghost predicate WritesOnly(s: Store, r: Store, key: string) {
    && key in r
    && r.Keys == s.Keys + {key}
    && forall k :: k in s && k != key ==> r[k] == s[k]
  }

  // ---------------------------------------------------------------- mode

  /** Stateful mode is selected by `IS_STATEFUL` being exactly "true". */
  function IsStateful(mode: string): (stateful: bool)
    ensures stateful <==> mode == "true"
  {
    if mode == "" then false else mode == "true"
  }

  function IsStateless(mode: string): (stateless: bool)
    ensures stateless <==> !IsStateful(mode)
    ensures stateless <==> mode != "true"
  {
    !IsStateful(mode)
  }

  // ---------------------------------------------------------------- counter

  /**
   The generation counter. An absent or empty value reads as 1; a decimal
   numeral reads as its value, negatives included; any other non-empty value
   reads as 0, because the source discards Atoi's error and keeps its 0.
   */
  function Get(s: Store): (n: int)
    ensures Read(s, StateKey) == "" ==> n == 1
    ensures forall v :: Read(s, StateKey) == Itoa(v) ==> n == v
    ensures Read(s, StateKey) != "" && ParseDecimal(Read(s, StateKey)) == None ==> n == 0
    ensures Read(s, StateKey) != "" && ParseDecimal(Read(s, StateKey)).Some? ==>
              n == ParseDecimal(Read(s, StateKey)).value
  {
    var value := Read(s, StateKey);
    if value != "" then
      match ParseDecimal(value)
      case Some(i) => i
      case None => 0
    else 1
  }

  /** Advances the counter by one; only the counter key is written. */
  function Change(s: Store): (r: Store)
    ensures WritesOnly(s, r, StateKey)
    ensures Get(r) == Get(s) + 1
    ensures s == map[] ==> Get(r) == 2
  {
    s[StateKey := Itoa(Get(s) + 1)]
  }

  /** Puts the counter back to 1 whatever it held; only the counter key is written. */
  function Reset(s: Store): (r: Store)
    ensures WritesOnly(s, r, StateKey)
    ensures Get(r) == 1
    ensures Read(r, StateKey) == "1"
  {
    s[StateKey := Itoa(1)]
  }

  // ---------------------------------------------------------------- health flags

  /** The value of a health flag, as far as the verdict can tell them apart. */
  datatype Flag = Unset | Up | Down | Other(value: string)

  function FlagOf(v: string): Flag {
    if v == "" then Unset
    else if v == "up" then Up
    else if v == "down" then Down
    else Other(v)
  }

  function HostFlag(s: Store, host: string): Flag {
    FlagOf(Read(s, HostKey(host)))
  }

  function FleetFlag(s: Store): Flag {
    FlagOf(Read(s, FleetKey))
  }

  function HostUp(s: Store, host: string): (r: Store)
    ensures WritesOnly(s, r, HostKey(host))
    ensures HostFlag(r, host) == Up
  {
    s[HostKey(host) := "up"]
  }

  function HostDown(s: Store, host: string): (r: Store)
    ensures WritesOnly(s, r, HostKey(host))
    ensures HostFlag(r, host) == Down
  {
    s[HostKey(host) := "down"]
  }

  function AllUp(s: Store): (r: Store)
    ensures WritesOnly(s, r, FleetKey)
    ensures FleetFlag(r) == Up
  {
    s[FleetKey := "up"]
  }

  function AllDown(s: Store): (r: Store)
    ensures WritesOnly(s, r, FleetKey)
    ensures FleetFlag(r) == Down
  {
    s[FleetKey := "down"]
  }

  /**
   The health verdict: the host is down iff its own flag or the fleet flag
   holds "down"; absent and any other value count as not down.
   */
  function IsDown(s: Store, host: string): (down: bool)
    ensures down <==> HostFlag(s, host) == Down || FleetFlag(s) == Down
  {
    var hostHealth := Read(s, HostKey(host));
    var allHealth := Read(s, FleetKey);
    hostHealth == "down" || allHealth == "down"
  }

  // ---------------------------------------------------------------- abstract machine

  /**
   What one host can observe of the store: its generation and the two flags
   its verdict depends on.
   */
  datatype View = View(generation: int, host: Flag, fleet: Flag)

  function Observe(s: Store, host: string): View {
    View(Get(s), HostFlag(s, host), FleetFlag(s))
  }

  /** The verdict as a function of the two flags alone. */
  function Verdict(v: View): bool {
    v.host == Down || v.fleet == Down
  }

  /** The six mutations the coordinator offers. */
  datatype Op = OpChange | OpReset | OpHostUp | OpHostDown | OpAllUp | OpAllDown

  /** The reference state machine: each mutation's effect on a host's view. */
  function Step(v: View, op: Op): View {
    match op
    case OpChange => v.(generation := v.generation + 1)
    case OpReset => v.(generation := 1)
    case OpHostUp => v.(host := Up)
    case OpHostDown => v.(host := Down)
    case OpAllUp => v.(fleet := Up)
    case OpAllDown => v.(fleet := Down)
  }

  /** The store operation for `op`, as performed on behalf of `host`. */
  function Apply(s: Store, host: string, op: Op): Store {
    match op
    case OpChange => Change(s)
    case OpReset => Reset(s)
    case OpHostUp => HostUp(s, host)
    case OpHostDown => HostDown(s, host)
    case OpAllUp => AllUp(s)
    case OpAllDown => AllDown(s)
  }

  /** The verdict reads nothing but the two flags of the view. */
  lemma IsDownIsVerdict(s: Store, host: string)
    ensures IsDown(s, host) == Verdict(Observe(s, host))
  {
  }

  /** Writing any key other than the counter's leaves the generation alone. */
  lemma GetIgnoresOtherKeys(s: Store, r: Store, key: string)
    requires key != StateKey && WritesOnly(s, r, key)
    ensures Get(r) == Get(s)
  {
  }

  /** Writing any key other than the host's and the fleet's leaves the verdict alone. */
  lemma FlagsIgnoreOtherKeys(s: Store, r: Store, key: string, host: string)
    requires key != HostKey(host) && key != FleetKey && WritesOnly(s, r, key)
    ensures HostFlag(r, host) == HostFlag(s, host) && FleetFlag(r) == FleetFlag(s)
    ensures IsDown(r, host) == IsDown(s, host)
  {
  }

  /**
   Every store operation, seen by the host it runs for, is the reference
   machine's step: the counter and the two flags move independently.
   */
  lemma ApplyRefinesStep(s: Store, host: string, op: Op)
    ensures Observe(Apply(s, host, op), host) == Step(Observe(s, host), op)
  {
  }

  /** A host flag write is invisible to every other host. */
  lemma HostWritesAreLocal(s: Store, host: string, other: string, op: Op)
    requires op == OpHostUp || op == OpHostDown
    requires other != host
    ensures Observe(Apply(s, host, op), other) == Observe(s, other)
  {
  }

  /** Counter and fleet writes are seen the same way by every host, not just the writer. */
  lemma SharedWritesAreGlobal(s: Store, host: string, other: string, op: Op)
    requires op != OpHostUp && op != OpHostDown
    ensures Observe(Apply(s, host, op), other) == Step(Observe(s, other), op)
  {
  }

  /** Every mutation but `Change` is idempotent: doing it twice is doing it once. */
  lemma WritesIdempotent(s: Store, host: string, op: Op)
    requires op != OpChange
    ensures Apply(Apply(s, host, op), host, op) == Apply(s, host, op)
  {
  }

  /** `Change` is not idempotent: two of them advance the counter by two. */
  lemma ChangeTwice(s: Store)
    ensures Get(Change(Change(s))) == Get(s) + 2
  {
  }

  /**
   Fleet-down shadows everything a host can do for itself: while the fleet
   flag is "down", every operation except `AllUp` leaves the host down.
   */
  lemma FleetDownShadows(s: Store, host: string, op: Op)
    requires FleetFlag(s) == Down
    requires op != OpAllUp
    ensures IsDown(Apply(s, host, op), host)
  {
  }

  /** Fleet-up does not force a host up: a host marked down stays down after `AllUp`. */
  lemma FleetUpKeepsHostDown(s: Store, host: string)
    requires HostFlag(s, host) == Down
    ensures IsDown(AllUp(s), host)
  {
  }
}
