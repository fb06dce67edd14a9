# Toad health and maintenance-mode coordinator, in Dafny

Toad is a small HTTP service that load balancers poll for health. An operator
can mark one host, or the whole fleet, as "up" or "down". In stateful mode
those flags and a generation counter are kept in a shared Redis store. In
stateless mode the service always reports healthy and refuses every mutation.

This project models two parts of it:

- The state coordinator of `internal/app/module/state.go`, in module `State`.
  It covers the mode switch, the generation counter (`Get`, `Change`, `Reset`),
  the host and fleet flags (`HostUp`, `HostDown`, `AllUp`, `AllDown`) and the
  verdict `IsDown`.
- The decisions the handlers in `toad.go` make on top of it, in module `Toad`.
  It covers `GET /_health`, `GET /do/:name` and the `--get health` probe.

The store is an immutable `map<string, string>`. Every coordinator operation
is a pure function from the old store to the new one, and every handler is a
pure function that returns a response (and, for `/do/:name`, the new store).
The environment is passed in as parameters:

- `mode` is the value of `IS_STATEFUL`;
- `host` is the result of `os.Hostname`, which may be `""` because its error
  is discarded;
- `initOk` says whether `Init` reached the store.

Redis `GET` on an absent key gives `""`; `State.Read` models that.

Module `Decimal` models the text format of the counter. It is Go's
`strconv.Itoa`, and the grammar `strconv.Atoi` accepts: an optional sign, then
one or more ASCII digits. The round trip `ParseDecimal(Itoa(n)) == Some(n)` is
proved for every integer. That round trip is why `Change` advances `Get` by
exactly one.

Module `State` also defines a small reference state machine. `View` is what
one host can observe: its generation, its own flag and the fleet flag. `Step`
is each operation's intended effect on a view. `State.ApplyRefinesStep` proves
that every store operation matches its step. The other lemmas build on it:
fleet-down shadows host-up, flag writes are idempotent, and a host's flag
write is invisible to other hosts.

Two points about how the code behaves, which the model keeps:

- `Get` returns 1 only when the counter is absent or empty. A non-empty value
  that `Atoi` rejects gives **0**, because the error is discarded and Atoi's
  0 is returned. A stored negative number is returned as it is. So the
  counter can read 0 or a negative number. `State.Get` and
  `Toad.GetOddValues` state this.
- `IsStateful` first compares the value with `""` and then with `"true"`. The
  result is the same as a single comparison with `"true"`, and
  `State.IsStateful` proves that.

## Model

| member | source | states |
|---|---|---|
| Decimal.ParseDecimal | internal/app/module/state.go:60 | The string parses exactly when it is one or more digits after an optional sign. Digits, `+digits` and `-digits` parse to their value with that sign. |
| Decimal.NatToDigits | internal/app/module/state.go:70 | A natural number is rendered as a non-empty run of digits whose value is the number, with no leading zero. |
| Decimal.Itoa | internal/app/module/state.go:70 | Every integer, negatives included, is rendered as a non-empty string that parses back to the same integer. The text is canonical: digits only for a non-negative number, `-` then digits for a negative one, never a `+`, and no leading zero. |
| Decimal.ItoaInjective | internal/app/module/state.go:70 | Two integers get the same rendering only if they are equal. |
| Decimal.ParseDecimalExamples | internal/app/module/state.go:59-63 | `""`, a bare sign, `abc`, `12a` and ` 1` are rejected; `-7` and `+007` are accepted as -7 and 7. |
| State.HostKey | internal/app/module/state.go:78-100 | A host's flag key is the `toad__host_health__` prefix followed by the host name. It never equals the fleet key or the counter key, even for an empty host name. |
| State.HostKeyInjective | internal/app/module/state.go:82 | Two hosts share a flag key only if they have the same name. |
| State.Read | internal/app/module/state.go:57 | A Redis `GET` as the code reads it with `.Val()`. A present key reads as its value. A read gives `""` exactly when the key is absent or holds `""`, so the two cases cannot be told apart. |
| State.IsStateful | internal/app/module/state.go:21-27 | Stateful mode holds exactly when `IS_STATEFUL` is `"true"`. The empty value and every other value give false. |
| State.IsStateless | internal/app/module/state.go:30-32 | Stateless mode is always the negation of stateful mode, so it holds exactly when the value is not `"true"`. |
| State.Get | internal/app/module/state.go:56-66 | An absent or empty counter reads as 1. Any non-empty value Atoi accepts reads as its decimal value, including signed and zero-padded numerals such as `+5` or `007`, and the rendering of any integer `v` reads as `v`. A non-empty value that Atoi rejects reads as 0, not 1. |
| State.Change | internal/app/module/state.go:69-71 | The counter reads one more than before, so the first change from an empty store reads 2. No key other than the counter key is added, removed or changed. |
| State.Reset | internal/app/module/state.go:74-76 | The counter reads 1 and holds `"1"`, whatever it held before. No other key is touched. |
| State.HostUp | internal/app/module/state.go:79-83 | The host's flag reads up, and no key other than that host's flag key is touched. |
| State.HostDown | internal/app/module/state.go:86-90 | The host's flag reads down, and no key other than that host's flag key is touched. |
| State.AllUp | internal/app/module/state.go:93-95 | The fleet flag reads up, and no key other than the fleet key is touched. |
| State.AllDown | internal/app/module/state.go:98-100 | The fleet flag reads down, and no key other than the fleet key is touched. |
| State.IsDown | internal/app/module/state.go:103-114 | The host is down exactly when its own flag or the fleet flag is `"down"`. Absent, `"up"` and any other value count as not down. |
| State.IsDownIsVerdict | internal/app/module/state.go:103-114 | The verdict depends only on the two flags in the host's view. |
| State.GetIgnoresOtherKeys | internal/app/module/state.go:57 | A write to any key other than the counter key leaves `Get` unchanged. |
| State.FlagsIgnoreOtherKeys | internal/app/module/state.go:106-107 | A write to any key other than the host's flag key and the fleet key leaves both flags and the verdict unchanged. |
| State.ApplyRefinesStep | internal/app/module/state.go:69-100 | For the host it runs for, each of the six operations changes the view exactly as the reference step does. The counter and the two flags move independently. |
| State.HostWritesAreLocal | internal/app/module/state.go:78-90 | Marking one host up or down changes nothing another host can observe. |
| State.SharedWritesAreGlobal | internal/app/module/state.go:69-100 | Counter writes and fleet writes change every host's view, not just the writer's, by the same reference step. |
| State.WritesIdempotent | internal/app/module/state.go:74-100 | Applying `Reset` or any of the four flag writes twice gives the same store as applying it once. |
| State.ChangeTwice | internal/app/module/state.go:69-71 | `Change` is not idempotent: two calls advance the counter by two. |
| State.FleetDownShadows | internal/app/module/state.go:103-114 | While the fleet flag is down, every operation except `AllUp` leaves every host down, including `HostUp`. |
| State.FleetUpKeepsHostDown | internal/app/module/state.go:93-114 | `AllUp` does not bring a host marked down back up. |
| Toad.Health | toad.go:98-123 | `/_health` answers 200 exactly when the mode is stateless, or when `Init` succeeds and the host is not down. A 200 always carries `"ok"`. Every other answer is 503: the connection error if `Init` failed, and `"down"` if the host is down. |
| Toad.HealthStatelessIgnoresStore | toad.go:98-103 | In stateless mode the health answer does not depend on `Init`, the store or the host. |
| Toad.HealthInitFailureIgnoresStore | toad.go:105-112 | When `Init` fails, the health answer does not depend on the store or the host, so the verdict is never consulted. |
| Toad.ActionNames | toad.go:176-198 | Each of the six action names selects its own operation, and a name selects an operation only if it is that operation's name. |
| Toad.RunNamed | toad.go:176-198 | The six `if name == ...` tests in a row apply exactly the one operation the name selects, or none for any other name. |
| Toad.Do | toad.go:158-202 | Stateless mode gives 400 and `Init` failure gives 503, and both leave the store unchanged. Otherwise the selected operation is applied and the answer is 200 with the new store's `Get`. An answer other than 200 never comes with a changed store. |
| Toad.ReplayGeneration | toad.go:176-202 | In stateful mode with a reachable store, a series of `/do` requests leaves the generation predicted by counting its `change` and `reset` names. |
| Toad.ReplayRejectedLeavesStore | toad.go:158-174 | In stateless mode, or when `Init` fails, no series of `/do` requests changes the store. |
| Toad.HealthProbe | toad.go:44-62 | `--get health` prints `i am ok` exactly when `/_health` would answer 200. Otherwise it panics with the connection error, or with `I am not ok` when the host is down. |
| Toad.ThreeChangesFromEmpty | toad.go:176-202 | Starting from an empty store, three `change` requests answer 2, 3 and 4. |
| Toad.HostDownThenHealth | toad.go:114-119 | Starting from an empty store, `host_down` followed by `/_health` answers 503 `"down"`. |
| Toad.HostUpThenFleetDown | internal/app/module/state.go:78-114 | Marking a host up and then the fleet down leaves the host down. |
| Toad.GetOddValues | internal/app/module/state.go:56-66 | A stored `abc` reads as 0, a stored `-3` reads as -3, a stored `+007` reads as 7, and a stored empty string reads as 1. |

## Left out

- The Redis client, its connection, `Ping` and network errors: `Init` is a boolean outcome passed to each handler.
- `os.Getenv` and `os.Hostname`: the `IS_STATEFUL` value and the host name are parameters. They are read on every call, as in the source.
- Decimal.ParseDecimal: `strconv.Atoi`'s 64-bit range errors are not modelled. Integers are unbounded, so the value Atoi clamps to on overflow, which `Get` would return, does not appear. Atoi also stops at the first digit that overflows and reports the range error without looking at the rest of the string. So a value such as `99999999999999999999x` reads as the maximum 64-bit integer in Go, but the model rejects it and reads 0.
- State.Change: Go's `int` is 64 bits, so `Get()+1` wraps from the maximum to the minimum 64-bit integer. When the counter reads the maximum, for example after Atoi clamps a stored value of 2^63 or more, Go writes `-9223372036854775808`. The model writes 2^63, and `Get` then reads one more than before. The promise that `Get` advances by exactly one therefore holds for Go only below the 64-bit maximum, and the same limit applies to `State.ChangeTwice` and `Toad.ReplayGeneration`, which build on it.
- Concurrency: `Change` reads and then writes without atomicity, so concurrent requests from several processes can lose increments. The model is single-threaded and serves requests one after another (`Toad.Replay`).
- Gin routing, JSON rendering, the favicon route, and the informational `/` route with its time, host and release string.
- `--get release`, `--port` and starting the HTTP server: these are flag handling and output formatting with no state logic.
- Logrus logging, UUID correlation IDs and time formatting.
