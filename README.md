# rdb-autoresize: the resize decision, modelled in Dafny

rdb-autoresize is a small Go daemon. It watches one Scaleway managed database
(RDB) instance and grows the instance's storage volume before the disk fills up.
At startup it validates two options: a trigger percentage and a volume size
limit. It then checks once that the instance has a BSSD volume smaller than
the limit. After that it loops forever. Each cycle samples the
`disk_usage_percent` metric. When usage is strictly above the trigger, the
cycle fetches the instance again, checks that the volume is still BSSD, and
computes the target as the current size plus a fixed 5 GB (5·10^9 bytes). If
the target is over the limit, the process exits. Otherwise the cycle calls the
resizer's `ResizeVolume`. It fetches the instance a third time and asks the
provider for the upgrade only while that status is `ready` or `disk_full`.

This project models that decision and guard logic and proves what it
guarantees:

- `go_values.dfy` (`GoValues`) defines Go's fixed-width values. It has uint64
  and int64 with wrap-around and the two casts the code uses. It also has
  float64 as its comparison operators see it: finite values, the two
  infinities and NaN, without modelling rounding.
- `rdb.dfy` (`Rdb`) covers `rdb.go`. The `AutoResizer` is a value that holds a
  region and an instance ID. Every method has a value receiver, so nothing
  can change these fields after `NewAutoResizer`. The provider is not
  modelled. Each of its replies (a value or an error) is a parameter, and each
  operation returns the provider calls it made together with its result.
- `startup.dfy` (`Startup`) covers `parseOptions` and the preflight closure in
  `main.go`.
- `control.dfy` (`Control`) covers one iteration of the control loop as the
  function `Cycle`. Two helpers break it down: `Decide` is the part after the
  trigger test, and `Grow` is the size-limit test and the resize. The file
  also proves lemmas about the cycle's outcomes.
- `process.dfy` (`Process`) covers the loop over a finite sequence of ticks.
  `Replay`/`Loop` specify it as functions, and the method `ControlLoop`
  implements it. `ControlLoop` appends every upgrade it requests to a trace
  and stops at the first exit or panic. The proved promise `Sound` says four
  things:
  - every traced upgrade passed every guard of its tick;
  - every traced upgrade requested the freshly fetched size plus the increment,
    summed as Go's uint64 does (wrapping modulo 2^64);
  - there is at most one upgrade per tick;
  - every tick whose guards all held is traced.

  `Run` composes option parsing, the preflight and the loop.
- `scenarios.dfy` (`Scenarios`) works through cycles with concrete numbers.
  The trigger is 90 %, the limit is 100 GB and the increment is 5 GB.

The failure policy is the code's:

- Fatal (`os.Exit(1)`): a non-BSSD volume at decision time, or a target over
  the limit.
- Recoverable (`continue`): a sampling error, an instance-fetch error, an
  ineligible status, or an upgrade error.

Three consequences of the code as written:

- A wrong metrics shape is not always a recoverable error. The `&&` test at
  rdb.go:57 behaves as follows:
  - it panics when there is no series;
  - it panics when there is one series with no point;
  - it accepts a single series with several points;
  - it accepts several series when the first one holds exactly one point.
- A non-BSSD volume at decision time and an over-limit target end the
  process. An ineligible status only ends the cycle. `ResizeVolume` checks
  that status on its own fetch of the instance.
- Besides startup failures and fatal decisions, the process also ends on
  that index-out-of-range panic. The model records this as the outcome
  `Panic`.

## Model

| member | source | states |
|---|---|---|
| GoValues.AddUint64 | main.go:199 | The uint64 sum equals the mathematical sum exactly when it does not overflow, it is congruent to it modulo 2^64, and it is smaller than the first operand exactly when it wrapped |
| GoValues.Int64Of | main.go:142 | `int64(size)` keeps sizes below 2^63, makes every size from 2^63 on negative, and converts back to the same uint64 |
| GoValues.Uint64Of | main.go:200 | `uint64(limit)` keeps a non-negative limit and sends a negative one to 2^63 or above |
| GoValues.Less | main.go:62 | Go's float64 `<`: false whenever either side is NaN; on finite values the real `<`; +Inf is above and −Inf below every other non-NaN value |
| GoValues.Greater | main.go:169 | Go's float64 `>`: false whenever either side is NaN; on finite values the real `>`; off NaN it holds exactly when the operands differ and `<` does not |
| GoValues.AtLeast | main.go:62 | Go's float64 `>=`: `>` or equal and not NaN, so false whenever either side is NaN; on finite values the real `>=` |
| GoValues.NaNUnordered | main.go:62 | NaN is unordered: `<`, `>` and `>=` with NaN on either side are all false |
| GoValues.FiniteCompare | main.go:169 | On finite values, `<`, `>` and `>=` are the mathematical comparisons |
| Rdb.NewAutoResizer | rdb.go:11-17 | The resizer holds exactly the region and instance ID it was built with |
| Rdb.FetchInstance | rdb.go:25-30 | One GetInstance call, addressed to the resizer's own region and instance, whose reply is returned unchanged |
| Rdb.ResizeVolume | rdb.go:32-45 | The instance is fetched first. A fetch error is returned and no upgrade is made. A status other than ready or disk_full returns NotReady and no upgrade is made. Otherwise exactly one UpgradeInstance call is made, last, carrying the resizer's region and ID and exactly `newSize`. The result is Ok exactly when the status is eligible and the upgrade succeeded, and an upgrade error is returned as it came |
| Rdb.GetDiskUsagePercent | rdb.go:47-61 | One metrics call for `disk_usage_percent`. A fetch error is returned with value 0. One series with one point returns that point. It panics exactly on zero series, or on one series with no point. It reports "malformed output" exactly when there are several series and the first does not hold one point. It returns a value without an error exactly when there is at least one series, the first holds at least one point, and either there is one series or the first holds exactly one point. That value is the first point of the first series. Whenever an error is returned, the value is 0 |
| Rdb.GetDiskUsagePercentChecked | rdb.go:57-59 | With `\|\|` instead of `&&`, it never panics, and it returns a value without an error exactly for one series holding one point |
| Rdb.ShapeDisagreement | rdb.go:57-60 | The as-written and the corrected shape checks give the same result exactly on fetch errors, on well-formed replies, and on several series whose first does not hold one point |
| Rdb.ShapeCheckAsWritten | rdb.go:57-60 | As written, no series panics, one series without points panics, and two series return the first one's point with no error |
| Startup.ParseOptions | main.go:52-76 | It succeeds exactly when both flags parsed, the trigger is in [80, 100) or is NaN, and the limit is non-zero, and it then returns them unchanged. The errors follow the code's order: trigger parse, range, limit parse, zero limit |
| Startup.ParseOptionsChecked | main.go:62-64 | The intended range test succeeds exactly when the trigger is a number in [80, 100) and the limit is non-zero |
| Startup.ParseOptionsAgreeUnlessNaN | main.go:62-64 | The as-written and the intended validations agree on every input except a NaN trigger |
| Startup.NaNTriggerAccepted | main.go:54-64 | A NaN trigger with a non-zero limit passes `parseOptions`, and the intended test refuses it |
| Startup.Preflight | main.go:120-146 | One GetInstance call. It passes exactly when the fetch succeeded, the volume is BSSD and `int64(size) < limit`. For sizes below 2^63 that means size < limit. A fetch error, a non-BSSD volume and a BSSD volume with `int64(size) >= limit` are each reported as such |
| Startup.PreflightRefusesSizeAtLimit | main.go:142-144 | A BSSD volume whose size equals the limit fails the preflight |
| Control.Grow | main.go:198-228 | It exits with OverLimit(target) exactly when current + 5·10^9 (uint64) exceeds `uint64(limit)`, and then makes no call. It requests an upgrade exactly when the target is within the limit and the freshly fetched status is eligible. The upgrade is the last call and carries the target. The result is Resized(target) exactly when the upgrade succeeded. Every other failure is `continue` with the cause |
| Control.Decide | main.go:176-207 | The instance is fetched first. A fetch error means `continue` with one call. A non-BSSD volume means exit with NonResizableVolume before any resize call. A BSSD volume goes on to Grow. It requests an upgrade exactly when every instance guard holds, at most once and last, for the fetched size plus the increment as a wrapping uint64 sum |
| Control.Cycle | main.go:156-230 | The first call is the metrics sample, and every call addresses the resizer's instance. When usage is not strictly over the trigger (ties included), the sample is the only call and no upgrade is made |
| Control.CycleSamples | main.go:157-172 | A sampling error ends the cycle with `continue`, a usage not strictly over the trigger with no action, and an index out of range with a panic |
| Control.CycleUpgrades | main.go:169-218 | A cycle requests an upgrade exactly when every guard holds: usage over the trigger, fetch succeeded, BSSD, target within the limit, eligible status. It is requested at most once, as the last call, for the fetched size plus the increment as a wrapping uint64 sum |
| Control.CycleDecides | main.go:169-229 | Over the trigger, a cycle's calls after the sample, and its outcome, are Decide's |
| Control.CycleFatal | main.go:190-207 | A cycle exits exactly when usage is over the trigger, the fetch succeeded, and either the volume is not BSSD or the target is over the limit. An exiting cycle makes exactly two calls (sample, fetch) and no upgrade |
| Control.CycleContinues | main.go:176-228 | Instance-fetch errors, resize-fetch errors, ineligible statuses and upgrade errors end the cycle with `continue` and never an exit. Success reports Resized of the wrapping uint64 sum current + increment |
| Control.CycleUpgrade | main.go:199-218 | The upgrade a cycle makes (its last call) is exactly UpgradeCall of the wrapping uint64 sum current + increment when every guard holds, and there is none otherwise |
| Control.UpgradeAddsIncrement | main.go:199 | Without wrap-around and with a positive limit, a cycle whose guards all hold issues an upgrade for exactly the fetched size plus 5 000 000 000 bytes, and that is at most the limit |
| Control.CheckedTarget | main.go:199-200 | The intended decision yields a target exactly when current + increment ≤ limit, and the target then exceeds current by exactly the increment |
| Control.CheckedTargetAgrees | main.go:199-200 | Without overflow and with a non-negative limit, the code's wrapped target and limit test decide exactly as the intended decision does |
| Control.TargetWrapAsWritten | main.go:199-200 | A reported size of 2^64 − 1 passes the preflight. The cycle then requests an upgrade to 4 999 999 999 bytes, which is below the current size, and the intended decision refuses it |
| Control.NaNTriggerNeverFires | main.go:169 | With a NaN trigger, no cycle goes past the sample and none requests an upgrade |
| Process.ReplayStopsAtFirstHalt | main.go:155-230 | The loop consumes ticks up to and including the first exit or panic, or all of them. The recorded halt is that cycle's outcome, and no earlier cycle halted |
| Process.ReplayEntriesAreUpgrades | main.go:155-230 | Each trace entry is the upgrade that its tick's cycle made, for a consumed tick. Entries are in strictly increasing tick order |
| Process.ReplayTracesEveryUpgrade | main.go:155-230 | Every consumed cycle that made an upgrade has a trace entry |
| Process.HaltIsFinal | main.go:195-206 | After the process exits, later ticks change nothing |
| Process.LoopStopsAtFirstHalt | main.go:190-207 | On ticks, the loop stops at the first fatal or panicking cycle and at no other |
| Process.LoopTraceGuarded | main.go:169-218 | Every traced upgrade came from a tick where usage was over the trigger, the fetched volume was BSSD, the uint64 sum current + increment (wrapping) was within `uint64(limit)` and the status was eligible. It asked for exactly that wrapped target. There is at most one per tick |
| Process.LoopTraceComplete | main.go:169-218 | Every consumed tick whose guards all held is in the trace |
| Process.LoopSound | main.go:155-230 | The loop keeps all the promises above together |
| Process.ControlLoop | main.go:154-230 | The loop method returns exactly the specified run, and that run is Sound |
| Process.Run | main.go:95-231 | A config or preflight error exits with status 1 before any tick and with no upgrade. Otherwise the run is the Sound loop run. Once the command line is parsed, the process only ever ends by exit status 1 or by a panic |
| Process.NaNTriggerNeverResizes | main.go:169 | With the NaN trigger that option parsing accepts, the loop never requests an upgrade |
| Scenarios.GrowsByOneIncrement | main.go:169-218 | 95 % used on 80 GB with a 90 % trigger and 100 GB limit gives an upgrade to exactly 85 GB |
| Scenarios.OverLimitIsFatal | main.go:199-207 | 95 % used on 97 GB gives a 102 GB target, an exit, and no upgrade |
| Scenarios.BelowTriggerDoesNothing | main.go:169 | 88 % used means no action and no call besides the sample, whatever the size |
| Scenarios.PreflightAtLimit | main.go:142-144 | A 100 GB volume with a 100 GB limit fails the preflight |
| Scenarios.BackupInProgressContinues | rdb.go:37-39 | 99 % used while the status is backuping gives NotReady and `continue`, with no upgrade |

## Findings

| source | as written | input that shows it | evidently intended | confidence | as-written member | corrected member |
|---|---|---|---|---|---|---|
| rdb.go:57 | `len(Timeseries) != 1 && len(Timeseries[0].Points) != 1` | a reply with no series (index panic at `Timeseries[0]`), or two series whose first holds one point (accepted, no error) | `\|\|`: anything but one series holding one point is "malformed output" | high; not executed | Rdb.ShapeCheckAsWritten | Rdb.GetDiskUsagePercentChecked |
| main.go:62 | `triggerPercent >= 100 \|\| triggerPercent < 80` | trigger flag `NaN`, which `strconv.ParseFloat` accepts: both comparisons are false, so it passes, and then `v > NaN` never holds and the volume is never grown | accept only when `80 <= t && t < 100` | medium; not executed | Startup.NaNTriggerAccepted | Startup.ParseOptionsChecked |
| main.go:199 | `uint64(instance.Volume.Size) + diskSizeIncrement`, after the preflight's `int64(size) >= limit` | a reported size of 2^64 − 1: the preflight reads it as −1 and passes, the target wraps to 4 999 999 999 and passes the limit test, and the upgrade would shrink the volume | target = current + increment without wrap-around, refused above the limit | low (needs an implausible reported size); not executed | Control.TargetWrapAsWritten | Control.CheckedTarget |

The control loop (`Cycle`, `ControlLoop`) follows the code as written, so
these findings are stated about the code's actual behaviour. Three lemmas
relate each corrected member to the code, each on a stated domain:

- `Rdb.ShapeDisagreement` gives the exact set of replies on which the two
  shape checks agree: fetch errors, well-formed replies, and several series
  whose first does not hold one point. They differ on every other reply,
  including one series with no point or with several points.
- `Startup.ParseOptionsAgreeUnlessNaN` shows that the two validations agree
  on every input whose trigger is not NaN.
- `Control.CheckedTargetAgrees` shows that the two size decisions agree
  whenever the sum does not wrap and the limit is not negative.

## Left out

- `debug.go` (`loggingTransport`): it only dumps HTTP requests and responses
  to the log.
- `flag.Parse` (main.go:96): a malformed command line makes the flag package
  print usage and exit on its own before any modelled step. `Run` starts from
  the flags as parsed, so `Process.Run` says nothing about that exit.
- `setupLogging` and every `slog` call: logging is a side channel and changes
  no decision.
- `makeAutoResizer`, `GetenvDefault` and the SDK client construction: they
  read credentials and environment variables. The exit when the client cannot
  be created (main.go:113-117) is not modelled. `Run` takes the region and
  instance ID directly.
- The Scaleway SDK calls `GetInstance`, `GetInstanceMetrics` and
  `UpgradeInstance`: these are network calls. Each reply is a parameter, a
  value or an `ApiError`. Instance fields that are only logged (`id`, `name`,
  `region`) are kept, but nothing depends on them.
- `strconv.ParseFloat` and `units.FromHumanSize`: the model takes their
  results as inputs, with a parse failure as `None`. It admits every float64
  class for the trigger and every int64 for the limit. That includes negative
  limits, which the library parser may never produce. `units.HumanSize` only
  formats log text.
- float64 rounding, and the float32-to-float64 conversion of the metric
  value: only comparisons are modelled, with NaN and the infinities.
- `queryTimeout`, `context.WithTimeout`, `loopInterval` and `time.NewTicker`:
  timing and cancellation are not modelled. A timed-out call is an
  `ApiError` reply, and the ticks are a finite sequence. `ControlLoop` covers
  any finite prefix of the infinite loop.
- The exit status of a Go panic: the model records that the process ended
  with `Panic`/`Panicked` and does not give a status code.
