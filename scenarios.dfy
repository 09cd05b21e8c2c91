/**
 * Worked cycles with concrete numbers: a trigger of 90 %, a limit of
 * 100 GB and the fixed 5 GB increment.
 */
module Scenarios {
  import opened Wrappers
  import opened GoValues
  import opened Rdb
  import opened Startup
  import opened Control

  const GB: nat := 1_000_000_000

  function Opts(): Options
  {
    Options(Finite(90.0), 100 * GB)
  }

  function Resizer(): AutoResizer
  {
    NewAutoResizer("fr-par", "11111111-2222-3333-4444-555555555555")
  }

  function Db(status: InstanceStatus, size: Uint64): Instance
  {
    Instance("11111111-2222-3333-4444-555555555555", "db", "fr-par", status, Volume(Bssd, size))
  }

  /** A metrics reply of one series with one point. */
  function Usage(percent: real): Result<InstanceMetrics, ApiError>
  {
    Ok(InstanceMetrics([TimeSeries(MetricName, [Point(Finite(percent))])]))
  }

  function TickOf(percent: real, status: InstanceStatus, size: Uint64): Tick
  {
    Tick(Usage(percent), Ok(Db(status, size)), Ok(Db(status, size)), Ok(Db(status, TargetSize(size))))
  }

  /** 95 % used on 80 GB: resized to 85 GB. */
  lemma GrowsByOneIncrement()
    ensures Cycle(Opts(), Resizer(), TickOf(95.0, Ready, 80 * GB)).outcome == Resized(85 * GB)
    ensures UpgradeOf(Cycle(Opts(), Resizer(), TickOf(95.0, Ready, 80 * GB))) == Some(UpgradeCall(Resizer(), 85 * GB))
  {
    CycleUpgrade(Opts(), Resizer(), TickOf(95.0, Ready, 80 * GB));
    CycleContinues(Opts(), Resizer(), TickOf(95.0, Ready, 80 * GB));
  }

  /** 95 % used on 97 GB: the 102 GB target is over the limit and the process exits. */
  lemma OverLimitIsFatal()
    ensures Cycle(Opts(), Resizer(), TickOf(95.0, DiskFull, 97 * GB)).outcome == Fatal(OverLimit(102 * GB))
    ensures UpgradeOf(Cycle(Opts(), Resizer(), TickOf(95.0, DiskFull, 97 * GB))).None?
  {
    CycleDecides(Opts(), Resizer(), TickOf(95.0, DiskFull, 97 * GB));
    CycleUpgrade(Opts(), Resizer(), TickOf(95.0, DiskFull, 97 * GB));
  }

  /** 88 % used: nothing but the sample, whatever the size. */
  lemma BelowTriggerDoesNothing(size: Uint64)
    ensures Cycle(Opts(), Resizer(), TickOf(88.0, Ready, size)).outcome == NoAction
    ensures |Cycle(Opts(), Resizer(), TickOf(88.0, Ready, size)).calls| == 1
  {
  }

  /** A volume already at the 100 GB limit fails the preflight. */
  lemma PreflightAtLimit()
    ensures Preflight(Opts(), Resizer(), Ok(Db(Ready, 100 * GB))).result == Some(SizeAtLimit)
  {
  }

  /** 99 % used while a backup runs: the status gate refuses and the loop goes on. */
  lemma BackupInProgressContinues()
    ensures Cycle(Opts(), Resizer(), TickOf(99.0, Backuping, 80 * GB)).outcome
            == Continue(ResizeFailed(NotReady(Backuping)))
    ensures UpgradeOf(Cycle(Opts(), Resizer(), TickOf(99.0, Backuping, 80 * GB))).None?
  {
    CycleContinues(Opts(), Resizer(), TickOf(99.0, Backuping, 80 * GB));
    CycleUpgrade(Opts(), Resizer(), TickOf(99.0, Backuping, 80 * GB));
  }
}
