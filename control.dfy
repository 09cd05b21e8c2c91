/**
 * One iteration of the control loop of main.go: a decision cycle as a
 * function of the options and the provider's replies for that tick, and
 * what it promises about exits, continues and upgrades.
 */
module Control {
  import opened Wrappers
  import opened GoValues
  import opened Rdb
  import opened Startup

  /** `uint64(5 * units.GB)`; go-units' GB is decimal, 1000^3 bytes. */
  const DiskSizeIncrement: Uint64 := 5_000_000_000

  /**
   * The provider's replies during one tick: to the metrics query, to the
   * instance fetch of the decision, to the fetch inside ResizeVolume, and
   * to the upgrade. A cycle uses only those it gets to.
   */
  datatype Tick = Tick(
    metrics: Result<InstanceMetrics, ApiError>,
    instance: Result<Instance, ApiError>,
    resizeFetch: Result<Instance, ApiError>,
    upgrade: Result<Instance, ApiError>)

  /** A failure that ends the cycle with `continue`. */
  datatype CycleError =
    | SampleFailed(sampleError: ResizerError)
    | InstanceFetchFailed(fetchError: ApiError)
    | ResizeFailed(resizeError: ResizerError)

  /** A failure that ends the process with `os.Exit(1)`. */
  datatype FatalError =
    | NonResizableVolume(volumeType: VolumeType)
    | OverLimit(targetSize: Uint64)

  datatype Outcome =
    | NoAction                      // usage not over the trigger
    | Resized(targetSize: Uint64)   // the upgrade was accepted
    | Continue(error: CycleError)   // the cycle is abandoned, the loop goes on
    | Fatal(fatal: FatalError)      // the process exits with status 1
    | Panic                         // an index out of range in the metrics check

  datatype CycleResult = CycleResult(calls: seq<Call>, outcome: Outcome)

  /** Outcomes that end the process. */
  predicate Halts(o: Outcome)
  {
    o.Fatal? || o.Panic?
  }

  /** main.go:199: the resize target, uint64 arithmetic that wraps. */
  function TargetSize(current: Uint64): Uint64
  {
    AddUint64(current, DiskSizeIncrement)
  }

  /** main.go:200 lets a target through when `targetSize <= uint64(limit)`. */
  predicate WithinLimit(opts: Options, target: Uint64)
  {
    target <= Uint64Of(opts.volumeSizeLimit)
  }

  /** The sampled usage was read without error and is strictly over the trigger. */
  predicate UsageOverTrigger(opts: Options, ar: AutoResizer, t: Tick)
  {
    var s := GetDiskUsagePercent(ar, t.metrics).result;
    s.Returned? && s.err.None? && Greater(s.value, opts.triggerPercent)
  }

  /** The guards on the fetched instances that an upgrade must pass once usage is over the trigger. */
  predicate InstanceAllowsUpgrade(opts: Options, t: Tick)
  {
    t.instance.Ok? && t.instance.value.volume.volumeType == Bssd &&
    WithinLimit(opts, TargetSize(t.instance.value.volume.size)) &&
    t.resizeFetch.Ok? && Eligible(t.resizeFetch.value.status)
  }

  /** Every guard a tick must pass for the cycle to upgrade the volume. */
  predicate MayUpgrade(opts: Options, ar: AutoResizer, t: Tick)
  {
    UsageOverTrigger(opts, ar, t) && InstanceAllowsUpgrade(opts, t)
  }

  function UpgradeCall(ar: AutoResizer, size: Uint64): Call
  {
    Call(ar.region, ar.instanceID, UpgradeInstance(size))
  }

  /**
   * main.go:198-228, once a BSSD volume of size `current` is fetched: the
   * target is current plus the increment; over the limit the process exits;
   * otherwise ResizeVolume, whose failure ends the cycle with `continue`.
   */
  function Grow(opts: Options, ar: AutoResizer, t: Tick, current: Uint64): (r: CycleResult)
    ensures forall c :: c in r.calls ==> Addresses(ar, c)
    ensures r.outcome.Fatal? <==> !WithinLimit(opts, TargetSize(current))
    ensures r.outcome.Fatal? ==> r == CycleResult([], Fatal(OverLimit(TargetSize(current))))
    // an upgrade is asked for exactly when the target is within the limit and the status eligible
    ensures Upgrades(r.calls) <==>
              WithinLimit(opts, TargetSize(current)) && t.resizeFetch.Ok? && Eligible(t.resizeFetch.value.status)
    ensures forall i :: 0 <= i < |r.calls| - 1 ==> !r.calls[i].op.UpgradeInstance?
    ensures Upgrades(r.calls) ==> r.calls[|r.calls| - 1] == UpgradeCall(ar, TargetSize(current))
    ensures r.outcome.Resized? <==> Upgrades(r.calls) && t.upgrade.Ok?
    ensures r.outcome.Resized? ==> r.outcome.targetSize == TargetSize(current)
    ensures Upgrades(r.calls) && t.upgrade.Err? ==> r.outcome == Continue(ResizeFailed(Api(t.upgrade.error)))
    ensures WithinLimit(opts, TargetSize(current)) && t.resizeFetch.Err? ==>
              r.outcome == Continue(ResizeFailed(Api(t.resizeFetch.error)))
    ensures WithinLimit(opts, TargetSize(current)) && t.resizeFetch.Ok? && !Eligible(t.resizeFetch.value.status) ==>
              r.outcome == Continue(ResizeFailed(NotReady(t.resizeFetch.value.status)))
    ensures !r.outcome.NoAction? && !r.outcome.Panic?
  {
    var targetSize := AddUint64(current, DiskSizeIncrement);
    if targetSize > Uint64Of(opts.volumeSizeLimit) then
      CycleResult([], Fatal(OverLimit(targetSize)))
    else
      var resize := ResizeVolume(ar, t.resizeFetch, t.upgrade, targetSize);
      match resize.result
      case Err(e) => CycleResult(resize.calls, Continue(ResizeFailed(e)))
      case Ok(_) => CycleResult(resize.calls, Resized(targetSize))
  }

  /**
   * A cycle's calls after a first call that is not an upgrade: the calls
   * make an upgrade exactly when the rest does, and it is still the last.
   */
  lemma UpgradesAfterFirst(calls: seq<Call>)
    requires |calls| >= 1 && !calls[0].op.UpgradeInstance?
    requires var rest := calls[1..]; forall i :: 0 <= i < |rest| - 1 ==> !rest[i].op.UpgradeInstance?
    ensures Upgrades(calls) <==> Upgrades(calls[1..])
    ensures forall i :: 0 <= i < |calls| - 1 ==> !calls[i].op.UpgradeInstance?
    ensures |calls| >= 2 ==> calls[|calls| - 1] == calls[1..][|calls| - 2]
  {
    var rest := calls[1..];
    assert forall i :: 1 <= i < |calls| ==> calls[i] == rest[i - 1];
    if Upgrades(calls) {
      var u :| u in calls && u.op.UpgradeInstance?;
      assert u in rest;
    }
    if Upgrades(rest) {
      var u :| u in rest && u.op.UpgradeInstance?;
      assert u in calls;
    }
  }

  /**
   * main.go:176-228, what a cycle does once usage is over the trigger:
   * fetch the instance again, exit if its volume is not BSSD, and Grow
   * otherwise. A fetch error ends the cycle with `continue`.
   */
  function Decide(opts: Options, ar: AutoResizer, t: Tick): (r: CycleResult)
    ensures |r.calls| >= 1 && r.calls[0] == Call(ar.region, ar.instanceID, GetInstance)
    ensures forall c :: c in r.calls ==> Addresses(ar, c)
    ensures t.instance.Err? ==> r == CycleResult(r.calls, Continue(InstanceFetchFailed(t.instance.error))) && |r.calls| == 1
    ensures t.instance.Ok? && t.instance.value.volume.volumeType != Bssd ==>
              r == CycleResult(r.calls, Fatal(NonResizableVolume(t.instance.value.volume.volumeType))) && |r.calls| == 1
    ensures t.instance.Ok? && t.instance.value.volume.volumeType == Bssd ==>
              r.calls[1..] == Grow(opts, ar, t, t.instance.value.volume.size).calls &&
              r.outcome == Grow(opts, ar, t, t.instance.value.volume.size).outcome
    // an upgrade is asked for exactly when every guard holds, at most once, and last
    ensures Upgrades(r.calls) <==> InstanceAllowsUpgrade(opts, t)
    ensures forall i :: 0 <= i < |r.calls| - 1 ==> !r.calls[i].op.UpgradeInstance?
    ensures Upgrades(r.calls) ==> r.calls[|r.calls| - 1] == UpgradeCall(ar, TargetSize(t.instance.value.volume.size))
    ensures r.outcome.Fatal? ==> |r.calls| == 1 && t.instance.Ok?
  {
    var fetch := FetchInstance(ar, t.instance);
    match fetch.result
    case Err(e) => CycleResult(fetch.calls, Continue(InstanceFetchFailed(e)))
    case Ok(instance) =>
      if instance.volume.volumeType != Bssd then
        CycleResult(fetch.calls, Fatal(NonResizableVolume(instance.volume.volumeType)))
      else
        var grow := Grow(opts, ar, t, instance.volume.size);
        var calls := fetch.calls + grow.calls;
        assert calls[1..] == grow.calls;
        UpgradesAfterFirst(calls);
        CycleResult(calls, grow.outcome)
  }

  /**
   * main.go:154-230, the body of one loop iteration: sample usage; a
   * sampling error ends the cycle with `continue`; unless usage is strictly
   * over the trigger nothing more is done; otherwise Decide.
   */
  function Cycle(opts: Options, ar: AutoResizer, t: Tick): (r: CycleResult)
    ensures |r.calls| >= 1 && r.calls[0] == Call(ar.region, ar.instanceID, GetInstanceMetrics(MetricName))
    ensures forall c :: c in r.calls ==> Addresses(ar, c)
    // below the trigger (ties included) nothing but the sample is asked for
    ensures !UsageOverTrigger(opts, ar, t) ==> |r.calls| == 1 && !Upgrades(r.calls)
  {
    var sampling := GetDiskUsagePercent(ar, t.metrics);
    match sampling.result
    case IndexOutOfRange => CycleResult(sampling.calls, Panic)
    case Returned(v, err) =>
      if err.Some? then
        CycleResult(sampling.calls, Continue(SampleFailed(err.value)))
      else if !Greater(v, opts.triggerPercent) then
        CycleResult(sampling.calls, NoAction)
      else
        var decision := Decide(opts, ar, t);
        var calls := sampling.calls + decision.calls;
        assert calls[1..] == decision.calls;
        UpgradesAfterFirst(calls);
        CycleResult(calls, decision.outcome)
  }

  /**
   * How the sample ends a cycle: a sampling error with `continue`, a usage
   * not strictly over the trigger with no action, an index out of range
   * with a panic.
   */
  lemma CycleSamples(opts: Options, ar: AutoResizer, t: Tick)
    ensures var s := GetDiskUsagePercent(ar, t.metrics).result;
              s.Returned? && s.err.None? && !Greater(s.value, opts.triggerPercent) ==>
                Cycle(opts, ar, t).outcome == NoAction
    ensures var s := GetDiskUsagePercent(ar, t.metrics).result;
              s.Returned? && s.err.Some? ==> Cycle(opts, ar, t).outcome == Continue(SampleFailed(s.err.value))
    ensures GetDiskUsagePercent(ar, t.metrics).result.IndexOutOfRange? ==> Cycle(opts, ar, t).outcome == Panic
  {
  }

  /**
   * A cycle asks for an upgrade exactly when every guard holds, at most
   * once, as its last call, and for the fetched size plus the increment.
   */
  lemma CycleUpgrades(opts: Options, ar: AutoResizer, t: Tick)
    ensures Upgrades(Cycle(opts, ar, t).calls) <==> MayUpgrade(opts, ar, t)
    ensures var calls := Cycle(opts, ar, t).calls;
              forall i :: 0 <= i < |calls| - 1 ==> !calls[i].op.UpgradeInstance?
    ensures var calls := Cycle(opts, ar, t).calls;
              Upgrades(calls) ==> calls[|calls| - 1] == UpgradeCall(ar, TargetSize(t.instance.value.volume.size))
  {
    var r := Cycle(opts, ar, t);
    if UsageOverTrigger(opts, ar, t) {
      CycleDecides(opts, ar, t);
      UpgradesAfterFirst(r.calls);
    } else {
      assert |r.calls| == 1 && !Upgrades(r.calls);
    }
  }

  /** Over the trigger, a cycle is the sample followed by Decide, and ends as Decide does. */
  lemma CycleDecides(opts: Options, ar: AutoResizer, t: Tick)
    requires UsageOverTrigger(opts, ar, t)
    ensures Cycle(opts, ar, t).calls[1..] == Decide(opts, ar, t).calls
    ensures Cycle(opts, ar, t).outcome == Decide(opts, ar, t).outcome
  {
  }

  /**
   * A cycle exits the process only from the decision, after the instance
   * fetch succeeded: when the volume is not BSSD, or when the target is over
   * the limit; in both cases before any resize call.
   */
  lemma CycleFatal(opts: Options, ar: AutoResizer, t: Tick)
    ensures var r := Cycle(opts, ar, t);
      r.outcome.Fatal? <==>
        UsageOverTrigger(opts, ar, t) && t.instance.Ok? &&
        (t.instance.value.volume.volumeType != Bssd || !WithinLimit(opts, TargetSize(t.instance.value.volume.size)))
    ensures var r := Cycle(opts, ar, t);
      r.outcome.Fatal? ==> |r.calls| == 2 && r.calls[1].op == GetInstance && !Upgrades(r.calls)
  {
  }

  /**
   * Failures of the instance fetch, of the fetch inside ResizeVolume, of
   * the status gate and of the upgrade end the cycle with `continue`; when
   * every guard holds and the upgrade succeeds the cycle reports the target.
   */
  lemma CycleContinues(opts: Options, ar: AutoResizer, t: Tick)
    ensures var r := Cycle(opts, ar, t);
      UsageOverTrigger(opts, ar, t) && t.instance.Err? ==>
        r.outcome == Continue(InstanceFetchFailed(t.instance.error)) && |r.calls| == 2
    ensures var r := Cycle(opts, ar, t);
      UsageOverTrigger(opts, ar, t) && t.instance.Ok? && t.instance.value.volume.volumeType == Bssd &&
      WithinLimit(opts, TargetSize(t.instance.value.volume.size)) ==>
        && (t.resizeFetch.Err? ==> r.outcome == Continue(ResizeFailed(Api(t.resizeFetch.error))))
        && (t.resizeFetch.Ok? && !Eligible(t.resizeFetch.value.status) ==>
              r.outcome == Continue(ResizeFailed(NotReady(t.resizeFetch.value.status))))
        && (MayUpgrade(opts, ar, t) && t.upgrade.Err? ==> r.outcome == Continue(ResizeFailed(Api(t.upgrade.error))))
        && (MayUpgrade(opts, ar, t) && t.upgrade.Ok? ==> r.outcome == Resized(TargetSize(t.instance.value.volume.size)))
  {
    if UsageOverTrigger(opts, ar, t) {
      CycleDecides(opts, ar, t);
    }
  }

  /** The upgrade a cycle asked for, if any; it can only be the cycle's last call. */
  function UpgradeOf(c: CycleResult): Option<Call>
  {
    if |c.calls| > 0 && c.calls[|c.calls| - 1].op.UpgradeInstance? then Some(c.calls[|c.calls| - 1]) else None
  }

  /**
   * A cycle asks for an upgrade exactly when every guard holds, and then for
   * the freshly fetched size plus the increment.
   */
  lemma CycleUpgrade(opts: Options, ar: AutoResizer, t: Tick)
    ensures UpgradeOf(Cycle(opts, ar, t)) ==
              if MayUpgrade(opts, ar, t) then Some(UpgradeCall(ar, TargetSize(t.instance.value.volume.size))) else None
  {
    var r := Cycle(opts, ar, t);
    if !MayUpgrade(opts, ar, t) {
      assert !Upgrades(r.calls);
      assert !(r.calls[|r.calls| - 1] in r.calls && r.calls[|r.calls| - 1].op.UpgradeInstance?);
    }
  }

  /**
   * Away from wrap-around and with a positive limit, a cycle whose guards
   * all hold asks for exactly the freshly fetched size plus 5 * 10^9 bytes,
   * and that stays within the limit.
   */
  lemma UpgradeAddsIncrement(opts: Options, ar: AutoResizer, t: Tick)
    requires MayUpgrade(opts, ar, t)
    requires t.instance.value.volume.size + DiskSizeIncrement < TWO_TO_THE_64
    requires opts.volumeSizeLimit > 0
    ensures var r := Cycle(opts, ar, t);
              Upgrades(r.calls) &&
              r.calls[|r.calls| - 1].op.volumeSize == t.instance.value.volume.size + 5_000_000_000 <= opts.volumeSizeLimit
  {
    CycleUpgrades(opts, ar, t);
  }

  /**
   * The size decision as evidently intended: the target is the current
   * size plus the increment, computed without wrapping, and it is refused
   * when it would exceed the limit.
   */
  function CheckedTarget(opts: Options, current: Uint64): (r: Option<Uint64>)
    ensures r.Some? <==> current + DiskSizeIncrement <= opts.volumeSizeLimit
    ensures r.Some? ==> r.value > current && r.value - current == DiskSizeIncrement
  {
    if current + DiskSizeIncrement <= opts.volumeSizeLimit then Some(current + DiskSizeIncrement) else None
  }

  /** Where the sum does not wrap and the limit is not negative, the code's decision is the intended one. */
  lemma CheckedTargetAgrees(opts: Options, current: Uint64)
    requires current + DiskSizeIncrement < TWO_TO_THE_64 && opts.volumeSizeLimit >= 0
    ensures CheckedTarget(opts, current) ==
              if WithinLimit(opts, TargetSize(current)) then Some(TargetSize(current)) else None
  {
  }

  /**
   * As written, a reported size of 2^64 - 1 passes the preflight (the
   * signed cast reads it as -1) and, once usage is over the trigger, the
   * wrapped target 4999999999 passes the limit test: the cycle asks the
   * provider to set the volume far below its current size. The intended
   * decision refuses it.
   */
  lemma TargetWrapAsWritten(opts: Options, ar: AutoResizer, t: Tick)
    requires opts.volumeSizeLimit >= 4_999_999_999
    requires t.instance.Ok? && t.instance.value.volume == Volume(Bssd, TWO_TO_THE_64 - 1)
    requires UsageOverTrigger(opts, ar, t)
    requires t.resizeFetch.Ok? && Eligible(t.resizeFetch.value.status)
    ensures Preflight(opts, ar, t.instance).result.None?
    ensures var r := Cycle(opts, ar, t);
              Upgrades(r.calls) &&
              r.calls[|r.calls| - 1].op.volumeSize == 4_999_999_999 < t.instance.value.volume.size
    ensures CheckedTarget(opts, t.instance.value.volume.size).None?
  {
  }

  /** With a NaN trigger no usage is ever over it, so no cycle goes past the sample. */
  lemma NaNTriggerNeverFires(opts: Options, ar: AutoResizer, t: Tick)
    requires opts.triggerPercent.NaN?
    ensures !MayUpgrade(opts, ar, t) && |Cycle(opts, ar, t).calls| == 1
  {
  }
}
