/**
 * What happens before the control loop (main.go): validating the two
 * options, and the one-time preflight check of the instance.
 */
module Startup {
  import opened Wrappers
  import opened GoValues
  import opened Rdb

  /**
   * The two flags after the library parsers have run: None when
   * strconv.ParseFloat or units.FromHumanSize reported an error.
   */
  datatype Flags = Flags(triggerPercent: Option<Float>, volumeSizeLimit: Option<Int64>)

  /** The validated configuration; it is never changed after startup. */
  datatype Options = Options(triggerPercent: Float, volumeSizeLimit: Int64)

  datatype ConfigError =
    | InvalidTriggerPercent   // the trigger did not parse as a float
    | TriggerOutOfRange       // "trigger percent must be between 80 and 100"
    | InvalidVolumeSizeLimit  // the limit did not parse as a size
    | ZeroLimit               // "limit is ZERO, no resize can happen"

  /** True when the trigger is a number in [80, 100). */
  predicate TriggerInRange(t: Float)
  {
    t.Finite? && 80.0 <= t.r < 100.0
  }

  /**
   * main.go:52-76, as written: the range test rejects a trigger that is
   * `>= 100 || < 80`, which lets NaN through since both comparisons are
   * false for it. The errors are reported in the order the code checks.
   */
  function ParseOptions(f: Flags): (r: Result<Options, ConfigError>)
    ensures r.Ok? <==>
              f.triggerPercent.Some? && f.volumeSizeLimit.Some? &&
              (TriggerInRange(f.triggerPercent.value) || f.triggerPercent.value.NaN?) &&
              f.volumeSizeLimit.value != 0
    ensures r.Ok? ==> r.value == Options(f.triggerPercent.value, f.volumeSizeLimit.value)
    ensures f.triggerPercent.None? ==> r == Err(InvalidTriggerPercent)
    ensures f.triggerPercent.Some? && !TriggerInRange(f.triggerPercent.value) && !f.triggerPercent.value.NaN? ==>
              r == Err(TriggerOutOfRange)
    ensures r == Err(InvalidVolumeSizeLimit) ==> f.volumeSizeLimit.None?
    // once the trigger passed, the limit's parse error comes before its zero check
    ensures f.triggerPercent.Some? && (TriggerInRange(f.triggerPercent.value) || f.triggerPercent.value.NaN?) ==>
              (f.volumeSizeLimit.None? ==> r == Err(InvalidVolumeSizeLimit)) &&
              (f.volumeSizeLimit == Some(0) ==> r == Err(ZeroLimit))
  {
    match f.triggerPercent
    case None => Err(InvalidTriggerPercent)
    case Some(triggerPercent) =>
      if AtLeast(triggerPercent, Finite(100.0)) || Less(triggerPercent, Finite(80.0)) then
        Err(TriggerOutOfRange)
      else
        match f.volumeSizeLimit
        case None => Err(InvalidVolumeSizeLimit)
        case Some(volumeSizeLimit) =>
          if volumeSizeLimit == 0 then Err(ZeroLimit)
          else Ok(Options(triggerPercent, volumeSizeLimit))
  }

  /**
   * The trigger test as evidently intended: accept only when
   * `80 <= t && t < 100`, which is false for NaN.
   */
  function ParseOptionsChecked(f: Flags): (r: Result<Options, ConfigError>)
    ensures r.Ok? <==>
              f.triggerPercent.Some? && f.volumeSizeLimit.Some? &&
              TriggerInRange(f.triggerPercent.value) && f.volumeSizeLimit.value != 0
    ensures r.Ok? ==> r.value == Options(f.triggerPercent.value, f.volumeSizeLimit.value)
  {
    match f.triggerPercent
    case None => Err(InvalidTriggerPercent)
    case Some(triggerPercent) =>
      if !(AtLeast(triggerPercent, Finite(80.0)) && Less(triggerPercent, Finite(100.0))) then
        Err(TriggerOutOfRange)
      else
        match f.volumeSizeLimit
        case None => Err(InvalidVolumeSizeLimit)
        case Some(volumeSizeLimit) =>
          if volumeSizeLimit == 0 then Err(ZeroLimit)
          else Ok(Options(triggerPercent, volumeSizeLimit))
  }

  /** The two validations differ only on a NaN trigger. */
  lemma ParseOptionsAgreeUnlessNaN(f: Flags)
    requires f.triggerPercent.Some? ==> !f.triggerPercent.value.NaN?
    ensures ParseOptions(f) == ParseOptionsChecked(f)
  {
  }

  /** The as-written validation accepts a NaN trigger; the corrected one refuses it. */
  lemma NaNTriggerAccepted(limit: Int64)
    requires limit != 0
    ensures ParseOptions(Flags(Some(NaN), Some(limit))) == Ok(Options(NaN, limit))
    ensures ParseOptionsChecked(Flags(Some(NaN), Some(limit))) == Err(TriggerOutOfRange)
  {
  }

  datatype PreflightError =
    | FetchFailed(cause: ApiError)
    | UnsupportedVolumeType(volumeType: VolumeType)
    | SizeAtLimit  // "current volume size is larger than the defined limit"

  /**
   * main.go:120-146: fetch the instance, require a BSSD volume, and require
   * `int64(size) < limit`. The signed cast makes a size of 2^63 or more
   * look negative. Any error makes main exit with status 1 (main.go:147-150).
   */
  function Preflight(opts: Options, ar: AutoResizer, reply: Result<Instance, ApiError>): (r: Step<Option<PreflightError>>)
    ensures r.calls == [Call(ar.region, ar.instanceID, GetInstance)]
    ensures r.result.None? <==>
              reply.Ok? && reply.value.volume.volumeType == Bssd &&
              Int64Of(reply.value.volume.size) < opts.volumeSizeLimit
    ensures reply.Ok? && reply.value.volume.size < TWO_TO_THE_63 ==>
              (r.result.None? <==> reply.value.volume.volumeType == Bssd && reply.value.volume.size < opts.volumeSizeLimit)
    ensures reply.Err? ==> r.result == Some(FetchFailed(reply.error))
    ensures reply.Ok? && reply.value.volume.volumeType != Bssd ==>
              r.result == Some(UnsupportedVolumeType(reply.value.volume.volumeType))
    ensures reply.Ok? && reply.value.volume.volumeType == Bssd && Int64Of(reply.value.volume.size) >= opts.volumeSizeLimit ==>
              r.result == Some(SizeAtLimit)
  {
    var fetch := FetchInstance(ar, reply);
    match fetch.result
    case Err(e) => Step(fetch.calls, Some(FetchFailed(e)))
    case Ok(instance) =>
      if instance.volume.volumeType != Bssd then
        Step(fetch.calls, Some(UnsupportedVolumeType(instance.volume.volumeType)))
      else if Int64Of(instance.volume.size) >= opts.volumeSizeLimit then
        Step(fetch.calls, Some(SizeAtLimit))
      else
        Step(fetch.calls, None)
  }

  /** A BSSD volume exactly at the limit fails the preflight. */
  lemma PreflightRefusesSizeAtLimit(opts: Options, ar: AutoResizer, i: Instance)
    requires i.volume.volumeType == Bssd && i.volume.size == opts.volumeSizeLimit
    ensures Preflight(opts, ar, Ok(i)).result == Some(SizeAtLimit)
  {
  }
}
