/**
 * The resizer's view of a managed database instance (rdb.go): an
 * AutoResizer bound to one region and instance ID, and its three
 * operations over the provider API. The provider itself is not modelled:
 * each of its replies (a value or an error) is a parameter, and each
 * operation returns the provider calls it made together with its result.
 */
module Rdb {
  import opened Wrappers
  import opened GoValues

  datatype InstanceStatus =
    | Unknown | Ready | Provisioning | Configuring | Deleting | Error
    | Autohealing | Locked | Initializing | DiskFull | Backuping
    | Snapshotting | Restarting

  datatype VolumeType = Lssd | Bssd | Sbs5k | Sbs15k

  /** Volume size is the provider's unsigned 64-bit byte count. */
  datatype Volume = Volume(volumeType: VolumeType, size: Uint64)

  datatype Instance = Instance(
    id: string,
    name: string,
    region: string,
    status: InstanceStatus,
    volume: Volume)

  /** A failure reported by the provider API or its transport; opaque here. */
  datatype ApiError = ApiError(message: string)

  /** The errors the AutoResizer methods return. */
  datatype ResizerError =
    | Api(cause: ApiError)              // propagated provider failure
    | NotReady(status: InstanceStatus)  // "instance is not in a ready state"
    | MalformedOutput                   // "malformed output" from the metrics shape check

  datatype Point = Point(value: Float)
  datatype TimeSeries = TimeSeries(name: string, points: seq<Point>)
  datatype InstanceMetrics = InstanceMetrics(timeseries: seq<TimeSeries>)

  /** What the resizer asks of the provider. */
  datatype Op =
    | GetInstance
    | GetInstanceMetrics(metricName: string)
    | UpgradeInstance(volumeSize: Uint64)

  /** One provider call: the region and instance it addresses, and the operation. */
  datatype Call = Call(region: string, instanceID: string, op: Op)

  /** An operation's provider calls, in order, and its result. */
  datatype Step<T> = Step(calls: seq<Call>, result: T)

  /**
   * The outcome of GetDiskUsagePercent: Go's (float64, error) pair, or the
   * run-time panic of an index out of range.
   */
  datatype Sample = Returned(value: Float, err: Option<ResizerError>) | IndexOutOfRange

  const MetricName: string := "disk_usage_percent"

  /**
   * The AutoResizer value (rdb.go:19-23). Its API client is the provider,
   * which the operations take as replies. Every method has a value
   * receiver, so no operation can change these fields.
   */
  datatype AutoResizer = AutoResizer(region: string, instanceID: string)

  function NewAutoResizer(region: string, instance: string): (ar: AutoResizer)
    ensures ar.region == region && ar.instanceID == instance
  {
    AutoResizer(region, instance)
  }

  /** True when a call addresses the resizer's own region and instance. */
  predicate Addresses(ar: AutoResizer, c: Call)
  {
    c.region == ar.region && c.instanceID == ar.instanceID
  }

  /** The two statuses the provider accepts an upgrade in. */
  predicate Eligible(s: InstanceStatus)
  {
    s == Ready || s == DiskFull
  }

  /** True when some call of `calls` is an upgrade. */
  predicate Upgrades(calls: seq<Call>)
  {
    exists c :: c in calls && c.op.UpgradeInstance?
  }

  /** Propagates a provider failure as a method error. */
  function Lift(reply: Result<Instance, ApiError>): Result<Instance, ResizerError>
  {
    match reply
    case Ok(i) => Ok(i)
    case Err(e) => Err(Api(e))
  }

  /** rdb.go:25-30: fetch the instance the resizer is bound to. */
  function FetchInstance(ar: AutoResizer, reply: Result<Instance, ApiError>): (r: Step<Result<Instance, ApiError>>)
    ensures r.calls == [Call(ar.region, ar.instanceID, GetInstance)]
    ensures r.result == reply
  {
    Step([Call(ar.region, ar.instanceID, GetInstance)], reply)
  }

  /**
   * rdb.go:32-45: fetch the instance afresh, refuse unless its status is
   * ready or disk_full, and otherwise ask the provider to upgrade the volume
   * to `newSize`. `fetched` is the reply to the fetch, `upgraded` the reply
   * the upgrade would get.
   */
  function ResizeVolume(
    ar: AutoResizer,
    fetched: Result<Instance, ApiError>,
    upgraded: Result<Instance, ApiError>,
    newSize: Uint64
  ): (r: Step<Result<Instance, ResizerError>>)
    ensures 1 <= |r.calls| <= 2 && r.calls[0].op == GetInstance
    ensures forall c :: c in r.calls ==> Addresses(ar, c)
    ensures Upgrades(r.calls) <==> fetched.Ok? && Eligible(fetched.value.status)
    ensures Upgrades(r.calls) ==> r.calls[|r.calls| - 1].op == UpgradeInstance(newSize)
    ensures !r.calls[0].op.UpgradeInstance?
    ensures fetched.Err? ==> r.result == Err(Api(fetched.error))
    ensures fetched.Ok? && !Eligible(fetched.value.status) ==> r.result == Err(NotReady(fetched.value.status))
    ensures r.result.Ok? <==> fetched.Ok? && Eligible(fetched.value.status) && upgraded.Ok?
    ensures r.result.Ok? ==> r.result.value == upgraded.value
    ensures fetched.Ok? && Eligible(fetched.value.status) && upgraded.Err? ==> r.result == Err(Api(upgraded.error))
  {
    var fetch := FetchInstance(ar, fetched);
    match fetch.result
    case Err(e) => Step(fetch.calls, Err(Api(e)))
    case Ok(instance) =>
      if instance.status != Ready && instance.status != DiskFull then
        Step(fetch.calls, Err(NotReady(instance.status)))
      else
        var upgrade := Call(ar.region, ar.instanceID, UpgradeInstance(newSize));
        assert (fetch.calls + [upgrade])[1] == upgrade;
        Step(fetch.calls + [upgrade], Lift(upgraded))
  }

  /** The metrics reply has exactly one series holding exactly one point. */
  predicate WellFormed(m: InstanceMetrics)
  {
    |m.timeseries| == 1 && |m.timeseries[0].points| == 1
  }

  /**
   * rdb.go:47-61, as written: a fetch error is returned with value 0; the
   * shape check joins its two tests with `&&`, so zero series panics on
   * `Timeseries[0]`, a single series is never checked (and panics at the
   * final index when it has no point), and several series pass whenever
   * the first holds exactly one point.
   */
  function GetDiskUsagePercent(ar: AutoResizer, reply: Result<InstanceMetrics, ApiError>): (r: Step<Sample>)
    ensures r.calls == [Call(ar.region, ar.instanceID, GetInstanceMetrics(MetricName))]
    ensures reply.Err? ==> r.result == Returned(Finite(0.0), Some(Api(reply.error)))
    ensures reply.Ok? && WellFormed(reply.value) ==>
              r.result == Returned(reply.value.timeseries[0].points[0].value, None)
    ensures r.result.IndexOutOfRange? <==>
              reply.Ok? && (|reply.value.timeseries| == 0 ||
                            (|reply.value.timeseries| == 1 && |reply.value.timeseries[0].points| == 0))
    // "malformed output" is reported on exactly the shapes the `&&` test catches, whatever the value
    ensures (r.result.Returned? && r.result.err == Some(MalformedOutput)) <==>
              reply.Ok? && |reply.value.timeseries| > 1 && |reply.value.timeseries[0].points| != 1
    // a value without error comes back for one series with points, or for several whose first holds one point
    ensures (r.result.Returned? && r.result.err.None?) <==>
              reply.Ok? && |reply.value.timeseries| >= 1 && |reply.value.timeseries[0].points| >= 1 &&
              (|reply.value.timeseries| == 1 || |reply.value.timeseries[0].points| == 1)
    ensures r.result.Returned? && r.result.err.None? ==>
              r.result.value == reply.value.timeseries[0].points[0].value
    // with an error the value is 0
    ensures r.result.Returned? && r.result.err.Some? ==> r.result.value == Finite(0.0)
  {
    var call := Call(ar.region, ar.instanceID, GetInstanceMetrics(MetricName));
    match reply
    case Err(e) => Step([call], Returned(Finite(0.0), Some(Api(e))))
    case Ok(metrics) =>
      var series := metrics.timeseries;
      if |series| != 1 && (|series| == 0 || |series[0].points| != 1) then
        if |series| == 0 then Step([call], IndexOutOfRange)
        else Step([call], Returned(Finite(0.0), Some(MalformedOutput)))
      else if |series[0].points| == 0 then Step([call], IndexOutOfRange)
      else Step([call], Returned(series[0].points[0].value, None))
  }

  /**
   * The shape check as evidently intended, with `||`: anything but exactly
   * one series holding exactly one point is "malformed output".
   */
  function GetDiskUsagePercentChecked(ar: AutoResizer, reply: Result<InstanceMetrics, ApiError>): (r: Step<Sample>)
    ensures r.calls == [Call(ar.region, ar.instanceID, GetInstanceMetrics(MetricName))]
    ensures r.result.Returned?
    ensures r.result.err.None? <==> reply.Ok? && WellFormed(reply.value)
    ensures r.result.err.None? ==> r.result.value == reply.value.timeseries[0].points[0].value
    ensures reply.Err? ==> r.result == Returned(Finite(0.0), Some(Api(reply.error)))
    ensures reply.Ok? && !WellFormed(reply.value) ==> r.result == Returned(Finite(0.0), Some(MalformedOutput))
  {
    var call := Call(ar.region, ar.instanceID, GetInstanceMetrics(MetricName));
    match reply
    case Err(e) => Step([call], Returned(Finite(0.0), Some(Api(e))))
    case Ok(metrics) =>
      var series := metrics.timeseries;
      if |series| != 1 || |series[0].points| != 1 then
        Step([call], Returned(Finite(0.0), Some(MalformedOutput)))
      else
        Step([call], Returned(series[0].points[0].value, None))
  }

  /**
   * Exactly where the two shape checks agree: on fetch errors, on
   * well-formed replies, and on several series whose first does not hold
   * one point. Everywhere else (no series, one series with no point or with
   * several, several series whose first holds one point) they differ.
   */
  lemma ShapeDisagreement(ar: AutoResizer, reply: Result<InstanceMetrics, ApiError>)
    ensures GetDiskUsagePercent(ar, reply) == GetDiskUsagePercentChecked(ar, reply) <==>
              reply.Err? || WellFormed(reply.value) ||
              (|reply.value.timeseries| > 1 && |reply.value.timeseries[0].points| != 1)
  {
  }

  /**
   * The as-written shape check on three malformed replies: no series panics,
   * one series without points panics, and two series are accepted and the
   * first one's point returned.
   */
  lemma ShapeCheckAsWritten(ar: AutoResizer, x: Float, y: Float)
    ensures GetDiskUsagePercent(ar, Ok(InstanceMetrics([]))).result == IndexOutOfRange
    ensures GetDiskUsagePercent(ar, Ok(InstanceMetrics([TimeSeries("a", [])]))).result == IndexOutOfRange
    ensures GetDiskUsagePercent(ar, Ok(InstanceMetrics([TimeSeries("a", [Point(x)]), TimeSeries("b", [Point(y)])]))).result
            == Returned(x, None)
    ensures GetDiskUsagePercentChecked(ar, Ok(InstanceMetrics([]))).result == Returned(Finite(0.0), Some(MalformedOutput))
  {
  }
}
