/**
 * The process of main.go:95-231 over a finite run: option parsing, the
 * preflight, and the control loop driven by a sequence of ticks. The loop
 * keeps no state from one cycle to the next; all it accumulates is the
 * trace of upgrades it asked for, which is what the lemmas here are about.
 */
module Process {
  import opened Wrappers
  import opened GoValues
  import opened Rdb
  import opened Startup
  import opened Control

  /** An upgrade the loop asked for: the tick it happened at and the call. */
  datatype Entry = Entry(tick: nat, call: Call)

  /**
   * The loop after some ticks: the upgrades asked for, the outcome that
   * ended the process (if one did) and the number of ticks consumed.
   */
  datatype LoopState = LoopState(trace: seq<Entry>, halt: Option<Outcome>, consumed: nat)

  /** The loop state after one more cycle, whose result is `c`. */
  function Advance(s: LoopState, c: CycleResult): LoopState
  {
    LoopState(
      s.trace + (if UpgradeOf(c).Some? then [Entry(s.consumed, UpgradeOf(c).value)] else []),
      if Halts(c.outcome) then Some(c.outcome) else None,
      s.consumed + 1)
  }

  /**
   * The loop replayed over the results of its cycles, one after the other,
   * stopping at the first cycle that ends the process.
   */
  function Replay(cycles: seq<CycleResult>): LoopState
    decreases |cycles|
  {
    if |cycles| == 0 then LoopState([], None, 0)
    else
      var before := Replay(cycles[..|cycles| - 1]);
      if before.halt.Some? then before else Advance(before, cycles[|cycles| - 1])
  }

  /** The result of the cycle on each tick; no cycle depends on another. */
  function Cycles(opts: Options, ar: AutoResizer, ticks: seq<Tick>): (r: seq<CycleResult>)
    ensures |r| == |ticks|
    ensures forall i :: 0 <= i < |ticks| ==> r[i] == Cycle(opts, ar, ticks[i])
  {
    seq(|ticks|, i requires 0 <= i < |ticks| => Cycle(opts, ar, ticks[i]))
  }

  /** The control loop run on `ticks`. */
  function Loop(opts: Options, ar: AutoResizer, ticks: seq<Tick>): LoopState
  {
    Replay(Cycles(opts, ar, ticks))
  }

  /**
   * A replay consumed cycles up to the first one that ends the process, or
   * all of them, and the recorded halt is that cycle's outcome.
   */
  ghost predicate ReplayStops(cycles: seq<CycleResult>, s: LoopState)
  {
    && s.consumed <= |cycles|
    && (s.halt.None? ==> s.consumed == |cycles|)
    && (s.halt.Some? ==>
          s.consumed >= 1 && s.halt.value == cycles[s.consumed - 1].outcome && Halts(s.halt.value))
    && (forall j :: 0 <= j < s.consumed && (s.halt.None? || j < s.consumed - 1) ==> !Halts(cycles[j].outcome))
  }

  /** Traced upgrades are in tick order, at most one per tick. */
  ghost predicate OnePerTick(s: LoopState)
  {
    forall k, l :: 0 <= k < l < |s.trace| ==> s.trace[k].tick < s.trace[l].tick
  }

  /** Every traced upgrade is the upgrade of the consumed cycle it names. */
  ghost predicate ReplayEntries(cycles: seq<CycleResult>, s: LoopState)
  {
    forall k :: 0 <= k < |s.trace| ==>
      s.trace[k].tick < s.consumed && s.trace[k].tick < |cycles| &&
      UpgradeOf(cycles[s.trace[k].tick]) == Some(s.trace[k].call)
  }

  /** Every consumed cycle that asked for an upgrade is traced. */
  ghost predicate ReplayComplete(cycles: seq<CycleResult>, s: LoopState)
  {
    forall i :: 0 <= i < s.consumed && i < |cycles| && UpgradeOf(cycles[i]).Some? ==>
      exists k :: 0 <= k < |s.trace| && s.trace[k].tick == i
  }

  lemma {:induction false} ReplayStopsAtFirstHalt(cycles: seq<CycleResult>)
    ensures ReplayStops(cycles, Replay(cycles))
  {
    if |cycles| > 0 {
      var n := |cycles| - 1;
      var prefix := cycles[..n];
      ReplayStopsAtFirstHalt(prefix);
      assert forall j :: 0 <= j < n ==> prefix[j] == cycles[j];
    }
  }

  lemma {:induction false} ReplayEntriesAreUpgrades(cycles: seq<CycleResult>)
    ensures ReplayEntries(cycles, Replay(cycles))
    ensures OnePerTick(Replay(cycles))
  {
    if |cycles| > 0 {
      var n := |cycles| - 1;
      var prefix := cycles[..n];
      ReplayEntriesAreUpgrades(prefix);
      ReplayStopsAtFirstHalt(prefix);
      assert forall j :: 0 <= j < n ==> prefix[j] == cycles[j];
    }
  }

  lemma {:induction false} ReplayTracesEveryUpgrade(cycles: seq<CycleResult>)
    ensures ReplayComplete(cycles, Replay(cycles))
  {
    if |cycles| > 0 {
      var n := |cycles| - 1;
      var prefix := cycles[..n];
      ReplayTracesEveryUpgrade(prefix);
      ReplayStopsAtFirstHalt(prefix);
      var before := Replay(prefix);
      if before.halt.None? {
        var after := Advance(before, cycles[n]);
        assert before.consumed == n;
        forall i | 0 <= i < after.consumed && i < |cycles| && UpgradeOf(cycles[i]).Some?
          ensures exists k :: 0 <= k < |after.trace| && after.trace[k].tick == i
        {
          if i < n {
            assert prefix[i] == cycles[i];
            var k :| 0 <= k < |before.trace| && before.trace[k].tick == i;
            assert after.trace[k] == before.trace[k];
          } else {
            assert after.trace[|before.trace|].tick == i;
          }
        }
      }
    }
  }

  /** Replaying one more cycle after a prefix that has not halted is one Advance. */
  lemma ReplayStep(cycles: seq<CycleResult>, i: nat)
    requires i < |cycles| && Replay(cycles[..i]).halt.None?
    ensures Replay(cycles[..i + 1]) == Advance(Replay(cycles[..i]), cycles[i])
  {
    assert cycles[..i + 1][..i] == cycles[..i];
  }

  /** Once a replay has halted, later cycles change nothing. */
  lemma {:induction false} HaltIsFinal(cycles: seq<CycleResult>, n: nat)
    requires n <= |cycles|
    requires Replay(cycles[..n]).halt.Some?
    ensures Replay(cycles) == Replay(cycles[..n])
    decreases |cycles| - n
  {
    if n < |cycles| {
      assert cycles[..|cycles| - 1][..n] == cycles[..n];
      HaltIsFinal(cycles[..|cycles| - 1], n);
    } else {
      assert cycles[..n] == cycles;
    }
  }

  /**
   * The loop consumed ticks up to the first cycle that ends the process,
   * or all of them, and the recorded halt is that cycle's outcome.
   */
  ghost predicate StopsAtFirstHalt(opts: Options, ar: AutoResizer, ticks: seq<Tick>, s: LoopState)
  {
    && s.consumed <= |ticks|
    && (s.halt.None? ==> s.consumed == |ticks|)
    && (s.halt.Some? ==>
          s.consumed >= 1 && s.halt.value == Cycle(opts, ar, ticks[s.consumed - 1]).outcome && Halts(s.halt.value))
    && (forall j :: 0 <= j < s.consumed && (s.halt.None? || j < s.consumed - 1) ==>
          !Halts(Cycle(opts, ar, ticks[j]).outcome))
  }

  /**
   * Every traced upgrade came from a consumed tick whose guards all held,
   * and asked for that tick's freshly fetched size plus the increment.
   */
  ghost predicate TraceGuarded(opts: Options, ar: AutoResizer, ticks: seq<Tick>, s: LoopState)
  {
    forall k :: 0 <= k < |s.trace| ==>
      s.trace[k].tick < s.consumed && s.trace[k].tick < |ticks| &&
      MayUpgrade(opts, ar, ticks[s.trace[k].tick]) &&
      s.trace[k].call == UpgradeCall(ar, TargetSize(ticks[s.trace[k].tick].instance.value.volume.size))
  }

  /** Every consumed tick whose guards all held is traced. */
  ghost predicate TraceComplete(opts: Options, ar: AutoResizer, ticks: seq<Tick>, s: LoopState)
  {
    forall i :: 0 <= i < s.consumed && i < |ticks| && MayUpgrade(opts, ar, ticks[i]) ==>
      exists k :: 0 <= k < |s.trace| && s.trace[k].tick == i
  }

  /** What the loop promises about a run on `ticks`. */
  ghost predicate Sound(opts: Options, ar: AutoResizer, ticks: seq<Tick>, s: LoopState)
  {
    StopsAtFirstHalt(opts, ar, ticks, s) && TraceGuarded(opts, ar, ticks, s) &&
    OnePerTick(s) && TraceComplete(opts, ar, ticks, s)
  }

  /** On each tick, the cycle's upgrade is the one the guards allow. */
  lemma CyclesUpgrade(opts: Options, ar: AutoResizer, ticks: seq<Tick>)
    ensures forall i :: 0 <= i < |ticks| ==>
              UpgradeOf(Cycles(opts, ar, ticks)[i]) ==
                if MayUpgrade(opts, ar, ticks[i])
                then Some(UpgradeCall(ar, TargetSize(ticks[i].instance.value.volume.size))) else None
  {
    forall i | 0 <= i < |ticks|
      ensures UpgradeOf(Cycles(opts, ar, ticks)[i]) ==
                if MayUpgrade(opts, ar, ticks[i])
                then Some(UpgradeCall(ar, TargetSize(ticks[i].instance.value.volume.size))) else None
    {
      CycleUpgrade(opts, ar, ticks[i]);
    }
  }

  lemma LoopStopsAtFirstHalt(opts: Options, ar: AutoResizer, ticks: seq<Tick>)
    ensures StopsAtFirstHalt(opts, ar, ticks, Loop(opts, ar, ticks))
  {
    ReplayStopsAtFirstHalt(Cycles(opts, ar, ticks));
  }

  lemma LoopTraceGuarded(opts: Options, ar: AutoResizer, ticks: seq<Tick>)
    ensures TraceGuarded(opts, ar, ticks, Loop(opts, ar, ticks))
    ensures OnePerTick(Loop(opts, ar, ticks))
  {
    ReplayEntriesAreUpgrades(Cycles(opts, ar, ticks));
    CyclesUpgrade(opts, ar, ticks);
  }

  lemma LoopTraceComplete(opts: Options, ar: AutoResizer, ticks: seq<Tick>)
    ensures TraceComplete(opts, ar, ticks, Loop(opts, ar, ticks))
  {
    ReplayTracesEveryUpgrade(Cycles(opts, ar, ticks));
    CyclesUpgrade(opts, ar, ticks);
  }

  /** The loop specification keeps every promise of Sound. */
  lemma LoopSound(opts: Options, ar: AutoResizer, ticks: seq<Tick>)
    ensures Sound(opts, ar, ticks, Loop(opts, ar, ticks))
  {
    LoopStopsAtFirstHalt(opts, ar, ticks);
    LoopTraceGuarded(opts, ar, ticks);
    LoopTraceComplete(opts, ar, ticks);
  }

  /**
   * main.go:154-230: the control loop over `ticks`, one cycle per tick,
   * appending each upgrade it asks for to the trace and stopping at the
   * first cycle that exits or panics.
   */
  method ControlLoop(opts: Options, ar: AutoResizer, ticks: seq<Tick>) returns (s: LoopState)
    ensures s == Loop(opts, ar, ticks)
    ensures Sound(opts, ar, ticks, s)
  {
    ghost var cycles := Cycles(opts, ar, ticks);
    var trace: seq<Entry> := [];
    var halt: Option<Outcome> := None;
    var i := 0;
    while i < |ticks| && halt.None?
      invariant 0 <= i <= |ticks|
      invariant LoopState(trace, halt, i) == Replay(cycles[..i])
    {
      ReplayStep(cycles, i);
      var cycle := Cycle(opts, ar, ticks[i]);
      assert cycle == cycles[i];
      var last := cycle.calls[|cycle.calls| - 1];
      if last.op.UpgradeInstance? {
        trace := trace + [Entry(i, last)];
      }
      if cycle.outcome.Fatal? || cycle.outcome.Panic? {
        halt := Some(cycle.outcome);
      }
      i := i + 1;
    }
    if halt.Some? {
      HaltIsFinal(cycles, i);
    } else {
      assert cycles[..i] == cycles;
    }
    s := LoopState(trace, halt, i);
    LoopSound(opts, ar, ticks);
  }

  /** How the process ended, if it did. */
  datatype Termination = Exited(code: int) | Panicked

  function TerminationOf(halt: Outcome): Termination
  {
    if halt.Panic? then Panicked else Exited(1)
  }

  /**
   * main.go:95-231 over a finite run: parse the options, build the
   * resizer, run the preflight, then the loop. Startup failures exit with
   * status 1 before any tick; afterwards the process ends only by a fatal
   * cycle or a panic.
   */
  method Run(flags: Flags, region: string, instanceID: string, preflight: Result<Instance, ApiError>, ticks: seq<Tick>)
    returns (ended: Option<Termination>, trace: seq<Entry>)
    ensures ParseOptions(flags).Err? ==> ended == Some(Exited(1)) && trace == []
    ensures ParseOptions(flags).Ok? &&
            Preflight(ParseOptions(flags).value, NewAutoResizer(region, instanceID), preflight).result.Some? ==>
              ended == Some(Exited(1)) && trace == []
    ensures ParseOptions(flags).Ok? &&
            Preflight(ParseOptions(flags).value, NewAutoResizer(region, instanceID), preflight).result.None? ==>
              var s := Loop(ParseOptions(flags).value, NewAutoResizer(region, instanceID), ticks);
              trace == s.trace &&
              ended == (if s.halt.Some? then Some(TerminationOf(s.halt.value)) else None) &&
              Sound(ParseOptions(flags).value, NewAutoResizer(region, instanceID), ticks, s)
    ensures ended.Some? ==> ended == Some(Exited(1)) || ended == Some(Panicked)
  {
    var options := ParseOptions(flags);
    if options.Err? {
      return Some(Exited(1)), [];
    }
    var opts := options.value;
    var ar := NewAutoResizer(region, instanceID);
    if Preflight(opts, ar, preflight).result.Some? {
      return Some(Exited(1)), [];
    }
    var s := ControlLoop(opts, ar, ticks);
    trace := s.trace;
    ended := if s.halt.Some? then Some(TerminationOf(s.halt.value)) else None;
  }

  /**
   * With the NaN trigger that option parsing accepts, the loop never asks
   * for an upgrade, however full the disk.
   */
  lemma NaNTriggerNeverResizes(opts: Options, ar: AutoResizer, ticks: seq<Tick>)
    requires opts.triggerPercent.NaN?
    ensures Loop(opts, ar, ticks).trace == []
  {
    LoopTraceGuarded(opts, ar, ticks);
    forall i | 0 <= i < |ticks|
      ensures !MayUpgrade(opts, ar, ticks[i])
    {
      NaNTriggerNeverFires(opts, ar, ticks[i]);
    }
    var trace := Loop(opts, ar, ticks).trace;
    assert trace == [] || trace[0].tick < |ticks|;
  }
}
