/** The all-optical three-pulse T1 experiment, nanosecond variant:
    the sequence compiler works in nanoseconds (widths are given in
    microseconds, the reference period in milliseconds, both scaled exactly),
    and `Run` repeats the tau sweep `loops` times. */
module T1Experiment {
  import opened PulseProgram
  import opened Hardware

  /** Channel wiring: bit 0 drives the lock-in reference, bit 1 the laser. */
  const ChRef: nat := 1
  const ChLaser: nat := 2
  /** CH_REF | CH_LASER. */
  const ChRefLaser: nat := 3

  /** Half the reference period, in nanoseconds. */
  function HalfNs(trefMs: nat): nat { trefMs * 500000 }

  /** The three-pulse program for one tau. The first half carries the INIT
      laser pulse and then the reference-high baseline; the second half is
      built by `SecondHalf`. Both timing checks come before anything is
      emitted. */
  function Compile(tauUs: nat, trefMs: nat, initUs: nat, secondUs: nat, readUs: nat)
    : Result<seq<Instr>>
  {
    var half := HalfNs(trefMs);
    var init, second, read, tau := initUs * 1000, secondUs * 1000, readUs * 1000, tauUs * 1000;
    if init > half then Err(InitLongerThanHalf)
    else if second + tau + read > half then Err(SecondHalfOverflow)
    else
      var first := [Instr(ChRefLaser, Continue, 0, init), Instr(ChRef, Continue, 0, half - init)];
      Ok(first + SecondHalf(ChLaser, half, second, tau, read))
  }

  /** The two timing checks, in order: INIT longer than half the period,
      then the second half (second pulse, tau and read) longer than half
      the period. Everything else compiles. */
  lemma CompileErrors(tauUs: nat, trefMs: nat, initUs: nat, secondUs: nat, readUs: nat)
    ensures var r := Compile(tauUs, trefMs, initUs, secondUs, readUs);
            && (r == Err(InitLongerThanHalf) <==> initUs * 1000 > HalfNs(trefMs))
            && (r == Err(SecondHalfOverflow) <==>
                  initUs * 1000 <= HalfNs(trefMs) < (secondUs + tauUs + readUs) * 1000)
            && (r.Ok? <==> initUs * 1000 <= HalfNs(trefMs) && (secondUs + tauUs + readUs) * 1000 <= HalfNs(trefMs))
  {
  }

  /** The shape of a compiled program: INIT then baseline filling the first
      half exactly; second pulse, the dark step only when tau > 0, read
      pulse and the clamped BRANCH filler; the second half fills its half
      exactly unless the clamp adds one unit. */
  lemma CompileShape(tauUs: nat, trefMs: nat, initUs: nat, secondUs: nat, readUs: nat)
    requires Compile(tauUs, trefMs, initUs, secondUs, readUs).Ok?
    ensures var p := Compile(tauUs, trefMs, initUs, secondUs, readUs).value;
              && |p| == (if tauUs > 0 then 6 else 5)
              && p[0] == Instr(ChRefLaser, Continue, 0, initUs * 1000)
              && p[1] == Instr(ChRef, Continue, 0, HalfNs(trefMs) - initUs * 1000)
              && p[0].length + p[1].length == HalfNs(trefMs)
              && p[2] == Instr(ChLaser, Continue, 0, secondUs * 1000)
              && (tauUs > 0 ==> p[3] == Instr(0, Continue, 0, tauUs * 1000))
              && p[|p| - 2] == Instr(ChLaser, Continue, 0, readUs * 1000)
              && p[|p| - 1] == Instr(0, Branch, 0,
                                     Max(1, HalfNs(trefMs) - (secondUs + tauUs + readUs) * 1000))
              && LoopsForever(p)
              && TotalLength(p[2..]) == HalfNs(trefMs) + (if (secondUs + tauUs + readUs) * 1000 == HalfNs(trefMs) then 1 else 0)
  {
    var half := HalfNs(trefMs);
    var p := Compile(tauUs, trefMs, initUs, secondUs, readUs).value;
    SecondHalfShape(ChLaser, half, secondUs * 1000, tauUs * 1000, readUs * 1000);
    assert p[2..] == SecondHalf(ChLaser, half, secondUs * 1000, tauUs * 1000, readUs * 1000);
  }

  /** The time constants, in seconds, that the lock-in setup reports by
      OFLT index. It knows the indices 0 to 15 only and reports nothing for
      any other. */
  const SetupTimeConstants: seq<real> :=
    [0.00001, 0.00003, 0.0001, 0.0003, 0.001, 0.003, 0.01, 0.03, 0.1, 0.3,
     1.0, 3.0, 10.0, 30.0, 100.0, 300.0]

  /** Settle time per point, in seconds: ten lock-in time constants, and
      never less than one second. */
  function SettleWait(tauLI: real): (w: real)
    ensures w >= 1.0 && w >= 10.0 * tauLI
    ensures w == 1.0 || w == 10.0 * tauLI
  {
    if 1.0 < 10.0 * tauLI then 10.0 * tauLI else 1.0
  }

  /** The fixed timings of a sweep. */
  datatype Timing = Timing(trefMs: nat, initUs: nat, secondUs: nat, readUs: nat)

  function CompileFor(t: Timing, tauUs: nat): Result<seq<Instr>>
  {
    Compile(tauUs, t.trefMs, t.initUs, t.secondUs, t.readUs)
  }

  /** What compiling each tau of the sweep gives, in sweep order. */
  function Programs(t: Timing, taus: seq<nat>): (ps: seq<Result<seq<Instr>>>)
    ensures |ps| == |taus|
    ensures forall i {:trigger ps[i]} :: 0 <= i < |taus| ==> ps[i] == CompileFor(t, taus[i])
  {
    seq(|taus|, i requires 0 <= i < |taus| => CompileFor(t, taus[i]))
  }

  /** The compile result of sweep slot `k`: pass after pass over the same
      list. */
  function ProgramAt(ps: seq<Result<seq<Instr>>>, k: nat): Result<seq<Instr>>
    requires |ps| > 0
  {
    ps[k % |ps|]
  }

  /** The first `n` slots all compile. */
  predicate Fits(ps: seq<Result<seq<Instr>>>, n: nat)
  {
    && (n == 0 || |ps| > 0)
    && forall k :: 0 <= k < n ==> ProgramAt(ps, k).Ok?
  }

  /** The hardware calls of one point: stop, reset, load, start, settle, read. */
  function PointEvents(program: seq<Instr>, wait: real): seq<Event>
  {
    [PbStop, PbReset, PbLoad(program), PbStart, Sleep(wait), QueryR]
  }

  /** The hardware calls of the first `n` completed points. */
  function Points(ps: seq<Result<seq<Instr>>>, wait: real, n: nat): (s: seq<Event>)
    requires Fits(ps, n)
    ensures |s| == 6 * n
  {
    if n == 0 then []
    else Points(ps, wait, n - 1) + PointEvents(ProgramAt(ps, n - 1).value, wait)
  }

  /** The sweep stops on a timing error: the first tau that does not fit is
      reached before the interruption. */
  predicate Fails(ps: seq<Result<seq<Instr>>>, loops: nat, polls: seq<bool>)
  {
    var b := FirstBad(ps);
    b < |ps| && b < FirstInterrupt(polls, Mul(loops, |ps|))
  }

  /** How many points the loops complete, leaving the live plot aside: up
      to the first tau that does not compile or the first poll that sees an
      interruption, whichever comes first. */
  function Completed(ps: seq<Result<seq<Instr>>>, loops: nat, polls: seq<bool>): (n: nat)
    ensures n <= Mul(loops, |ps|)
    ensures Fits(ps, n)
  {
    var b := FirstBad(ps);
    var j := FirstInterrupt(polls, Mul(loops, |ps|));
    var n := if b < |ps| && b < j then b else j;
    MulNoPoints(loops);
    assert Fits(ps, n) by {
      forall k | 0 <= k < n ensures ProgramAt(ps, k).Ok? {
        SlotMod(0, k % |ps|, |ps|);
        if b < |ps| {
          SlotMod(0, k, |ps|);
        }
      }
    }
    n
  }

  /** A failing sweep stops at the first tau that does not compile. */
  lemma CompletedOnFailure(ps: seq<Result<seq<Instr>>>, loops: nat, polls: seq<bool>)
    requires Fails(ps, loops, polls)
    ensures Completed(ps, loops, polls) == FirstBad(ps)
  {
  }

  /** The calls of slot `k` are the point for `taus[k mod |ps|]`: stop,
      reset, load that tau's program, start, settle, read. */
  lemma {:induction false} PointsAt(ps: seq<Result<seq<Instr>>>, wait: real, n: nat, k: nat)
    requires Fits(ps, n) && k < n
    ensures Points(ps, wait, n)[6 * k..6 * k + 6] == PointEvents(ProgramAt(ps, k).value, wait)
  {
    assert Fits(ps, n - 1);
    var before := Points(ps, wait, n - 1);
    var last := PointEvents(ProgramAt(ps, n - 1).value, wait);
    assert Points(ps, wait, n) == before + last;
    if k < n - 1 {
      PointsAt(ps, wait, n - 1, k);
      assert (before + last)[6 * k..6 * k + 6] == before[6 * k..6 * k + 6];
    } else {
      assert |before| == 6 * k && |last| == 6;
      assert (before + last)[|before|..|before| + |last|] == last;
    }
  }

  /** The calls of fewer points are a prefix of the calls of more. */
  lemma {:induction false} PointsPrefix(ps: seq<Result<seq<Instr>>>, wait: real, m: nat, n: nat)
    requires Fits(ps, n) && m <= n
    ensures Fits(ps, m)
    ensures Points(ps, wait, m) == Points(ps, wait, n)[..6 * m]
  {
    if m < n {
      assert Fits(ps, n - 1);
      PointsPrefix(ps, wait, m, n - 1);
      assert Points(ps, wait, n)[..6 * (n - 1)] == Points(ps, wait, n - 1);
    }
  }

  /** An interruption only cuts the sweep short: no more points complete
      than without any request, so the readings are a prefix of the
      uninterrupted ones. */
  lemma InterruptionShortens(ps: seq<Result<seq<Instr>>>, loops: nat, polls: seq<bool>)
    ensures Completed(ps, loops, polls) <= Completed(ps, loops, [])
  {
  }

  /** Without an interruption and with every tau fitting, every pass
      measures every point: `loops * |taus|` readings. */
  lemma FullSweep(ps: seq<Result<seq<Instr>>>, loops: nat, polls: seq<bool>)
    requires FirstBad(ps) == |ps|
    requires forall q :: 0 <= q < Mul(loops, |ps|) ==> !Requested(polls, q)
    ensures Completed(ps, loops, polls) == loops * |ps|
  {
    MulIsProduct(loops, |ps|);
  }

  /** The live plot pairs `xLen` plotted taus with `yLen` readings the way
      matplotlib's `broadcast_arrays` does when the line is recomputed: the
      lengths must agree, or one of them must be 1; otherwise it raises. */
  predicate PlotBroadcasts(xLen: nat, yLen: nat)
  {
    xLen == yLen || xLen == 1 || yLen == 1
  }

  /** The plot after point `i` of pass `c` pairs the first `i + 1` taus
      with all `Mul(c, p) + i + 1` readings taken so far, since the readings
      are never cleared between passes: it can be drawn in the first pass
      and at the first point of every pass, and nowhere else. */
  lemma PlotBroadcastsAt(c: nat, i: nat, p: nat)
    requires i < p
    ensures PlotBroadcasts(i + 1, Mul(c, p) + i + 1) <==> c == 0 || i == 0
  {
    if c > 0 {
      SlotBelow(0, c, p);
      assert Mul(0, p) == 0;
    }
  }

  /** The live plot stops the sweep: the loops get as far as slot
      `|ps| + 1`, the second point of the second pass. */
  predicate PlotFails(ps: seq<Result<seq<Instr>>>, loops: nat, polls: seq<bool>)
  {
    |ps| >= 2 && Completed(ps, loops, polls) >= |ps| + 2
  }

  /** How many points are measured: those the loops complete, but no more
      than `|ps| + 2` when the plot stops the sweep. */
  function Measured(ps: seq<Result<seq<Instr>>>, loops: nat, polls: seq<bool>): (n: nat)
    ensures n <= Completed(ps, loops, polls)
    ensures Fits(ps, n)
  {
    if PlotFails(ps, loops, polls) then |ps| + 2 else Completed(ps, loops, polls)
  }

  /** The plot stops the sweep exactly when there are at least two points
      and two passes, every tau fits and no poll up to slot `|ps| + 1` sees
      a request; the plot and a timing error never both stop the same
      sweep. */
  lemma PlotFailsWhen(ps: seq<Result<seq<Instr>>>, loops: nat, polls: seq<bool>)
    ensures PlotFails(ps, loops, polls) <==>
              && |ps| >= 2 && loops >= 2 && FirstBad(ps) == |ps|
              && |ps| + 2 <= FirstInterrupt(polls, Mul(loops, |ps|))
    ensures PlotFails(ps, loops, polls) ==> !Fails(ps, loops, polls)
  {
    var p := |ps|;
    if loops <= 1 {
      assert Mul(0, p) == 0;
      assert Mul(loops, p) <= p;
    } else {
      SlotBelow(1, loops, p);
      assert Mul(1, p) == Mul(0, p) + p;
    }
  }

  /** Without an interruption and with every tau fitting, a run measures
      every point of every pass only with a single pass or a single point;
      otherwise the plot stops it after `|ps| + 2` readings. */
  lemma FullSweepMeasures(ps: seq<Result<seq<Instr>>>, loops: nat, polls: seq<bool>)
    requires FirstBad(ps) == |ps|
    requires forall q :: 0 <= q < Mul(loops, |ps|) ==> !Requested(polls, q)
    ensures PlotFails(ps, loops, polls) <==> loops >= 2 && |ps| >= 2
    ensures Measured(ps, loops, polls) == if loops >= 2 && |ps| >= 2 then |ps| + 2 else loops * |ps|
  {
    FullSweep(ps, loops, polls);
    PlotFailsWhen(ps, loops, polls);
    var N := Mul(loops, |ps|);
    assert FirstInterrupt(polls, N) == N;
    MulIsProduct(loops, |ps|);
    if loops >= 2 && |ps| >= 2 {
      SlotBelow(1, loops, |ps|);
      assert Mul(1, |ps|) == Mul(0, |ps|) + |ps|;
    }
  }

  /** The teardown of the `finally` block: stop, reset and close the
      sequencer in one `try` (a failing call skips the rest of the group),
      then close the lock-in session and its resource manager in another. */
  function Teardown(faulty: set<Event>): seq<Event>
  {
    [PbStop]
    + (if PbStop in faulty then []
       else [PbReset] + (if PbReset in faulty then [] else [PbClose]))
    + [LockInClose]
    + (if LockInClose in faulty then [] else [ManagerClose])
  }

  /** Teardown always stops the sequencer and always closes the lock-in;
      reset follows only when the stop did not raise, close only when
      neither stop nor reset raised, and the resource manager closes only
      when the lock-in close did not raise. */
  lemma TeardownCalls(f: set<Event>)
    ensures Teardown(f)[0] == PbStop
    ensures LockInClose in Teardown(f)
    ensures PbReset in Teardown(f) <==> PbStop !in f
    ensures PbClose in Teardown(f) <==> PbStop !in f && PbReset !in f
    ensures ManagerClose in Teardown(f) <==> LockInClose !in f
  {
  }

  method RunTeardown(rig: Rig)
    modifies rig`trace
    ensures rig.trace == old(rig.trace) + Teardown(rig.faulty)
  {
    var ok := rig.Attempt(PbStop);
    if ok {
      ok := rig.Attempt(PbReset);
      if ok {
        ok := rig.Attempt(PbClose);
      }
    }
    ok := rig.Attempt(LockInClose);
    if ok {
      ok := rig.Attempt(ManagerClose);
    }
  }

  /** One point of the sweep after the poll: stop, reset, compile and load,
      start, settle, read. */
  method MeasurePoint(rig: Rig, t: Timing, tauUs: nat, wait: real) returns (res: Result<real>)
    requires rig.readCount < |rig.readings|
    modifies rig`trace, rig`readCount
    ensures res.Ok? <==> CompileFor(t, tauUs).Ok?
    ensures res.Ok? ==> rig.trace == old(rig.trace) + PointEvents(CompileFor(t, tauUs).value, wait)
    ensures res.Ok? ==> rig.readCount == old(rig.readCount) + 1 && res.value == rig.readings[old(rig.readCount)]
    ensures res.Err? ==> rig.trace == old(rig.trace) + [PbStop, PbReset]
    ensures res.Err? ==> rig.readCount == old(rig.readCount) && res.error == CompileFor(t, tauUs).error
  {
    rig.Call(PbStop);
    rig.Call(PbReset);
    var program := CompileFor(t, tauUs);
    if program.Err? {
      return Err(program.error);
    }
    rig.Call(PbLoad(program.value));
    rig.Call(PbStart);
    rig.Call(Sleep(wait));
    var r := rig.ReadR();
    res := Ok(r);
  }

  /** The inputs of a sweep besides the timings: what compiling each tau
      gives, the settle wait, what the interruption polls see, and the
      number of passes. */
  datatype Sweep = Sweep(ps: seq<Result<seq<Instr>>>, wait: real, polls: seq<bool>, loops: nat)

  /** What a sweep has recorded after `|rvals|` measured slots: those
      readings, in order, and the calls of those points after `t0`; `rc0`
      is the read count when the sweep started. */
  ghost predicate Recorded(s: Sweep, readings: seq<real>, trace: seq<Event>, readCount: nat,
                           t0: seq<Event>, rc0: nat, rvals: seq<real>)
  {
    var k := |rvals|;
    && rc0 + Mul(s.loops, |s.ps|) <= |readings|
    && k <= FirstInterrupt(s.polls, Mul(s.loops, |s.ps|))
    && Fits(s.ps, k)
    && readCount == rc0 + k
    && rvals == readings[rc0..rc0 + k]
    && trace == t0 + Points(s.ps, s.wait, k)
  }

  /** Where the loops stand after `k` measured slots, `c` full passes and
      `i` points of the current one, and what the polls, the compiler and
      the plot have decided so far. */
  ghost predicate Progress(s: Sweep, k: nat, interrupted: bool, pollIndex: nat, c: nat, i: nat)
  {
    var j := FirstInterrupt(s.polls, Mul(s.loops, |s.ps|));
    var b := FirstBad(s.ps);
    && c <= s.loops && i <= |s.ps| && k <= j
    && (b == |s.ps| || k <= b)
    && (interrupted ==> k == j && i == 0)
    && (!interrupted ==> k == Mul(c, |s.ps|) + i && pollIndex == k)
    && (!interrupted && c >= 1 ==> b == |s.ps|)
    && (!interrupted && c == 0 ==> forall q :: 0 <= q < i ==> s.ps[q].Ok?)
    && (|s.ps| >= 2 ==> k <= |s.ps| + 1)
  }

  ghost predicate InPass(s: Sweep, readings: seq<real>, trace: seq<Event>, readCount: nat,
                         t0: seq<Event>, rc0: nat,
                         rvals: seq<real>, interrupted: bool, pollIndex: nat, c: nat, i: nat)
  {
    Recorded(s, readings, trace, readCount, t0, rc0, rvals)
    && Progress(s, |rvals|, interrupted, pollIndex, c, i)
  }

  /** The sweep has stopped at the first tau that does not compile, before
      any interruption: stop and reset were issued, nothing was loaded. */
  ghost predicate StoppedOnError(s: Sweep, readings: seq<real>, trace: seq<Event>, readCount: nat,
                                 t0: seq<Event>, rc0: nat, rvals: seq<real>)
  {
    var b := FirstBad(s.ps);
    && b == |rvals| && b < |s.ps| && b < FirstInterrupt(s.polls, Mul(s.loops, |s.ps|))
    && Fits(s.ps, b)
    && readCount == rc0 + b && rc0 + b <= |readings|
    && rvals == readings[rc0..rc0 + b]
    && trace == t0 + Points(s.ps, s.wait, b) + [PbStop, PbReset]
  }

  /** The sweep has stopped at the live plot: slot `|ps| + 1`, the second
      point of the second pass, was measured and recorded. */
  ghost predicate StoppedOnPlot(s: Sweep, readings: seq<real>, trace: seq<Event>, readCount: nat,
                                t0: seq<Event>, rc0: nat, rvals: seq<real>)
  {
    && |s.ps| >= 2 && s.loops >= 2 && FirstBad(s.ps) == |s.ps| && |rvals| == |s.ps| + 2
    && Recorded(s, readings, trace, readCount, t0, rc0, rvals)
  }

  /** The sweep has stopped with the exception `err`: a timing error or
      the plot. */
  ghost predicate Stopped(s: Sweep, readings: seq<real>, trace: seq<Event>, readCount: nat,
                          t0: seq<Event>, rc0: nat, rvals: seq<real>, err: RunError)
  {
    || (StoppedOnError(s, readings, trace, readCount, t0, rc0, rvals)
        && err == TimingViolation(s.ps[FirstBad(s.ps)].error))
    || (StoppedOnPlot(s, readings, trace, readCount, t0, rc0, rvals) && err == PlotMismatch)
  }

  /** Between passes: either still sweeping after `c` passes, or stopped
      with the exception `err`. */
  ghost predicate BetweenPasses(s: Sweep, readings: seq<real>, trace: seq<Event>, readCount: nat,
                                t0: seq<Event>, rc0: nat, rvals: seq<real>, interrupted: bool,
                                pollIndex: nat, c: nat, failed: bool, err: RunError)
  {
    if failed then
      Stopped(s, readings, trace, readCount, t0, rc0, rvals, err)
    else
      InPass(s, readings, trace, readCount, t0, rc0, rvals, interrupted, pollIndex, c, 0)
  }

  /** Before the first pass nothing is measured or called. */
  lemma SweepStarts(s: Sweep, readings: seq<real>, t0: seq<Event>, rc0: nat, err: RunError)
    requires rc0 + Mul(s.loops, |s.ps|) <= |readings|
    ensures BetweenPasses(s, readings, t0, rc0, t0, rc0, [], false, 0, 0, false, err)
  {
    assert Mul(0, |s.ps|) == 0;
    assert t0 + [] == t0;
  }

  /** After a pass ends (all points measured, or interrupted) the next
      pass starts from the same state. */
  lemma NextPass(s: Sweep, k: nat, interrupted: bool, pollIndex: nat, c: nat, i: nat)
    requires c < s.loops
    requires Progress(s, k, interrupted, pollIndex, c, i)
    requires !interrupted ==> i == |s.ps|
    ensures Progress(s, k, interrupted, pollIndex, c + 1, 0)
  {
    if !interrupted && c == 0 {
      var b := FirstBad(s.ps);
    }
  }

  /** All passes done: every slot up to the interruption was measured and
      neither a timing error nor the plot stopped the sweep. */
  lemma SweepDone(s: Sweep, readings: seq<real>, trace: seq<Event>, readCount: nat,
                  t0: seq<Event>, rc0: nat, rvals: seq<real>, interrupted: bool, pollIndex: nat)
    requires Recorded(s, readings, trace, readCount, t0, rc0, rvals)
    requires Progress(s, |rvals|, interrupted, pollIndex, s.loops, 0)
    ensures !Fails(s.ps, s.loops, s.polls) && !PlotFails(s.ps, s.loops, s.polls)
    ensures |rvals| == Completed(s.ps, s.loops, s.polls)
  {
    var N := Mul(s.loops, |s.ps|);
    if !interrupted {
      assert |rvals| == N;
      if s.loops > 0 {
        SlotBelow(0, s.loops, |s.ps|);
        assert Mul(0, |s.ps|) == 0;
      }
    }
  }

  /** The sweep is over: all passes done, or stopped by a timing error or
      the plot. A sweep stops exactly when `Fails` or `PlotFails` says so,
      and in every case what was measured is exactly what `Measured`
      counts. */
  lemma SweepEnds(s: Sweep, readings: seq<real>, trace: seq<Event>, readCount: nat,
                  t0: seq<Event>, rc0: nat, rvals: seq<real>, interrupted: bool,
                  pollIndex: nat, failed: bool, err: RunError)
    requires BetweenPasses(s, readings, trace, readCount, t0, rc0, rvals, interrupted, pollIndex,
                           s.loops, failed, err)
    ensures trace == t0 + Points(s.ps, s.wait, Measured(s.ps, s.loops, s.polls))
                     + (if Fails(s.ps, s.loops, s.polls) then [PbStop, PbReset] else [])
    ensures |rvals| == Measured(s.ps, s.loops, s.polls)
    ensures readCount == rc0 + |rvals|
    ensures rvals == readings[rc0..rc0 + |rvals|]
    ensures failed <==> Fails(s.ps, s.loops, s.polls) || PlotFails(s.ps, s.loops, s.polls)
    ensures Fails(s.ps, s.loops, s.polls) ==> err == TimingViolation(s.ps[FirstBad(s.ps)].error)
    ensures PlotFails(s.ps, s.loops, s.polls) ==> err == PlotMismatch
  {
    PlotFailsWhen(s.ps, s.loops, s.polls);
    if !failed {
      SweepDone(s, readings, trace, readCount, t0, rc0, rvals, interrupted, pollIndex);
      assert trace + [] == trace;
    } else if StoppedOnError(s, readings, trace, readCount, t0, rc0, rvals)
              && err == TimingViolation(s.ps[FirstBad(s.ps)].error) {
      CompletedOnFailure(s.ps, s.loops, s.polls);
    } else {
      assert StoppedOnPlot(s, readings, trace, readCount, t0, rc0, rvals);
      assert trace + [] == trace;
    }
  }

  /** A poll that sees no request leaves a slot to measure. */
  lemma PollPasses(s: Sweep, k: nat, pollIndex: nat, c: nat, i: nat)
    requires c < s.loops && i < |s.ps|
    requires Progress(s, k, false, pollIndex, c, i)
    requires !Requested(s.polls, pollIndex)
    ensures k < FirstInterrupt(s.polls, Mul(s.loops, |s.ps|))
    ensures k % |s.ps| == i
  {
    var N := Mul(s.loops, |s.ps|);
    SlotBounds(c, s.loops, i, |s.ps|);
    if k == FirstInterrupt(s.polls, N) {
      FirstInterruptAt(s.polls, N, k);
    }
  }

  /** Measuring slot `k` appends its six calls. */
  lemma PointsGrow(ps: seq<Result<seq<Instr>>>, wait: real, k: nat, i: nat)
    requires Fits(ps, k) && i < |ps| && k % |ps| == i
    requires ps[i].Ok?
    ensures Fits(ps, k + 1)
    ensures Points(ps, wait, k + 1) == Points(ps, wait, k) + PointEvents(ps[i].value, wait)
  {
    assert ProgramAt(ps, k) == ps[i];
  }

  /** A measured point adds its calls and its reading to what is recorded. */
  lemma RecordedGrows(s: Sweep, readings: seq<real>, trace: seq<Event>, readCount: nat,
                      t0: seq<Event>, rc0: nat, rvals: seq<real>, i: nat, r: real)
    requires Recorded(s, readings, trace, readCount, t0, rc0, rvals)
    requires i < |s.ps| && |rvals| % |s.ps| == i
    requires |rvals| < FirstInterrupt(s.polls, Mul(s.loops, |s.ps|))
    requires s.ps[i].Ok?
    ensures readCount < |readings|
    ensures r == readings[readCount] ==>
              Recorded(s, readings, trace + PointEvents(s.ps[i].value, s.wait),
                       readCount + 1, t0, rc0, rvals + [r])
  {
    var k := |rvals|;
    var events := PointEvents(s.ps[i].value, s.wait);
    PointsGrow(s.ps, s.wait, k, i);
    assert trace + events == t0 + (Points(s.ps, s.wait, k) + events);
    ServedOneMore(readings, rc0, rc0 + k);
  }

  /** A measured point that the plot can draw moves the loops on by one
      slot. */
  lemma ProgressGrows(s: Sweep, k: nat, pollIndex: nat, c: nat, i: nat)
    requires c < s.loops && i < |s.ps|
    requires Progress(s, k, false, pollIndex, c, i)
    requires k < FirstInterrupt(s.polls, Mul(s.loops, |s.ps|))
    requires s.ps[i].Ok?
    requires PlotBroadcasts(i + 1, k + 1)
    ensures Progress(s, k + 1, false, pollIndex + 1, c, i + 1)
  {
    var p := |s.ps|;
    PlotBroadcastsAt(c, i, p);
    if c == 0 {
      assert Mul(0, p) == 0;
    } else if c == 1 {
      assert Mul(1, p) == Mul(0, p) + p;
    } else {
      MulTwice(c, p);
    }
  }

  /** A measured point that the plot cannot draw is slot `|ps| + 1`: the
      sweep stops there. */
  lemma PlotRejected(s: Sweep, readings: seq<real>, trace: seq<Event>, readCount: nat,
                     t0: seq<Event>, rc0: nat, rvals: seq<real>, pollIndex: nat, c: nat, i: nat)
    requires c < s.loops && i < |s.ps| && |rvals| >= 1
    requires Recorded(s, readings, trace, readCount, t0, rc0, rvals)
    requires Progress(s, |rvals| - 1, false, pollIndex, c, i)
    requires !PlotBroadcasts(i + 1, |rvals|)
    ensures StoppedOnPlot(s, readings, trace, readCount, t0, rc0, rvals)
  {
    var p := |s.ps|;
    PlotBroadcastsAt(c, i, p);
    SlotBelow(0, c, p);
    assert Mul(0, p) == 0;
  }

  /** The poll that sees the first request ends the measured part of the
      sweep. */
  lemma PollInterrupts(s: Sweep, k: nat, interrupted: bool, pollIndex: nat, c: nat, i: nat)
    requires c < s.loops && i < |s.ps|
    requires Progress(s, k, interrupted, pollIndex, c, i)
    requires interrupted || Requested(s.polls, pollIndex)
    ensures Progress(s, k, true, pollIndex + 1, c, 0)
  {
    if !interrupted {
      var N := Mul(s.loops, |s.ps|);
      SlotBounds(c, s.loops, i, |s.ps|);
      FirstInterruptAt(s.polls, N, k);
    }
  }

  /** The point for `taus[i]` does not compile: the sweep stops here. */
  lemma PointRejected(s: Sweep, readings: seq<real>, trace: seq<Event>, readCount: nat,
                      t0: seq<Event>, rc0: nat, rvals: seq<real>, pollIndex: nat, c: nat, i: nat)
    requires c < s.loops && i < |s.ps|
    requires Recorded(s, readings, trace, readCount, t0, rc0, rvals)
    requires Progress(s, |rvals|, false, pollIndex, c, i)
    requires |rvals| < FirstInterrupt(s.polls, Mul(s.loops, |s.ps|))
    requires s.ps[i].Err?
    ensures FirstBad(s.ps) == i
    ensures StoppedOnError(s, readings, trace + [PbStop, PbReset], readCount, t0, rc0, rvals)
  {
    assert Mul(0, |s.ps|) == 0;
  }

  /** One iteration of the inner loop: poll, and unless interrupted measure
      the point for `taus[i]`. */
  method SweepStep(rig: Rig, t: Timing, taus: seq<nat>, wait: real, polls: seq<bool>, ghost s: Sweep,
                   ghost t0: seq<Event>, ghost rc0: nat,
                   rvals: seq<real>, interrupted: bool, pollIndex: nat, ghost c: nat, i: nat)
    returns (rvals': seq<real>, interrupted': bool, pollIndex': nat, failed: bool, err: RunError)
    requires s.ps == Programs(t, taus) && s.wait == wait && s.polls == polls
    requires c < s.loops && i < |s.ps|
    requires InPass(s, rig.readings, rig.trace, rig.readCount, t0, rc0, rvals, interrupted, pollIndex, c, i)
    modifies rig`trace, rig`readCount
    ensures interrupted' ==> !failed && rvals' == rvals
    ensures interrupted' ==>
              InPass(s, rig.readings, rig.trace, rig.readCount, t0, rc0, rvals, true, pollIndex', c, 0)
    ensures !interrupted' && !failed ==>
              InPass(s, rig.readings, rig.trace, rig.readCount, t0, rc0, rvals', false, pollIndex', c, i + 1)
    ensures failed ==> Stopped(s, rig.readings, rig.trace, rig.readCount, t0, rc0, rvals', err)
  {
    interrupted' := interrupted || Requested(polls, pollIndex);
    pollIndex' := pollIndex + 1;
    rvals', failed, err := rvals, false, PlotMismatch;
    if interrupted' {
      PollInterrupts(s, |rvals|, interrupted, pollIndex, c, i);
      return;
    }
    ghost var trace0, readCount0 := rig.trace, rig.readCount;
    PollPasses(s, |rvals|, pollIndex, c, i);
    assert s.ps[i] == CompileFor(t, taus[i]);
    if s.ps[i].Ok? {
      RecordedGrows(s, rig.readings, trace0, readCount0, t0, rc0, rvals, i, rig.readings[readCount0]);
    }
    var res := MeasurePoint(rig, t, taus[i], wait);
    if res.Err? {
      PointRejected(s, rig.readings, trace0, readCount0, t0, rc0, rvals, pollIndex, c, i);
      failed, err := true, TimingViolation(res.error);
      return;
    }
    rvals' := rvals + [res.value];
    if !PlotBroadcasts(i + 1, |rvals'|) {
      PlotRejected(s, rig.readings, rig.trace, rig.readCount, t0, rc0, rvals', pollIndex, c, i);
      failed, err := true, PlotMismatch;
      return;
    }
    ProgressGrows(s, |rvals|, pollIndex, c, i);
  }

  /** One pass over `taus`; it ends early on an interruption or a timing
      error. */
  method SweepPass(rig: Rig, t: Timing, taus: seq<nat>, wait: real, polls: seq<bool>, ghost s: Sweep,
                   ghost t0: seq<Event>, ghost rc0: nat,
                   rvals: seq<real>, interrupted: bool, pollIndex: nat, ghost c: nat)
    returns (rvals': seq<real>, interrupted': bool, pollIndex': nat, failed: bool, err: RunError)
    requires s.ps == Programs(t, taus) && s.wait == wait && s.polls == polls
    requires c < s.loops
    requires InPass(s, rig.readings, rig.trace, rig.readCount, t0, rc0, rvals, interrupted, pollIndex, c, 0)
    modifies rig`trace, rig`readCount
    ensures BetweenPasses(s, rig.readings, rig.trace, rig.readCount, t0, rc0, rvals', interrupted', pollIndex',
                          c + 1, failed, err)
  {
    rvals', interrupted', pollIndex', failed, err := rvals, interrupted, pollIndex, false, PlotMismatch;
    var i := 0;
    while i < |taus|
      invariant InPass(s, rig.readings, rig.trace, rig.readCount, t0, rc0, rvals', interrupted', pollIndex', c, i)
    {
      rvals', interrupted', pollIndex', failed, err :=
        SweepStep(rig, t, taus, wait, polls, s, t0, rc0, rvals', interrupted', pollIndex', c, i);
      if failed {
        return;
      }
      if interrupted' {
        NextPass(s, |rvals'|, true, pollIndex', c, 0);
        return;
      }
      i := i + 1;
    }
    NextPass(s, |rvals'|, interrupted', pollIndex', c, i);
  }

  /** The outer loop: pass after pass until `loops` passes are done or a
      timing error or the plot stops the sweep. */
  method SweepLoop(rig: Rig, t: Timing, taus: seq<nat>, wait: real, polls: seq<bool>, loops: nat,
                   ghost s: Sweep)
    returns (rvals: seq<real>, interrupted: bool, pollIndex: nat, failed: bool, err: RunError)
    requires s == Sweep(Programs(t, taus), wait, polls, loops)
    requires rig.readCount + Mul(s.loops, |s.ps|) <= |rig.readings|
    modifies rig`trace, rig`readCount
    ensures BetweenPasses(s, rig.readings, rig.trace, rig.readCount, old(rig.trace), old(rig.readCount),
                          rvals, interrupted, pollIndex, s.loops, failed, err)
  {
    rvals, interrupted, pollIndex, failed, err := [], false, 0, false, PlotMismatch;
    var loopCounter: nat := 0;
    SweepStarts(s, rig.readings, rig.trace, rig.readCount, err);
    while loopCounter < loops && !failed
      invariant loopCounter <= s.loops
      invariant BetweenPasses(s, rig.readings, rig.trace, rig.readCount, old(rig.trace), old(rig.readCount),
                              rvals, interrupted, pollIndex, loopCounter, failed, err)
    {
      rvals, interrupted, pollIndex, failed, err :=
        SweepPass(rig, t, taus, wait, polls, s, old(rig.trace), old(rig.readCount),
                  rvals, interrupted, pollIndex, loopCounter);
      loopCounter := loopCounter + 1;
    }
  }

  /** All `loops` passes of the sweep, from a fresh state. */
  method SweepAll(rig: Rig, t: Timing, taus: seq<nat>, wait: real, polls: seq<bool>, loops: nat,
                  ghost s: Sweep)
    returns (rvals: seq<real>, failed: bool, err: RunError)
    requires s == Sweep(Programs(t, taus), wait, polls, loops)
    requires rig.readCount + Mul(s.loops, |s.ps|) <= |rig.readings|
    modifies rig`trace, rig`readCount
    ensures rig.trace == old(rig.trace) + Points(s.ps, s.wait, Measured(s.ps, s.loops, s.polls))
                         + (if Fails(s.ps, s.loops, s.polls) then [PbStop, PbReset] else [])
    ensures |rvals| == Measured(s.ps, s.loops, s.polls)
    ensures rig.readCount == old(rig.readCount) + |rvals|
    ensures rvals == rig.readings[old(rig.readCount)..old(rig.readCount) + |rvals|]
    ensures failed <==> Fails(s.ps, s.loops, s.polls) || PlotFails(s.ps, s.loops, s.polls)
    ensures Fails(s.ps, s.loops, s.polls) ==> err == TimingViolation(s.ps[FirstBad(s.ps)].error)
    ensures PlotFails(s.ps, s.loops, s.polls) ==> err == PlotMismatch
  {
    var interrupted, pollIndex;
    rvals, interrupted, pollIndex, failed, err := SweepLoop(rig, t, taus, wait, polls, loops, s);
    SweepEnds(s, rig.readings, rig.trace, rig.readCount, old(rig.trace), old(rig.readCount),
              rvals, interrupted, pollIndex, failed, err);
  }

  /** The sweep with a known settle wait, then teardown: `loops` passes
      over `taus`; per point, poll for an interruption, then stop, reset,
      compile and load, start, settle, read, append and redraw the plot. A
      timing error or a plot that cannot be drawn aborts the sweep;
      teardown always runs. `ps` below is what compiling each tau gives. */
  method SweepThenTeardown(rig: Rig, t: Timing, taus: seq<nat>, loops: nat, wait: real, polls: seq<bool>)
    returns (out: RunOutcome)
    requires rig.readCount + Mul(loops, |taus|) <= |rig.readings|
    modifies rig`trace, rig`readCount
    ensures var ps := Programs(t, taus);
            var n := Measured(ps, loops, polls);
            && rig.trace == old(rig.trace)
                            + Points(ps, wait, n)
                            + (if Fails(ps, loops, polls) then [PbStop, PbReset] else [])
                            + Teardown(rig.faulty)
            && rig.readCount == old(rig.readCount) + n
            && (out.Raised? <==> Fails(ps, loops, polls) || PlotFails(ps, loops, polls))
            && (Fails(ps, loops, polls) ==> out == Raised(TimingViolation(CompileFor(t, taus[FirstBad(ps)]).error)))
            && (PlotFails(ps, loops, polls) ==> out == Raised(PlotMismatch))
            && (out.Returned? ==>
                  && out.tauS == Seconds(taus)
                  && out.rV == rig.readings[old(rig.readCount)..old(rig.readCount) + n])
  {
    ghost var rc0, t0 := rig.readCount, rig.trace;
    ghost var ps := Programs(t, taus);
    ghost var s := Sweep(ps, wait, polls, loops);
    var rvals, failed, err := SweepAll(rig, t, taus, wait, polls, loops, s);
    ghost var n := Measured(ps, loops, polls);
    assert rvals == rig.readings[rc0..rc0 + n];
    assert rig.trace == t0 + Points(ps, wait, n) + (if Fails(ps, loops, polls) then [PbStop, PbReset] else []);
    RunTeardown(rig);
    if failed {
      out := Raised(err);
    } else {
      out := Returned(Seconds(taus), rvals);
    }
  }

  /** The experiment's entry point: set both instruments up, then sweep
      and tear down. `oflt` is the time-constant index the lock-in reports
      when it is set up; an index the setup does not know leaves the settle
      wait undefined, which raises before the sweep's `try`, so nothing is
      torn down. */
  method Run(rig: Rig, t: Timing, taus: seq<nat>, loops: nat, oflt: int, polls: seq<bool>)
    returns (out: RunOutcome)
    requires rig.readCount + Mul(loops, |taus|) <= |rig.readings|
    modifies rig`trace, rig`readCount
    ensures !(0 <= oflt < |SetupTimeConstants|) ==>
              && out == Raised(NoTimeConstant)
              && rig.trace == old(rig.trace) + [PbInit, LockInConnect]
              && rig.readCount == old(rig.readCount)
    ensures 0 <= oflt < |SetupTimeConstants| ==>
              var ps := Programs(t, taus);
              var n := Measured(ps, loops, polls);
              && rig.trace == old(rig.trace) + [PbInit, LockInConnect]
                              + Points(ps, SettleWait(SetupTimeConstants[oflt]), n)
                              + (if Fails(ps, loops, polls) then [PbStop, PbReset] else [])
                              + Teardown(rig.faulty)
              && rig.readCount == old(rig.readCount) + n
              && (out.Raised? <==> Fails(ps, loops, polls) || PlotFails(ps, loops, polls))
              && (Fails(ps, loops, polls) ==> out == Raised(TimingViolation(CompileFor(t, taus[FirstBad(ps)]).error)))
              && (PlotFails(ps, loops, polls) ==> out == Raised(PlotMismatch))
              && (out.Returned? ==>
                    && out.tauS == Seconds(taus)
                    && out.rV == rig.readings[old(rig.readCount)..old(rig.readCount) + n])
  {
    rig.Call(PbInit);
    rig.Call(LockInConnect);
    if !(0 <= oflt < |SetupTimeConstants|) {
      return Raised(NoTimeConstant);
    }
    assert rig.trace == old(rig.trace) + [PbInit, LockInConnect];
    out := SweepThenTeardown(rig, t, taus, loops, SettleWait(SetupTimeConstants[oflt]), polls);
  }
}
