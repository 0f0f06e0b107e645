/** The all-optical three-pulse T1 experiment, microsecond variant: the
    sequence compiler works in microseconds, the lock-in time constant comes
    from a fixed table, the sequencer is primed with the first tau, and
    `Run` makes one pass over the tau sweep. */
module T1 {
  import opened PulseProgram
  import opened Hardware

  /** Channel wiring: bit 0 drives the laser, bit 1 the lock-in reference. */
  const ChLaser: nat := 1
  const ChRef: nat := 2
  /** CH_REF | CH_LASER. */
  const ChRefLaser: nat := 3

  /** Half the reference period, in microseconds. */
  function HalfUs(trefMs: nat): nat { trefMs * 500 }

  /** The three-pulse program for one tau. The first half carries the
      reference-high baseline and then the INIT laser pulse; the second half
      is built by `SecondHalf`. Both timing checks come before anything is
      emitted. */
  function Compile(tauUs: nat, trefMs: nat, initUs: nat, secondUs: nat, readUs: nat)
    : Result<seq<Instr>>
  {
    var half := HalfUs(trefMs);
    if initUs > half then Err(InitLongerThanHalf)
    else if secondUs + tauUs + readUs > half then Err(SecondHalfOverflow)
    else
      var first := [Instr(ChRef, Continue, 0, half - initUs), Instr(ChRefLaser, Continue, 0, initUs)];
      Ok(first + SecondHalf(ChLaser, half, secondUs, tauUs, readUs))
  }

  /** The two timing checks, in order: INIT longer than half the period,
      then the second half (second pulse, tau and read) longer than half
      the period. Everything else compiles. */
  lemma CompileErrors(tauUs: nat, trefMs: nat, initUs: nat, secondUs: nat, readUs: nat)
    ensures var r := Compile(tauUs, trefMs, initUs, secondUs, readUs);
            && (r == Err(InitLongerThanHalf) <==> initUs > HalfUs(trefMs))
            && (r == Err(SecondHalfOverflow) <==>
                  initUs <= HalfUs(trefMs) < secondUs + tauUs + readUs)
            && (r.Ok? <==> initUs <= HalfUs(trefMs) && secondUs + tauUs + readUs <= HalfUs(trefMs))
  {
  }

  /** The shape of a compiled program: baseline then INIT filling the first
      half exactly (the baseline has length 0 when INIT fills the half);
      second pulse, the dark step only when tau > 0, read pulse and the
      clamped BRANCH filler; the second half fills its half exactly unless
      the clamp adds one microsecond. */
  lemma CompileShape(tauUs: nat, trefMs: nat, initUs: nat, secondUs: nat, readUs: nat)
    requires Compile(tauUs, trefMs, initUs, secondUs, readUs).Ok?
    ensures var p := Compile(tauUs, trefMs, initUs, secondUs, readUs).value;
              && |p| == (if tauUs > 0 then 6 else 5)
              && p[0] == Instr(ChRef, Continue, 0, HalfUs(trefMs) - initUs)
              && p[1] == Instr(ChRefLaser, Continue, 0, initUs)
              && p[0].length + p[1].length == HalfUs(trefMs)
              && p[2] == Instr(ChLaser, Continue, 0, secondUs)
              && (tauUs > 0 ==> p[3] == Instr(0, Continue, 0, tauUs))
              && p[|p| - 2] == Instr(ChLaser, Continue, 0, readUs)
              && p[|p| - 1] == Instr(0, Branch, 0, Max(1, HalfUs(trefMs) - (secondUs + tauUs + readUs)))
              && LoopsForever(p)
              && TotalLength(p[2..]) == HalfUs(trefMs) + (if secondUs + tauUs + readUs == HalfUs(trefMs) then 1 else 0)
  {
    var half := HalfUs(trefMs);
    var p := Compile(tauUs, trefMs, initUs, secondUs, readUs).value;
    SecondHalfShape(ChLaser, half, secondUs, tauUs, readUs);
    assert p[2..] == SecondHalf(ChLaser, half, secondUs, tauUs, readUs);
  }

  /** The lock-in time constants, in seconds, by OFLT index. */
  const TimeConstants: seq<real> :=
    [0.00001, 0.00003, 0.0001, 0.0003, 0.001, 0.003, 0.01, 0.03, 0.1, 0.3,
     1.0, 3.0, 10.0, 30.0, 100.0, 300.0, 1000.0, 3000.0, 10000.0, 30000.0]

  /** The time constant the connect step reports for an OFLT index: the
      table entry, or 10 ms for an index outside the table. */
  function TimeConstant(index: int): (tc: real)
  {
    if 0 <= index < |TimeConstants| then TimeConstants[index] else 0.01
  }

  /** Every reported time constant is positive; the entries alternate
      between the 1 and 3 steps of each decade, so the table is strictly
      increasing; and the fallback is the entry of the default index 6. */
  lemma {:induction false} TimeConstantFacts(index: int)
    ensures TimeConstant(index) > 0.0
    ensures 0 <= index < |TimeConstants| - 1 ==>
              TimeConstants[index + 1] == (if index % 2 == 0 then 3.0 else 10.0 / 3.0) * TimeConstants[index]
    ensures 0 <= index < |TimeConstants| - 1 ==> TimeConstants[index] < TimeConstants[index + 1]
    ensures !(0 <= index < |TimeConstants|) ==> TimeConstant(index) == TimeConstants[6]
  {
    if 0 <= index < |TimeConstants| {
      var k: nat := index;
      assert TimeConstants[k] > 0.0 by {
        assert forall i :: 0 <= i < |TimeConstants| ==> TimeConstants[i] > 0.0;
      }
    }
  }

  /** Settle time per point, in seconds: five lock-in time constants, and
      never less than 20 ms. */
  function SettleWait(tauLI: real): (w: real)
    ensures w >= 0.02 && w >= 5.0 * tauLI
    ensures w == 0.02 || w == 5.0 * tauLI
  {
    if 0.02 < 5.0 * tauLI then 5.0 * tauLI else 0.02
  }

  /** The wait after priming: the settle wait, and at least two reference
      periods. */
  function PrimeWait(wait: real, trefMs: nat): (w: real)
    ensures w >= wait && w >= 2.0 * (trefMs as real / 1000.0)
    ensures w == wait || w == 2.0 * (trefMs as real / 1000.0)
  {
    if wait < 2.0 * (trefMs as real / 1000.0) then 2.0 * (trefMs as real / 1000.0) else wait
  }

  /** The fixed timings of a sweep. */
  datatype Timing = Timing(trefMs: nat, initUs: nat, secondUs: nat, readUs: nat)

  /** The module's defaults: a 4 ms (250 Hz) reference, 10 us INIT, 8 us
      second pulse, 5 us read pulse; OFLT index 6. */
  const DefaultTiming := Timing(4, 10, 8, 5)
  const DefaultOfltIndex := 6

  function CompileFor(t: Timing, tauUs: nat): Result<seq<Instr>>
  {
    Compile(tauUs, t.trefMs, t.initUs, t.secondUs, t.readUs)
  }

  /** With the default timings a whole-microsecond tau compiles exactly when
      it is at most 1987 us, and the settle wait is 50 ms. */
  lemma DefaultsFit(tauUs: nat)
    ensures CompileFor(DefaultTiming, tauUs).Ok? <==> tauUs <= 1987
    ensures SettleWait(TimeConstant(DefaultOfltIndex)) == 0.05
  {
    CompileErrors(tauUs, 4, 10, 8, 5);
  }

  /** What compiling each tau of the sweep gives, in sweep order. */
  function Programs(t: Timing, taus: seq<nat>): (ps: seq<Result<seq<Instr>>>)
    ensures |ps| == |taus|
    ensures forall i {:trigger ps[i]} :: 0 <= i < |taus| ==> ps[i] == CompileFor(t, taus[i])
  {
    seq(|taus|, i requires 0 <= i < |taus| => CompileFor(t, taus[i]))
  }

  /** The hardware calls of priming: load the first program, start, wait. */
  function Prime(program: seq<Instr>, wait: real): seq<Event>
  {
    [PbLoad(program), PbStart, Sleep(wait)]
  }

  /** The hardware calls of one point: stop, load (no reset), start,
      settle, read. */
  function PointEvents(program: seq<Instr>, wait: real): seq<Event>
  {
    [PbStop, PbLoad(program), PbStart, Sleep(wait), QueryR]
  }

  /** The hardware calls of the first `n` completed points. */
  function Points(ps: seq<Result<seq<Instr>>>, wait: real, n: nat): (s: seq<Event>)
    requires n <= FirstBad(ps)
    ensures |s| == 5 * n
  {
    if n == 0 then []
    else Points(ps, wait, n - 1) + PointEvents(ps[n - 1].value, wait)
  }

  /** The pass stops on a timing error: the first tau that does not fit is
      reached before the interruption. */
  predicate Fails(ps: seq<Result<seq<Instr>>>, polls: seq<bool>)
  {
    FirstBad(ps) < FirstInterrupt(polls, |ps|)
  }

  /** How many points complete: up to the first tau that does not compile
      or the first poll that sees an interruption, whichever comes first. */
  function Completed(ps: seq<Result<seq<Instr>>>, polls: seq<bool>): (n: nat)
  {
    if Fails(ps, polls) then FirstBad(ps) else FirstInterrupt(polls, |ps|)
  }

  /** The pass runs over the whole sweep exactly when no poll sees a
      request and every tau compiles; otherwise it ends early, and on a
      timing error it ends at the first tau that does not compile. */
  lemma CompletedBounds(ps: seq<Result<seq<Instr>>>, polls: seq<bool>)
    ensures Completed(ps, polls) <= FirstBad(ps) && Completed(ps, polls) <= FirstInterrupt(polls, |ps|)
    ensures Completed(ps, polls) == |ps| <==>
              FirstBad(ps) == |ps| && forall q :: 0 <= q < |ps| ==> !Requested(polls, q)
    ensures Fails(ps, polls) ==> Completed(ps, polls) < |ps| && ps[Completed(ps, polls)].Err?
  {
    if Completed(ps, polls) != |ps| && FirstBad(ps) == |ps| {
      var j := FirstInterrupt(polls, |ps|);
      assert Requested(polls, j);
    }
  }

  /** The calls of point `k` are stop, load the program of `taus[k]`
      (no reset), start, settle, read. */
  lemma {:induction false} PointsAt(ps: seq<Result<seq<Instr>>>, wait: real, n: nat, k: nat)
    requires n <= FirstBad(ps) && k < n
    ensures Points(ps, wait, n)[5 * k..5 * k + 5] == PointEvents(ps[k].value, wait)
  {
    var before := Points(ps, wait, n - 1);
    var last := PointEvents(ps[n - 1].value, wait);
    assert Points(ps, wait, n) == before + last;
    if k < n - 1 {
      PointsAt(ps, wait, n - 1, k);
      assert (before + last)[5 * k..5 * k + 5] == before[5 * k..5 * k + 5];
    } else {
      assert |before| == 5 * k && |last| == 5;
      assert (before + last)[|before|..|before| + |last|] == last;
    }
  }

  /** The calls of fewer points are a prefix of the calls of more. */
  lemma {:induction false} PointsPrefix(ps: seq<Result<seq<Instr>>>, wait: real, m: nat, n: nat)
    requires n <= FirstBad(ps) && m <= n
    ensures Points(ps, wait, m) == Points(ps, wait, n)[..5 * m]
  {
    if m < n {
      PointsPrefix(ps, wait, m, n - 1);
      assert Points(ps, wait, n)[..5 * (n - 1)] == Points(ps, wait, n - 1);
    }
  }

  /** An interruption only cuts the pass short: no more points complete
      than without any request. */
  lemma InterruptionShortens(ps: seq<Result<seq<Instr>>>, polls: seq<bool>)
    ensures Completed(ps, polls) <= Completed(ps, [])
  {
  }

  /** The teardown of the `finally` block: every call in its own `try`
      except the last pair, where a lock-in close that raises skips closing
      the resource manager. */
  function Teardown(faulty: set<Event>): (s: seq<Event>)
  {
    [PbStop, PbReset, PbClose, LockInClose]
    + (if LockInClose in faulty then [] else [ManagerClose])
  }

  /** Teardown makes every sequencer call whatever raises, and closes the
      resource manager exactly when closing the lock-in did not raise. */
  lemma TeardownCalls(faulty: set<Event>)
    ensures Teardown(faulty)[..4] == [PbStop, PbReset, PbClose, LockInClose]
    ensures ManagerClose in Teardown(faulty) <==> LockInClose !in faulty
  {
  }

  method RunTeardown(rig: Rig)
    modifies rig`trace
    ensures rig.trace == old(rig.trace) + Teardown(rig.faulty)
  {
    var ok := rig.Attempt(PbStop);
    ok := rig.Attempt(PbReset);
    ok := rig.Attempt(PbClose);
    ok := rig.Attempt(LockInClose);
    if ok {
      ok := rig.Attempt(ManagerClose);
    }
  }

  /** One point after the poll: stop, compile and load, start, settle, read. */
  method MeasurePoint(rig: Rig, t: Timing, tauUs: nat, wait: real) returns (res: Result<real>)
    requires rig.readCount < |rig.readings|
    modifies rig`trace, rig`readCount
    ensures res.Ok? <==> CompileFor(t, tauUs).Ok?
    ensures res.Ok? ==> rig.trace == old(rig.trace) + PointEvents(CompileFor(t, tauUs).value, wait)
    ensures res.Ok? ==> rig.readCount == old(rig.readCount) + 1 && res.value == rig.readings[old(rig.readCount)]
    ensures res.Err? ==> rig.trace == old(rig.trace) + [PbStop]
    ensures res.Err? ==> rig.readCount == old(rig.readCount) && res.error == CompileFor(t, tauUs).error
  {
    rig.Call(PbStop);
    var program := CompileFor(t, tauUs);
    if program.Err? {
      return Err(program.error);
    }
    rig.Call(PbLoad(program.value));
    rig.Call(PbStart);
    rig.Call(Sleep(wait));
    var r := rig.ReadR();
    res := Ok(r);
  }

  /** One more completed point extends the calls by that point's events. */
  lemma PointsGrow(ps: seq<Result<seq<Instr>>>, wait: real, i: nat, trace: seq<Event>, t0: seq<Event>)
    requires i < FirstBad(ps)
    requires trace == t0 + Points(ps, wait, i)
    ensures trace + PointEvents(ps[i].value, wait) == t0 + Points(ps, wait, i + 1)
  {
    assert trace + PointEvents(ps[i].value, wait) == t0 + (Points(ps, wait, i) + PointEvents(ps[i].value, wait));
  }

  /** Where a pass stops: at the end of the sweep, at a poll that sees a
      request, or at a tau that does not compile; the points before it are
      exactly those that complete, and it fails only in the last case. */
  lemma PassEnds(ps: seq<Result<seq<Instr>>>, polls: seq<bool>, i: nat, failed: bool)
    requires i <= |ps| && i <= FirstBad(ps) && i <= FirstInterrupt(polls, |ps|)
    requires failed ==> i < |ps| && ps[i].Err? && !Requested(polls, i)
    requires !failed ==> i == |ps| || Requested(polls, i)
    ensures i == Completed(ps, polls)
    ensures failed <==> Fails(ps, polls)
  {
  }

  /** The pass over the sweep: poll, then measure, tau after tau, until an
      interruption, a timing error or the end of the sweep. */
  method SweepOnce(rig: Rig, t: Timing, taus: seq<nat>, wait: real, polls: seq<bool>,
                   ghost ps: seq<Result<seq<Instr>>>)
    returns (rvals: seq<real>, failed: bool, err: CompileError)
    requires ps == Programs(t, taus)
    requires rig.readCount + |taus| <= |rig.readings|
    modifies rig`trace, rig`readCount
    ensures Completed(ps, polls) <= FirstBad(ps)
    ensures rig.trace == old(rig.trace) + Points(ps, wait, Completed(ps, polls))
                         + (if failed then [PbStop] else [])
    ensures |rvals| == Completed(ps, polls)
    ensures rig.readCount == old(rig.readCount) + |rvals|
    ensures rvals == rig.readings[old(rig.readCount)..old(rig.readCount) + |rvals|]
    ensures failed <==> Fails(ps, polls)
    ensures failed ==> err == ps[FirstBad(ps)].error
  {
    ghost var t0, rc0 := rig.trace, rig.readCount;
    var i := 0;
    rvals, failed, err := [], false, InitLongerThanHalf;
    ghost var j := FirstInterrupt(polls, |taus|);
    while i < |taus|
      invariant i <= |taus| && i <= FirstBad(ps) && i <= j
      invariant rig.readCount == rc0 + i && |rvals| == i
      invariant rvals == rig.readings[rc0..rc0 + i]
      invariant rig.trace == t0 + Points(ps, wait, i)
    {
      if Requested(polls, i) {
        FirstInterruptAt(polls, |taus|, i);
        break;
      }
      assert ps[i] == CompileFor(t, taus[i]);
      ServedOneMore(rig.readings, rc0, rc0 + i);
      ghost var before := rig.trace;
      var res := MeasurePoint(rig, t, taus[i], wait);
      if res.Err? {
        failed, err := true, res.error;
        break;
      }
      PointsGrow(ps, wait, i, before, t0);
      rvals := rvals + [res.value];
      i := i + 1;
    }
    PassEnds(ps, polls, i, failed);
  }

  /** The experiment's entry point: set both instruments up, prime the
      sequencer with the first tau, make the pass over the sweep, and tear
      down whatever happened; an exception is re-raised after teardown. An
      empty sweep fails when priming reads its first element. */
  method Run(rig: Rig, t: Timing, taus: seq<nat>, ofltIndex: int, polls: seq<bool>)
    returns (out: RunOutcome)
    requires rig.readCount + |taus| <= |rig.readings|
    modifies rig`trace, rig`readCount
    ensures |taus| == 0 ==>
              out == Raised(EmptySweep) &&
              rig.trace == old(rig.trace) + [PbInit, LockInConnect] + Teardown(rig.faulty) &&
              rig.readCount == old(rig.readCount)
    ensures |taus| > 0 && CompileFor(t, taus[0]).Err? ==>
              out == Raised(TimingViolation(CompileFor(t, taus[0]).error)) &&
              rig.trace == old(rig.trace) + [PbInit, LockInConnect] + Teardown(rig.faulty) &&
              rig.readCount == old(rig.readCount)
    ensures |taus| > 0 && CompileFor(t, taus[0]).Ok? ==>
              var ps := Programs(t, taus);
              var wait := SettleWait(TimeConstant(ofltIndex));
              var n := Completed(ps, polls);
              && n <= FirstBad(ps)
              && rig.trace == old(rig.trace) + [PbInit, LockInConnect]
                              + Prime(CompileFor(t, taus[0]).value, PrimeWait(wait, t.trefMs))
                              + Points(ps, wait, n)
                              + (if Fails(ps, polls) then [PbStop] else [])
                              + Teardown(rig.faulty)
              && rig.readCount == old(rig.readCount) + n
              && (out.Raised? <==> Fails(ps, polls))
              && (out.Raised? ==> out.error == TimingViolation(ps[FirstBad(ps)].error))
              && (out.Returned? ==>
                    out.tauS == Seconds(taus) &&
                    out.rV == rig.readings[old(rig.readCount)..old(rig.readCount) + n])
  {
    rig.Call(PbInit);
    rig.Call(LockInConnect);
    ghost var rc0, t0 := rig.readCount, rig.trace;
    assert t0 == old(rig.trace) + [PbInit, LockInConnect];
    var wait := SettleWait(TimeConstant(ofltIndex));
    var rvals: seq<real> := [];
    var failed := true;
    var err: RunError := EmptySweep;
    if |taus| > 0 {
      var first := CompileFor(t, taus[0]);
      if first.Err? {
        err := TimingViolation(first.error);
      } else {
        rig.Call(PbLoad(first.value));
        rig.Call(PbStart);
        rig.Call(Sleep(PrimeWait(wait, t.trefMs)));
        ghost var t1 := rig.trace;
        assert t1 == t0 + Prime(first.value, PrimeWait(wait, t.trefMs));
        ghost var ps := Programs(t, taus);
        var e;
        rvals, failed, e := SweepOnce(rig, t, taus, wait, polls, ps);
        err := TimingViolation(e);
        ghost var n := Completed(ps, polls);
        assert rvals == rig.readings[rc0..rc0 + n];
        assert rig.trace == t1 + Points(ps, wait, n) + (if Fails(ps, polls) then [PbStop] else []);
      }
    }
    RunTeardown(rig);
    if failed {
      out := Raised(err);
    } else {
      out := Returned(Seconds(taus), rvals);
    }
  }
}
