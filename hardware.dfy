/** The apparatus a T1 sweep drives: the TTL sequencer (SpinAPI calls) and
    the lock-in (VISA session). The model keeps a trace of every call in the
    order it is made; lock-in readings come from a fixed list of answers and
    the teardown calls that raise are named up front. */
module Hardware {
  import opened PulseProgram

  /** One call into the hardware. */
  datatype Event =
    | PbInit                    // select board, init, set core clock
    | LockInConnect             // open the VISA session and set the lock-in up
    | PbStop
    | PbReset
    | PbLoad(program: seq<Instr>)  // pb_start_programming .. pb_stop_programming
    | PbStart
    | Sleep(seconds: real)
    | QueryR                    // one query of the lock-in magnitude R
    | PbClose
    | LockInClose
    | ManagerClose              // the VISA resource manager

  /** Why a sweep ended with an exception: a timing check of the compiler,
      indexing the first element of an empty sweep, a lock-in setup that
      reported no time constant, so that the settle wait cannot be computed,
      or a live plot whose tau and reading arrays cannot be paired. */
  datatype RunError = TimingViolation(error: CompileError) | EmptySweep | NoTimeConstant | PlotMismatch

  /** What `run` hands back: the sweep in seconds and the readings taken,
      or the exception it re-raises after teardown. */
  datatype RunOutcome = Returned(tauS: seq<real>, rV: seq<real>) | Raised(error: RunError)

  /** The sweep converted from microseconds to seconds. */
  function Seconds(tausUs: seq<nat>): (s: seq<real>)
    ensures |s| == |tausUs|
    ensures forall i :: 0 <= i < |s| ==> s[i] == tausUs[i] as real / 1000000.0
  {
    seq(|tausUs|, i requires 0 <= i < |tausUs| => tausUs[i] as real / 1000000.0)
  }

  /** Conversion goes tau by tau: it commutes with joining sweeps, keeps
      the order of the taus, and scaling back by 10^6 gives each tau again. */
  lemma SecondsFacts(a: seq<nat>, b: seq<nat>)
    ensures Seconds(a + b) == Seconds(a) + Seconds(b)
    ensures forall i, j :: 0 <= i < |a| && 0 <= j < |a| && a[i] <= a[j] ==> Seconds(a)[i] <= Seconds(a)[j]
    ensures forall i :: 0 <= i < |a| ==> Seconds(a)[i] * 1000000.0 == a[i] as real
  {
    assert forall i :: 0 <= i < |a + b| ==> Seconds(a + b)[i] == (Seconds(a) + Seconds(b))[i];
  }

  class Rig {
    /** The calls made so far, oldest first. */
    var trace: seq<Event>
    /** How many readings have been served. */
    var readCount: nat
    /** The values the lock-in answers, in order. */
    const readings: seq<real>
    /** Teardown calls that raise. */
    const faulty: set<Event>

    constructor (readings: seq<real>, faulty: set<Event>)
      ensures this.readings == readings && this.faulty == faulty
      ensures trace == [] && readCount == 0
    {
      this.readings := readings;
      this.faulty := faulty;
      trace := [];
      readCount := 0;
    }

    /** A call that succeeds and returns nothing. */
    method Call(e: Event)
      modifies this`trace
      ensures trace == old(trace) + [e]
    {
      trace := trace + [e];
    }

    /** A teardown call inside a `try`: it is made, and `ok` says whether it
        returned normally. */
    method Attempt(e: Event) returns (ok: bool)
      modifies this`trace
      ensures trace == old(trace) + [e]
      ensures ok <==> e !in faulty
    {
      trace := trace + [e];
      ok := e !in faulty;
    }

    /** Reads R from the lock-in. */
    method ReadR() returns (r: real)
      requires readCount < |readings|
      modifies this`trace, this`readCount
      ensures trace == old(trace) + [QueryR]
      ensures readCount == old(readCount) + 1
      ensures r == readings[old(readCount)]
    {
      trace := trace + [QueryR];
      r := readings[readCount];
      readCount := readCount + 1;
    }
  }

  /** The readings served from `lo` up to `hi`, and then one more. */
  lemma ServedOneMore(readings: seq<real>, lo: nat, hi: nat)
    requires lo <= hi < |readings|
    ensures readings[lo..hi + 1] == readings[lo..hi] + [readings[hi]]
  {
  }

  /** What the interruption poll number `q` saw requested. */
  predicate Requested(polls: seq<bool>, q: nat)
  {
    q < |polls| && polls[q]
  }

  /** The first of the first `n` polls that sees an interruption request,
      or `n` when none does. */
  function FirstInterrupt(polls: seq<bool>, n: nat): (j: nat)
    ensures j <= n
    ensures forall q :: 0 <= q < j ==> !Requested(polls, q)
    ensures j < n ==> Requested(polls, j)
  {
    if n == 0 then 0
    else
      var j := FirstInterrupt(polls, n - 1);
      if j < n - 1 then j
      else if Requested(polls, n - 1) then n - 1
      else n
  }

  /** Once poll `k` (with `k < n`) is the first to see a request, it is
      `FirstInterrupt`. */
  lemma FirstInterruptAt(polls: seq<bool>, n: nat, k: nat)
    requires k < n && Requested(polls, k)
    requires forall q :: 0 <= q < k ==> !Requested(polls, q)
    ensures FirstInterrupt(polls, n) == k
  {
  }

  /** `c * p` by repeated addition, so that loop invariants over passes
      stay linear. */
  function Mul(c: nat, p: nat): nat
  {
    if c == 0 then 0 else Mul(c - 1, p) + p
  }

  /** No slots in a sweep without points. */
  lemma {:induction false} MulNoPoints(c: nat)
    ensures Mul(c, 0) == 0
  {
    if c > 0 {
      MulNoPoints(c - 1);
    }
  }

  lemma {:induction false} MulIsProduct(c: nat, p: nat)
    ensures Mul(c, p) == c * p
  {
    if c > 0 {
      MulIsProduct(c - 1, p);
    }
  }

  /** Pass `c` of `loops`, point `i` of `p`: the slot `c * p + i` lies in
      the sweep and points at element `i`. */
  lemma SlotBounds(c: nat, loops: nat, i: nat, p: nat)
    requires c < loops && i < p
    ensures Mul(c, p) + i < Mul(loops, p)
    ensures (Mul(c, p) + i) % p == i
  {
    SlotBelow(c, loops, p);
    SlotMod(c, i, p);
  }

  lemma {:induction false} SlotBelow(c: nat, loops: nat, p: nat)
    requires c < loops
    ensures Mul(c, p) + p <= Mul(loops, p)
  {
    if c > 0 {
      SlotBelow(c - 1, loops - 1, p);
    }
  }

  /** Two passes or more hold at least twice the points. */
  lemma MulTwice(c: nat, p: nat)
    requires c >= 2
    ensures Mul(1, p) == p
    ensures Mul(c, p) >= 2 * p
  {
    SlotBelow(1, c, p);
    assert Mul(1, p) == Mul(0, p) + p;
  }

  lemma SlotMod(c: nat, i: nat, p: nat)
    requires i < p
    ensures (Mul(c, p) + i) % p == i
  {
    MulIsProduct(c, p);
    var x := c * p + i;
    var q, r := x / p, x % p;
    assert x == q * p + r;
    if q < c {
      MulLeft(c - q, p);
      assert false;
    } else if q > c {
      MulLeft(q - c, p);
      assert false;
    }
  }

  lemma MulLeft(d: nat, p: nat)
    requires d >= 1
    ensures d * p >= p
  {
  }
}
