/** Pulse programs for the TTL sequencer: the instruction list that a
    compiled three-pulse sequence hands to the board, and the second half
    of the reference period that both T1 variants build in the same way. */
module PulseProgram {

  /** The two opcodes the three-pulse programs use. A `Branch` with data 0
      jumps back to the first instruction, so the program loops forever. */
  datatype Opcode = Continue | Branch

  /** One sequencer instruction: output flags (a channel bit mask), opcode,
      instruction data and the length in the variant's time unit. */
  datatype Instr = Instr(flags: nat, op: Opcode, data: nat, length: nat)

  /** The two timing checks that reject a sequence before anything is emitted. */
  datatype CompileError = InitLongerThanHalf | SecondHalfOverflow

  datatype Result<T> = Ok(value: T) | Err(error: CompileError)

  function Max(a: int, b: int): int { if a < b then b else a }

  /** Sum of the instruction lengths of a program. */
  function TotalLength(p: seq<Instr>): nat
  {
    if p == [] then 0 else p[0].length + TotalLength(p[1..])
  }

  lemma {:induction false} TotalLengthAppend(a: seq<Instr>, b: seq<Instr>)
    ensures TotalLength(a + b) == TotalLength(a) + TotalLength(b)
  {
    if a == [] {
      assert a + b == b;
    } else {
      assert (a + b)[1..] == a[1..] + b;
      TotalLengthAppend(a[1..], b);
    }
  }

  /** Every instruction but the last continues; the last one branches back
      to instruction 0. */
  predicate LoopsForever(p: seq<Instr>)
  {
    |p| > 0 &&
    p[|p| - 1].op == Branch && p[|p| - 1].data == 0 &&
    forall i :: 0 <= i < |p| - 1 ==> p[i].op == Continue
  }

  /** The dark step `(0, CONTINUE, tau)`, present only when tau > 0. */
  function DarkStep(tau: nat): (d: seq<Instr>)
    ensures |d| == (if tau > 0 then 1 else 0)
    ensures forall i :: 0 <= i < |d| ==> d[i] == Instr(0, Continue, 0, tau)
  {
    if tau > 0 then [Instr(0, Continue, 0, tau)] else []
  }

  /** Second half of the reference period (reference low): the second laser
      pulse, the optional dark tau step, the read pulse and the BRANCH filler
      whose length is the remainder of the half, clamped below at 1. */
  function SecondHalf(laser: nat, half: nat, second: nat, tau: nat, read: nat): seq<Instr>
    requires second + tau + read <= half
  {
    var filler := Max(1, half - (second + tau + read));
    [Instr(laser, Continue, 0, second)] + DarkStep(tau)
    + [Instr(laser, Continue, 0, read), Instr(0, Branch, 0, filler)]
  }

  /** The second half has three or four steps in that order, loops back to
      the start, and fills the half exactly unless the clamp of the filler
      adds one unit. */
  lemma SecondHalfShape(laser: nat, half: nat, second: nat, tau: nat, read: nat)
    requires second + tau + read <= half
    ensures var p := SecondHalf(laser, half, second, tau, read);
            && |p| == (if tau > 0 then 4 else 3)
            && p[0] == Instr(laser, Continue, 0, second)
            && p[|p| - 2] == Instr(laser, Continue, 0, read)
            && p[|p| - 1] == Instr(0, Branch, 0, Max(1, half - (second + tau + read)))
            && (tau > 0 ==> p[1] == Instr(0, Continue, 0, tau))
            && LoopsForever(p)
            && TotalLength(p) == (if second + tau + read < half then half else half + 1)
  {
    var filler := Max(1, half - (second + tau + read));
    assert TotalLength(DarkStep(tau)) == tau by {
      if tau > 0 { assert DarkStep(tau)[1..] == []; }
    }
    assert TotalLength([Instr(laser, Continue, 0, read), Instr(0, Branch, 0, filler)]) == read + filler by {
      assert [Instr(laser, Continue, 0, read), Instr(0, Branch, 0, filler)][1..] == [Instr(0, Branch, 0, filler)];
      assert [Instr(0, Branch, 0, filler)][1..] == [];
      assert TotalLength([Instr(0, Branch, 0, filler)]) == filler;
    }
    assert TotalLength([Instr(laser, Continue, 0, second)]) == second by {
      assert [Instr(laser, Continue, 0, second)][1..] == [];
    }
    TotalLengthAppend([Instr(laser, Continue, 0, second)], DarkStep(tau));
    TotalLengthAppend([Instr(laser, Continue, 0, second)] + DarkStep(tau),
                      [Instr(laser, Continue, 0, read), Instr(0, Branch, 0, filler)]);
  }

  /** In a list of compile results, one per tau of a sweep: the first that
      failed, or `|ps|` when all succeeded. */
  function FirstBad(ps: seq<Result<seq<Instr>>>): (b: nat)
    ensures b <= |ps|
    ensures forall q :: 0 <= q < b ==> ps[q].Ok?
    ensures b < |ps| ==> ps[b].Err?
  {
    if ps == [] then 0
    else if ps[0].Err? then 0
    else 1 + FirstBad(ps[1..])
  }

}
