/** The SR830 driver that serves both the finite-sampling and the
    fast-counter interfaces: sample-rate, channel and frame-size setters,
    `configure` with its clamping, the status machine of a fast counter,
    the volts-to-counts scale from the sensitivity table, and the shaping
    of a data trace to a fixed length. */
module Piglet {
  import opened LockIn

  /** The SENS full-scale sensitivities in volts, by index: 2 nV to 1 V in
      steps of 2, 5, 10 per decade. */
  const SensTable: seq<real> :=
    [0.000000002, 0.000000005, 0.00000001, 0.00000002, 0.00000005,
     0.0000001, 0.0000002, 0.0000005, 0.000001, 0.000002,
     0.000005, 0.00001, 0.00002, 0.00005, 0.0001,
     0.0002, 0.0005, 0.001, 0.002, 0.005,
     0.01, 0.02, 0.05, 0.1, 0.2,
     0.5, 1.0]

  /** The scale used when the sensitivity cannot be read. */
  const FallbackScale: real := 1000000000.0

  /** The full scale in counts that `configure` asks for. */
  const FullScaleCounts: real := 1000000.0

  /** The sensitivity a SENS? reply names: `None` when the reply does not
      parse as an integer or is not an index of the table. */
  function SensitivityFor(reply: Option<int>): (s: Option<real>)
    ensures s.Some? <==> reply.Some? && 0 <= reply.value < |SensTable|
    ensures s.Some? ==> s.value == SensTable[reply.value]
  {
    if reply.Some? && 0 <= reply.value < |SensTable| then Some(SensTable[reply.value]) else None
  }

  /** Each sensitivity is 2, 2.5 or 2 times the one before it. */
  lemma SensStep(i: nat)
    requires 0 < i < |SensTable|
    ensures SensTable[i] == (if i % 3 == 1 then 2.5 else 2.0) * SensTable[i - 1]
  {
  }

  lemma {:induction false} SensIncrease(i: nat, j: nat)
    requires i < j < |SensTable|
    ensures SensTable[i] < SensTable[j]
  {
    SensStep(j);
    if i < j - 1 {
      SensIncrease(i, j - 1);
    }
  }

  /** Volts to counts: `fullScale` counts at the full-scale sensitivity, or
      the fallback. */
  function ScaleFor(reply: Option<int>, fullScale: real): real
  {
    var s := SensitivityFor(reply);
    if s.Some? then fullScale / s.value else FallbackScale
  }

  /** With a readable sensitivity the scale maps full scale to exactly
      `fullScale` counts, and lies between 10^6 (1 V) and 5 * 10^14 (2 nV)
      for the default; otherwise it is the fallback 10^9. */
  lemma ScaleForFacts(reply: Option<int>)
    ensures var s := SensitivityFor(reply);
            s.Some? ==> ScaleFor(reply, FullScaleCounts) * s.value == FullScaleCounts
    ensures SensitivityFor(reply).None? ==> ScaleFor(reply, FullScaleCounts) == FallbackScale
    ensures 1000000.0 <= ScaleFor(reply, FullScaleCounts) <= 500000000000000.0
  {
    var s := SensitivityFor(reply);
    if s.Some? {
      var i: nat := reply.value;
      if i > 0 { SensIncrease(0, i); }
      if i < |SensTable| - 1 { SensIncrease(i, |SensTable| - 1); }
      assert SensTable[0] <= s.value <= SensTable[|SensTable| - 1];
    }
  }

  /** The rate `configure` asks for: the inverse of a positive bin width,
      or the current rate otherwise. */
  function DesiredRate(binWidthS: real, current: real): real
  {
    if binWidthS > 0.0 then 1.0 / binWidthS else current
  }

  /** numpy's `round`: the nearest integer, halves to the even one. */
  function RoundHalfEven(x: real): (r: int)
    ensures -0.5 <= r as real - x <= 0.5
    ensures (r as real - x == 0.5 || x - r as real == 0.5) ==> r % 2 == 0
  {
    var f := x.Floor;
    var d := x - f as real;
    if d < 0.5 then f
    else if d > 0.5 then f + 1
    else if f % 2 == 0 then f else f + 1
  }

  /** Rounding lands on a nearest integer: no integer is closer to `x`. */
  lemma RoundIsNearest(x: real, m: int)
    ensures Abs(RoundHalfEven(x) as real - x) <= Abs(m as real - x)
  {
    var r := RoundHalfEven(x);
    if m < r {
      assert m as real <= r as real - 1.0;
    } else if m > r {
      assert m as real >= r as real + 1.0;
    }
  }

  function Clamp(n: int, lo: int, hi: int): int
    requires lo <= hi
  {
    if n < lo then lo else if n > hi then hi else n
  }

  /** The record length in samples that `configure` settles on: the
      record length times 100 times the rate, rounded, at least 1, and
      clamped to the frame-size limits. */
  function RecordSamples(recordLengthS: real, rate: real): (n: int)
    ensures FrameSizeInRange(n)
  {
    var m := RoundHalfEven(recordLengthS * 100.0 * rate);
    Clamp(if m < 1 then 1 else m, MinFrame, MaxFrame)
  }

  /** The rounded count is kept when it fits the buffer, and otherwise
      moved to the nearer limit. */
  lemma RecordSamplesClamps(recordLengthS: real, rate: real)
    ensures var m := RoundHalfEven(recordLengthS * 100.0 * rate);
            && (FrameSizeInRange(m) ==> RecordSamples(recordLengthS, rate) == m)
            && (m < MinFrame ==> RecordSamples(recordLengthS, rate) == MinFrame)
            && (m > MaxFrame ==> RecordSamples(recordLengthS, rate) == MaxFrame)
  {
  }

  /** `n` zeros. */
  function Zeros(n: nat): (z: seq<real>)
    ensures |z| == n && forall i :: 0 <= i < n ==> z[i] == 0.0
  {
    seq(n, i => 0.0)
  }

  /** Zero-padded or truncated to exactly `n` values. */
  function PadOrTruncate(v: seq<real>, n: nat): (r: seq<real>)
    ensures |r| == n
    ensures forall i :: 0 <= i < n ==> r[i] == (if i < |v| then v[i] else 0.0)
  {
    if |v| < n then v + Zeros(n - |v|) else v[..n]
  }

  /** Shaping twice is shaping once; a long trace keeps its first `n`
      values and a short one is a prefix of the result. */
  lemma PadOrTruncateFacts(v: seq<real>, n: nat)
    ensures PadOrTruncate(PadOrTruncate(v, n), n) == PadOrTruncate(v, n)
    ensures |v| >= n ==> PadOrTruncate(v, n) == v[..n]
    ensures |v| <= n ==> PadOrTruncate(v, n)[..|v|] == v
  {
  }

  /** The trace `get_data_trace` shapes: X when it holds values, else Y
      when it does, else zeros; padded or truncated to `n`. */
  function Voltages(buf: map<string, seq<real>>, n: nat): (v: seq<real>)
    ensures |v| == n
  {
    if "X" in buf && |buf["X"]| > 0 then PadOrTruncate(buf["X"], n)
    else if "Y" in buf && |buf["Y"]| > 0 then PadOrTruncate(buf["Y"], n)
    else Zeros(n)
  }

  /** The trace begins with the chosen channel's values and is zero after
      them: X wins over Y, and an empty buffer gives all zeros. */
  lemma VoltagesChoose(buf: map<string, seq<real>>, n: nat, i: nat)
    requires i < n
    ensures var src := if "X" in buf && |buf["X"]| > 0 then buf["X"]
                       else if "Y" in buf && |buf["Y"]| > 0 then buf["Y"]
                       else [];
            Voltages(buf, n)[i] == (if i < |src| then src[i] else 0.0)
  {
  }

  /** Voltages to pseudo counts: each value times the scale, rounded. */
  function Counts(v: seq<real>, scale: real): (c: seq<int>)
    ensures |c| == |v|
    ensures forall i :: 0 <= i < |v| ==> -0.5 <= c[i] as real - v[i] * scale <= 0.5
  {
    if v == [] then [] else [RoundHalfEven(v[0] * scale)] + Counts(v[1..], scale)
  }

  /** What the driver returns from a buffer read: the channels X and Y
      read back, kept when active. */
  function Buffered(active: set<string>, x: seq<real>, y: seq<real>): (m: map<string, seq<real>>)
    ensures m.Keys == active * XY
    ensures "X" in m ==> m["X"] == x
    ensures "Y" in m ==> m["Y"] == y
  {
    map ch | ch in active * XY :: if ch == "X" then x else y
  }

  /** The buffer count a SPTS? reply gives: the number when the reply
      parses, and 0 otherwise. */
  function BufferCount(reply: Option<int>): int
  {
    if reply.Some? then reply.value else 0
  }

  /** The buffer counts of a series of SPTS? replies. */
  function BufferCounts(replies: seq<Option<int>>): (c: seq<int>)
    ensures |c| == |replies|
    ensures forall i :: 0 <= i < |replies| ==> c[i] == BufferCount(replies[i])
  {
    if replies == [] then [] else [BufferCount(replies[0])] + BufferCounts(replies[1..])
  }

  /** The exchanges of `acquire_frame` for `n` points when the buffer
      reports enough on poll `k`: reset and start, one SPTS? per poll and a
      wait after each that finds too few, pause, then read X and Y. */
  function AcquireLog(n: int, wait: real, k: nat): seq<Command>
  {
    [Rest, Strt] + Polls([Spts], wait, k) + [Spts, Paus]
    + (if n <= 0 then [] else [Trca(1, n), Trca(2, n)])
  }

  /** Assembles the log of a frame acquisition from its phases: start,
      `k` polls, pause, then the read (none when `n` is not positive). */
  lemma AcquireLogFrom(s0: seq<Command>, n: int, wait: real, k: nat, paused: seq<Command>, final: seq<Command>)
    requires paused == s0 + [Rest, Strt] + Polls([Spts], wait, k) + [Spts] + [Paus]
    requires n <= 0 ==> final == paused
    requires n > 0 ==> final == paused + [Trca(1, n), Trca(2, n)]
    ensures final == s0 + AcquireLog(n, wait, k)
  {
    var p := Polls([Spts], wait, k);
    assert paused == s0 + ([Rest, Strt] + p + [Spts, Paus]);
  }

  /** A frame acquisition starts the buffer once, then only polls and
      waits, each poll a single SPTS?, then pauses once and reads. */
  lemma AcquireStartsPollsOncePausesOnce(n: int, wait: real, k: nat)
    ensures var log := AcquireLog(n, wait, k);
            && |log| == 2 + 2 * k + 2 + (if n <= 0 then 0 else 2)
            && log[..2] == [Rest, Strt]
            && log[2 + 2 * k] == Spts
            && log[2 + 2 * k + 1] == Paus
            && (forall i :: 2 <= i < 2 + 2 * k ==> log[i] == (if i % 2 == 0 then Spts else Sleep(wait)))
            && (forall i :: 2 + 2 * k + 2 <= i < |log| ==> log[i].Trca?)
  {
    var log := AcquireLog(n, wait, k);
    var p := Polls([Spts], wait, k);
    PollsLength([Spts], wait, k);
    assert log == [Rest, Strt] + p + [Spts, Paus] + (if n <= 0 then [] else [Trca(1, n), Trca(2, n)]);
    forall i | 2 <= i < 2 + 2 * k
      ensures log[i] == (if i % 2 == 0 then Spts else Sleep(wait))
    {
      assert log[i] == p[i - 2];
      PollsAlternate(wait, k, i - 2);
    }
  }

  /** Single-query polls alternate: SPTS? at even positions, the wait at
      odd ones. */
  lemma {:induction false} PollsAlternate(wait: real, k: nat, j: nat)
    requires j < 2 * k
    ensures |Polls([Spts], wait, k)| == 2 * k
    ensures Polls([Spts], wait, k)[j] == (if j % 2 == 0 then Spts else Sleep(wait))
  {
    PollsLength([Spts], wait, k);
    PollsLength([Spts], wait, k - 1);
    if j < 2 * (k - 1) {
      PollsAlternate(wait, k - 1, j);
    }
  }

  class SR830 {
    var activeChannels: set<string>
    var sampleRate: real
    var frameSize: int
    var configured: bool
    /** 0 unconfigured, 1 idle, 2 running, 3 paused. */
    var status: int
    var binWidthS: real
    var recordLengthS: real
    var numberOfGates: int
    var recordSamples: int
    var sensitivity: Option<real>
    var scale: real
    /** Everything sent to the lock-in so far, oldest first. */
    var sent: seq<Command>

    /** The rate is a table entry and the bin width its inverse; frame
        size and record samples agree and fit the buffer; the status is
        one of the four and is running or paused only once configured;
        the active channels are valid ones. */
    predicate Valid()
      reads this`sampleRate, this`binWidthS, this`frameSize, this`recordSamples
      reads this`status, this`configured, this`activeChannels, this`scale
    {
      && sampleRate in Rates && binWidthS == 1.0 / sampleRate
      && FrameSizeInRange(frameSize) && recordSamples == frameSize
      && 0 <= status <= 3 && (status >= 2 ==> configured)
      && activeChannels <= XY
      && scale > 0.0
    }

    /** Construction and activation: identify, clear the buffer and
        status, then read the sensitivity. */
    constructor (sensReply: Option<int>)
      ensures Valid()
      ensures activeChannels == {"X"} && sampleRate == 512.0 && frameSize == 1024
      ensures !configured && status == 0 && numberOfGates == 0
      ensures recordSamples == 1024 && recordLengthS == 2.0
      ensures sensitivity == SensitivityFor(sensReply) && scale == ScaleFor(sensReply, FullScaleCounts)
      ensures sent == [Idn, Rest, Eres, Sens]
    {
      activeChannels := {"X"};
      sampleRate := 512.0;
      frameSize := 1024;
      configured := false;
      status := 0;
      binWidthS := 1.0 / 512.0;
      recordLengthS := 1024.0 / 512.0;
      numberOfGates := 0;
      recordSamples := 1024;
      sensitivity := SensitivityFor(sensReply);
      scale := ScaleFor(sensReply, FullScaleCounts);
      sent := [Idn, Rest, Eres, Sens];
      ScaleForFacts(sensReply);
      assert Rates[13] == 512.0;
    }

    /** Snaps the request to the nearest table rate and writes its index;
        an out-of-range request raises and changes nothing. */
    method SetSampleRate(rate: real) returns (o: Outcome)
      requires Valid()
      modifies this`sampleRate, this`binWidthS, this`sent
      ensures Valid()
      ensures !RateInRange(rate) ==>
                o == Rejected(RateOutOfRange) &&
                sampleRate == old(sampleRate) && binWidthS == old(binWidthS) && sent == old(sent)
      ensures RateInRange(rate) ==>
                && o == Accepted
                && sampleRate == Rates[NearestRateIndex(rate)]
                && binWidthS == 1.0 / sampleRate
                && sent == old(sent) + [Srat(NearestRateIndex(rate))]
    {
      if !RateInRange(rate) {
        return Rejected(RateOutOfRange);
      }
      var idx := NearestRateIndex(rate);
      sent := sent + [Srat(idx)];
      sampleRate := Rates[idx];
      binWidthS := 1.0 / sampleRate;
      o := Accepted;
    }

    /** Checks the channels one by one and raises on the first unknown one,
        leaving the active set as it was; otherwise the active set becomes
        the channels given. */
    method SetActiveChannels(channels: seq<string>) returns (o: Outcome)
      requires Valid()
      modifies this`activeChannels
      ensures Valid()
      ensures var b := FirstInvalid(channels, XY);
              b < |channels| ==>
                o == Rejected(UnknownChannel(channels[b])) && activeChannels == old(activeChannels)
      ensures FirstInvalid(channels, XY) == |channels| ==>
                o == Accepted && activeChannels == ChannelSet(channels)
    {
      var i := 0;
      while i < |channels|
        invariant i <= |channels|
        invariant forall q :: 0 <= q < i ==> channels[q] in XY
      {
        if channels[i] !in XY {
          return Rejected(UnknownChannel(channels[i]));
        }
        i := i + 1;
      }
      FirstInvalidMeansSubset(channels, XY);
      activeChannels := ChannelSet(channels);
      o := Accepted;
    }

    /** An out-of-range size raises and changes nothing; otherwise frame
        size and record samples become the size and the record length
        follows at the current rate. */
    method SetFrameSize(size: int) returns (o: Outcome)
      requires Valid()
      modifies this`frameSize, this`recordSamples, this`recordLengthS
      ensures Valid()
      ensures !FrameSizeInRange(size) ==>
                o == Rejected(FrameSizeOutOfRange) &&
                frameSize == old(frameSize) && recordSamples == old(recordSamples) &&
                recordLengthS == old(recordLengthS)
      ensures FrameSizeInRange(size) ==>
                o == Accepted && frameSize == size && recordSamples == size &&
                recordLengthS == size as real / sampleRate
    {
      if !FrameSizeInRange(size) {
        return Rejected(FrameSizeOutOfRange);
      }
      frameSize := size;
      recordSamples := frameSize;
      recordLengthS := recordSamples as real / sampleRate;
      o := Accepted;
    }

    /** Reads SENS? and sets the scale; an unreadable or unknown index
        keeps the sensitivity and falls back to 10^9 counts per volt. */
    method UpdateScale(reply: Option<int>, fullScale: real)
      requires Valid() && fullScale > 0.0
      modifies this`sensitivity, this`scale, this`sent
      ensures Valid()
      ensures sent == old(sent) + [Sens]
      ensures scale == ScaleFor(reply, fullScale)
      ensures sensitivity == (if SensitivityFor(reply).Some? then SensitivityFor(reply) else old(sensitivity))
    {
      sent := sent + [Sens];
      var s := SensitivityFor(reply);
      if s.None? {
        scale := FallbackScale;
        return;
      }
      var i: nat := reply.value;
      if i > 0 { SensIncrease(0, i); }
      sensitivity := s;
      scale := fullScale / s.value;
    }

    /** Sets the rate from the bin width and the record length in samples
        from the record length (rounded, at least 1, clamped to the buffer),
        marks the counter configured and idle, and rereads the scale. The
        gate count is zeroed first, so a rate out of range raises with only
        that done. */
    method Configure(binWidth: real, recordLength: real, sensReply: Option<int>)
      returns (o: Outcome, bw: real, rl: real, gates: int)
      requires Valid()
      modifies this
      ensures Valid()
      ensures numberOfGates == 0
      ensures var desired := DesiredRate(binWidth, old(sampleRate));
              !RateInRange(desired) ==>
                && o == Rejected(RateOutOfRange)
                && sampleRate == old(sampleRate) && binWidthS == old(binWidthS)
                && frameSize == old(frameSize) && recordSamples == old(recordSamples)
                && recordLengthS == old(recordLengthS)
                && configured == old(configured) && status == old(status)
                && sensitivity == old(sensitivity) && scale == old(scale)
                && activeChannels == old(activeChannels) && sent == old(sent)
      ensures var desired := DesiredRate(binWidth, old(sampleRate));
              RateInRange(desired) ==>
                && o == Accepted
                && sampleRate == Rates[NearestRateIndex(desired)]
                && binWidthS == 1.0 / sampleRate
                && recordSamples == RecordSamples(recordLength, sampleRate)
                && frameSize == recordSamples
                && recordLengthS == recordSamples as real / sampleRate
                && configured && status == 1
                && scale == ScaleFor(sensReply, FullScaleCounts)
                && sensitivity == (if SensitivityFor(sensReply).Some? then SensitivityFor(sensReply)
                                   else old(sensitivity))
                && activeChannels == old(activeChannels)
                && sent == old(sent) + [Srat(NearestRateIndex(desired)), Sens]
                && bw == binWidthS && rl == recordLengthS && gates == 0
    {
      numberOfGates := 0;
      var desired := DesiredRate(binWidth, sampleRate);
      o := SetSampleRate(desired);
      if o.Rejected? {
        return o, 0.0, 0.0, 0;
      }
      bw, rl := ConfigureRecord(recordLength, sensReply);
      gates := numberOfGates;
    }

    /** The part of `configure` after the rate is set: the record length in
        samples, the configured idle state and the scale. */
    method ConfigureRecord(recordLength: real, sensReply: Option<int>) returns (bw: real, rl: real)
      requires Valid()
      modifies this`frameSize, this`recordSamples, this`recordLengthS, this`binWidthS,
               this`configured, this`status, this`sensitivity, this`scale, this`sent
      ensures Valid()
      ensures recordSamples == RecordSamples(recordLength, sampleRate) && frameSize == recordSamples
      ensures binWidthS == 1.0 / sampleRate && recordLengthS == recordSamples as real / sampleRate
      ensures configured && status == 1
      ensures scale == ScaleFor(sensReply, FullScaleCounts)
      ensures sensitivity == (if SensitivityFor(sensReply).Some? then SensitivityFor(sensReply)
                              else old(sensitivity))
      ensures sent == old(sent) + [Sens]
      ensures bw == binWidthS && rl == recordLengthS
    {
      var samples := RecordSamples(recordLength, sampleRate);
      var sized := SetFrameSize(samples);
      binWidthS := 1.0 / sampleRate;
      recordLengthS := samples as real / sampleRate;
      recordSamples := samples;
      configured := true;
      status := 1;
      UpdateScale(sensReply, FullScaleCounts);
      bw, rl := binWidthS, recordLengthS;
    }

    /** Refuses with -1 before `configure`; otherwise resets and starts the
        buffer and runs. */
    method StartMeasure() returns (code: int)
      requires Valid()
      modifies this`status, this`sent
      ensures Valid()
      ensures !configured ==> code == -1 && status == old(status) && sent == old(sent)
      ensures configured ==> code == 0 && status == 2 && sent == old(sent) + [Rest, Strt]
    {
      if !configured {
        return -1;
      }
      sent := sent + [Rest, Strt];
      status := 2;
      code := 0;
    }

    /** Pauses the buffer and goes idle, from any status. */
    method StopMeasure() returns (code: int)
      requires Valid()
      modifies this`status, this`sent
      ensures Valid()
      ensures code == 0 && status == 1 && sent == old(sent) + [Paus]
    {
      sent := sent + [Paus];
      status := 1;
      code := 0;
    }

    /** Running goes to paused; any other status is left alone. */
    method PauseMeasure() returns (code: int)
      requires Valid()
      modifies this`status, this`sent
      ensures Valid()
      ensures code == 0
      ensures old(status) == 2 ==> status == 3 && sent == old(sent) + [Paus]
      ensures old(status) != 2 ==> status == old(status) && sent == old(sent)
    {
      if status == 2 {
        sent := sent + [Paus];
        status := 3;
      }
      code := 0;
    }

    /** Paused goes back to running; any other status is left alone. */
    method ContinueMeasure() returns (code: int)
      requires Valid()
      modifies this`status, this`sent
      ensures Valid()
      ensures code == 0
      ensures old(status) == 3 ==> status == 2 && sent == old(sent) + [Rest, Strt]
      ensures old(status) != 3 ==> status == old(status) && sent == old(sent)
    {
      if status == 3 {
        sent := sent + [Rest, Strt];
        status := 2;
      }
      code := 0;
    }

    /** Resets the data buffer and starts acquisition. */
    method StartBufferedAcquisition()
      modifies this`sent
      ensures sent == old(sent) + [Rest, Strt]
    {
      sent := sent + [Rest, Strt];
    }

    /** Pauses acquisition. */
    method StopBufferedAcquisition()
      modifies this`sent
      ensures sent == old(sent) + [Paus]
    {
      sent := sent + [Paus];
    }

    /** The buffer count: one SPTS? query, 0 when the reply does not parse. */
    method SamplesInBuffer(reply: Option<int>) returns (n: int)
      modifies this`sent
      ensures sent == old(sent) + [Spts]
      ensures n == BufferCount(reply)
    {
      sent := sent + [Spts];
      n := BufferCount(reply);
    }

    /** Reads the buffer: with no count, SPTS? says how many points there
        are (0 when the reply does not parse); no points gives an empty
        array per active channel; otherwise X and Y are read back and the
        active ones returned. `x` and `y` are the parsed replies with NaN
        values already dropped. */
    method GetBufferedSamples(count: Option<int>, spts: Option<int>, x: seq<real>, y: seq<real>)
      returns (data: map<string, seq<real>>)
      requires Valid()
      modifies this`sent
      ensures Valid()
      ensures var n := if count.Some? then count.value else if spts.Some? then spts.value else 0;
              var asked := if count.Some? then [] else [Spts];
              && (n <= 0 ==> data == EmptyFor(activeChannels) && sent == old(sent) + asked)
              && (n > 0 ==> data == Buffered(activeChannels, x, y)
                            && sent == old(sent) + asked + [Trca(1, n), Trca(2, n)])
    {
      var n: int;
      if count.Some? {
        n := count.value;
      } else {
        sent := sent + [Spts];
        n := if spts.Some? then spts.value else 0;
      }
      if n <= 0 {
        return EmptyFor(activeChannels);
      }
      sent := sent + [Trca(1, n), Trca(2, n)];
      data := Buffered(activeChannels, x, y);
    }

    /** Polls the buffer count (`spts`, one reply per poll) and waits
        `wait` after each poll that finds fewer than `n` points; `k` is the
        number of waits. */
    method PollFrame(n: int, wait: real, spts: seq<Option<int>>) returns (k: nat)
      requires FirstReady(BufferCounts(spts), n) < |spts|
      modifies this`sent
      ensures k == FirstReady(BufferCounts(spts), n)
      ensures sent == old(sent) + Polls([Spts], wait, k) + [Spts]
    {
      ghost var counts := BufferCounts(spts);
      k := 0;
      var count := SamplesInBuffer(spts[k]);
      while count < n
        invariant k <= FirstReady(counts, n)
        invariant count == counts[k]
        invariant sent == old(sent) + Polls([Spts], wait, k) + [Spts]
        decreases FirstReady(counts, n) - k
      {
        PollsGrow([Spts], wait, k, old(sent), old(sent) + Polls([Spts], wait, k));
        sent := sent + [Sleep(wait)];
        k := k + 1;
        count := SamplesInBuffer(spts[k]);
      }
    }

    /** Acquires a frame of `n` points: starts the buffer, polls until it
        holds the frame, waiting `wait` after each poll that finds too few
        points, then pauses and reads the frame back. */
    method AcquireFrameOf(n: int, wait: real, spts: seq<Option<int>>, x: seq<real>, y: seq<real>)
      returns (data: map<string, seq<real>>)
      requires Valid()
      requires FirstReady(BufferCounts(spts), n) < |spts|
      modifies this`sent
      ensures sent == old(sent) + AcquireLog(n, wait, FirstReady(BufferCounts(spts), n))
      ensures data == (if n <= 0 then EmptyFor(activeChannels) else Buffered(activeChannels, x, y))
    {
      StartBufferedAcquisition();
      var k := PollFrame(n, wait, spts);
      StopBufferedAcquisition();
      ghost var paused := sent;
      data := GetBufferedSamples(Some(n), None, x, y);
      AcquireLogFrom(old(sent), n, wait, k, paused, sent);
    }

    /** A frame acquisition of `frame` points, or of the configured frame
        size when none is given, waiting a tenth of the frame time after
        each poll that finds too few points. The driver polls until the
        buffer holds the frame, so some reply must report it. */
    method AcquireFrame(frame: Option<int>, spts: seq<Option<int>>, x: seq<real>, y: seq<real>)
      returns (data: map<string, seq<real>>)
      requires Valid()
      requires FirstReady(BufferCounts(spts), if frame.Some? then frame.value else frameSize) < |spts|
      modifies this`sent
      ensures Valid()
      ensures var n := if frame.Some? then frame.value else frameSize;
              && sent == old(sent) + AcquireLog(n, FrameWait(n, sampleRate), FirstReady(BufferCounts(spts), n))
              && data == (if n <= 0 then EmptyFor(activeChannels) else Buffered(activeChannels, x, y))
    {
      ghost var r :| 0 <= r < |Rates| && Rates[r] == sampleRate;
      RatesInRange(r);
      var n := if frame.Some? then frame.value else frameSize;
      data := AcquireFrameOf(n, FrameWait(n, sampleRate), spts, x, y);
    }

    /** The fast-counter trace: empty before `configure`; otherwise the
        record read back from the buffer, shaped to exactly `recordSamples`
        values and converted to counts with the current scale. */
    method GetDataTrace(x: seq<real>, y: seq<real>) returns (counts: seq<int>)
      requires Valid()
      modifies this`sent
      ensures Valid()
      ensures !configured ==> counts == [] && sent == old(sent)
      ensures configured ==>
                && |counts| == recordSamples
                && counts == Counts(Voltages(Buffered(activeChannels, x, y), recordSamples), scale)
                && sent == old(sent) + [Trca(1, recordSamples), Trca(2, recordSamples)]
    {
      if !configured {
        return [];
      }
      var buf := GetBufferedSamples(Some(recordSamples), None, x, y);
      var voltages := Voltages(buf, recordSamples);
      counts := Counts(voltages, scale);
    }
  }
}
