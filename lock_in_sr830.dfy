/** The SR830 finite-sampling driver that reads both X and Y: sample-rate,
    channel and frame-size setters, buffered acquisition and the buffer
    read, which drops the last value parsed from each channel's reply. */
module LockInSR830 {
  import opened LockIn

  /** `values[:-1]`: everything but the last value, and nothing from an
      empty array. */
  function DropLast(values: seq<real>): (r: seq<real>)
    ensures |r| == (if |values| == 0 then 0 else |values| - 1)
    ensures r == values[..|r|]
  {
    if |values| == 0 then [] else values[..|values| - 1]
  }

  /** Dropping the last value and putting it back gives the reply again. */
  lemma DropLastRestores(values: seq<real>)
    requires |values| > 0
    ensures DropLast(values) + [values[|values| - 1]] == values
  {
  }

  /** What a buffer read of a positive count returns: both channels,
      whatever the active set, each without its last value. */
  function BothChannels(x: seq<real>, y: seq<real>): (m: map<string, seq<real>>)
    ensures m.Keys == XY
  {
    map["X" := DropLast(x), "Y" := DropLast(y)]
  }

  /** What a buffer read of `n` points returns. */
  function ReadResult(active: set<string>, n: int, x: seq<real>, y: seq<real>): (m: map<string, seq<real>>)
    ensures n <= 0 ==> m.Keys == active && forall ch :: ch in m ==> m[ch] == []
    ensures n > 0 ==> m.Keys == XY && m["X"] == DropLast(x) && m["Y"] == DropLast(y)
  {
    if n <= 0 then EmptyFor(active) else BothChannels(x, y)
  }

  /** A read of a positive count does not depend on the active channels:
      both X and Y come back, each one value short of its reply. A read of
      no points returns exactly the active channels. */
  lemma ReadIgnoresActiveChannels(a1: set<string>, a2: set<string>, n: int, x: seq<real>, y: seq<real>)
    ensures n > 0 ==> ReadResult(a1, n, x, y) == ReadResult(a2, n, x, y)
    ensures n > 0 ==> "X" in ReadResult(a1, n, x, y) && "Y" in ReadResult(a1, n, x, y)
    ensures n > 0 && |x| > 0 ==> |ReadResult(a1, n, x, y)["X"]| == |x| - 1
    ensures n > 0 && |y| > 0 ==> |ReadResult(a1, n, x, y)["Y"]| == |y| - 1
    ensures n <= 0 ==> ReadResult(a1, n, x, y).Keys == a1
  {
  }

  /** One buffer-count poll: SPTS? is queried twice and the second reply
      is the count. */
  const CountQuery: seq<Command> := [Spts, Spts]

  /** The exchanges of `acquire_frame` for `n` points when the buffer
      reports enough on poll `k`: reset and start, poll and wait, pause,
      then read. */
  function AcquireLog(n: int, wait: real, k: nat): seq<Command>
  {
    [Rest, Strt] + Polls(CountQuery, wait, k) + CountQuery + [Paus]
    + (if n <= 0 then [] else [Trca(1, n), Trca(2, n)])
  }

  /** A frame acquisition starts the buffer once and pauses it once, after
      the last poll and before the read; between them it only polls and
      waits. */
  lemma AcquireStartsOncePausesOnce(n: int, wait: real, k: nat)
    ensures var log := AcquireLog(n, wait, k);
            && |log| == 2 + 3 * k + 3 + (if n <= 0 then 0 else 2)
            && log[..2] == [Rest, Strt]
            && log[2 + 3 * k + 2] == Paus
            && (forall i :: 2 <= i < 2 + 3 * k + 2 ==> log[i] == Spts || log[i] == Sleep(wait))
            && (forall i :: 2 + 3 * k + 3 <= i < |log| ==> log[i].Trca?)
  {
    var log := AcquireLog(n, wait, k);
    var p := Polls(CountQuery, wait, k);
    PollsLength(CountQuery, wait, k);
    assert log == [Rest, Strt] + p + CountQuery + [Paus]
                  + (if n <= 0 then [] else [Trca(1, n), Trca(2, n)]);
    forall i | 2 <= i < 2 + 3 * k + 2
      ensures log[i] == Spts || log[i] == Sleep(wait)
    {
      if i < 2 + 3 * k {
        assert log[i] == p[i - 2];
        PollsOnlyQueryAndWait(CountQuery, wait, k, p[i - 2]);
      }
    }
  }

  class SR830 {
    var activeChannels: set<string>
    var sampleRate: real
    var frameSize: int
    /** Everything sent to the lock-in so far, oldest first. */
    var sent: seq<Command>

    /** The rate is a table entry, the frame size fits the buffer and the
        active channels are valid ones. */
    predicate Valid()
      reads this`sampleRate, this`frameSize, this`activeChannels
    {
      sampleRate in Rates && FrameSizeInRange(frameSize) && activeChannels <= XY
    }

    /** Construction and activation: identify, then clear buffer and
        status. */
    constructor ()
      ensures Valid()
      ensures activeChannels == {"X"} && sampleRate == 512.0 && frameSize == 1024
      ensures sent == [Idn, Rest, Eres]
    {
      activeChannels := {"X"};
      sampleRate := 512.0;
      frameSize := 1024;
      sent := [Idn, Rest, Eres];
      assert Rates[13] == 512.0;
    }

    /** Snaps the request to the nearest table rate and writes its index;
        an out-of-range request raises and changes nothing. */
    method SetSampleRate(rate: real) returns (o: Outcome)
      requires Valid()
      modifies this`sampleRate, this`sent
      ensures Valid()
      ensures !RateInRange(rate) ==>
                o == Rejected(RateOutOfRange) && sampleRate == old(sampleRate) && sent == old(sent)
      ensures RateInRange(rate) ==>
                && o == Accepted
                && sampleRate == Rates[NearestRateIndex(rate)]
                && sent == old(sent) + [Srat(NearestRateIndex(rate))]
    {
      if !RateInRange(rate) {
        return Rejected(RateOutOfRange);
      }
      var idx := NearestRateIndex(rate);
      sent := sent + [Srat(idx)];
      sampleRate := Rates[idx];
      o := Accepted;
    }

    /** Raises on the first unknown channel, leaving the active set as it
        was; otherwise the active set becomes the channels given. */
    method SetActiveChannels(channels: seq<string>) returns (o: Outcome)
      requires Valid()
      modifies this`activeChannels
      ensures Valid()
      ensures var b := FirstInvalid(channels, XY);
              b < |channels| ==>
                o == Rejected(UnknownChannel(channels[b])) && activeChannels == old(activeChannels)
      ensures FirstInvalid(channels, XY) == |channels| ==>
                o == Accepted && activeChannels == ChannelSet(channels)
    {
      var i := 0;
      while i < |channels|
        invariant i <= |channels|
        invariant forall q :: 0 <= q < i ==> channels[q] in XY
      {
        if channels[i] !in XY {
          return Rejected(UnknownChannel(channels[i]));
        }
        i := i + 1;
      }
      FirstInvalidMeansSubset(channels, XY);
      activeChannels := ChannelSet(channels);
      o := Accepted;
    }

    /** An out-of-range size raises; otherwise only the frame size changes. */
    method SetFrameSize(size: int) returns (o: Outcome)
      requires Valid()
      modifies this`frameSize
      ensures Valid()
      ensures !FrameSizeInRange(size) ==> o == Rejected(FrameSizeOutOfRange) && frameSize == old(frameSize)
      ensures FrameSizeInRange(size) ==> o == Accepted && frameSize == size
    {
      if !FrameSizeInRange(size) {
        return Rejected(FrameSizeOutOfRange);
      }
      frameSize := size;
      o := Accepted;
    }

    method StartBufferedAcquisition()
      modifies this`sent
      ensures sent == old(sent) + [Rest, Strt]
    {
      sent := sent + [Rest, Strt];
    }

    method StopBufferedAcquisition()
      modifies this`sent
      ensures sent == old(sent) + [Paus]
    {
      sent := sent + [Paus];
    }

    /** The buffer count: the second of two SPTS? replies. */
    method SamplesInBuffer(reply: int) returns (n: int)
      modifies this`sent
      ensures sent == old(sent) + CountQuery
      ensures n == reply
    {
      sent := sent + CountQuery;
      n := reply;
    }

    /** Reads the buffer: with no count the buffer count decides; no points
        gives an empty array per active channel; otherwise both channels are
        read back, each without its last value, whatever the active set.
        `x` and `y` are the parsed replies. */
    method GetBufferedSamples(count: Option<int>, spts: int, x: seq<real>, y: seq<real>)
      returns (data: map<string, seq<real>>)
      modifies this`sent
      ensures var n := if count.Some? then count.value else spts;
              var asked := if count.Some? then [] else CountQuery;
              && data == ReadResult(activeChannels, n, x, y)
              && sent == old(sent) + asked + (if n <= 0 then [] else [Trca(1, n), Trca(2, n)])
    {
      var n: int;
      if count.Some? {
        n := count.value;
      } else {
        n := SamplesInBuffer(spts);
      }
      if n > 0 {
        sent := sent + [Trca(1, n), Trca(2, n)];
      }
      data := ReadResult(activeChannels, n, x, y);
    }

    /** Starts the buffer, polls the buffer count (`spts`, one reply per
        poll) and waits a tenth of the frame time after each poll that finds
        too few points, then pauses and reads the frame. The driver polls
        until the buffer holds the frame, so some reply must report it. */
    method AcquireFrame(frame: Option<int>, spts: seq<int>, x: seq<real>, y: seq<real>)
      returns (data: map<string, seq<real>>)
      requires Valid()
      requires FirstReady(spts, if frame.Some? then frame.value else frameSize) < |spts|
      modifies this`sent
      ensures Valid()
      ensures var n := if frame.Some? then frame.value else frameSize;
              && sent == old(sent) + AcquireLog(n, FrameWait(n, sampleRate), FirstReady(spts, n))
              && data == ReadResult(activeChannels, n, x, y)
    {
      var n := if frame.Some? then frame.value else frameSize;
      var wait := FrameWait(n, sampleRate);
      StartBufferedAcquisition();
      ghost var started := sent;
      var k := 0;
      var count := SamplesInBuffer(spts[k]);
      while count < n
        invariant k <= FirstReady(spts, n)
        invariant count == spts[k]
        invariant sent == started + Polls(CountQuery, wait, k) + CountQuery
        decreases FirstReady(spts, n) - k
      {
        PollsGrow(CountQuery, wait, k, started, started + Polls(CountQuery, wait, k));
        sent := sent + [Sleep(wait)];
        k := k + 1;
        count := SamplesInBuffer(spts[k]);
      }
      assert k == FirstReady(spts, n);
      StopBufferedAcquisition();
      assert sent == old(sent) + ([Rest, Strt] + Polls(CountQuery, wait, k) + CountQuery + [Paus]);
      data := GetBufferedSamples(Some(n), 0, x, y);
    }
  }
}
