/** The SR830 finite-sampling driver for ODMR that exposes the X channel
    only: the same sample-rate and frame-size setters, a channel setter
    that accepts nothing but X, an acquisition that only resets the buffer
    and never pauses it, and a binary read of X. */
module LockInSR830XOnly {
  import opened LockIn

  /** The only channel of this driver. */
  const OnlyX: set<string> := {"X"}

  /** One buffer-count poll: a single SPTS? query. */
  const CountQuery: seq<Command> := [Spts]

  /** What a buffer read of `n` points returns: X alone, empty when there
      are no points. */
  function XOnly(n: int, x: seq<real>): (m: map<string, seq<real>>)
    ensures m.Keys == OnlyX
    ensures m["X"] == (if n <= 0 then [] else x)
  {
    map["X" := if n <= 0 then [] else x]
  }

  /** The exchanges of `acquire_frame` for `n` points when the buffer
      reports enough on poll `k`: reset, poll and wait, then read. */
  function AcquireLog(n: int, wait: real, k: nat): seq<Command>
  {
    [Rest] + Polls(CountQuery, wait, k) + CountQuery
    + (if n <= 0 then [] else [Trac(1, n)])
  }

  /** A frame acquisition of this driver never starts the buffer with
      STRT and never pauses it; it resets the buffer once, first, and
      reads X at most once, last. */
  lemma AcquireNeverStartsOrPauses(n: int, wait: real, k: nat)
    ensures var log := AcquireLog(n, wait, k);
            && Strt !in log && Paus !in log
            && log[0] == Rest && Rest !in log[1..]
            && (forall c :: c in log && c.Trac? ==> n > 0 && c == log[|log| - 1])
  {
    var log := AcquireLog(n, wait, k);
    var p := Polls(CountQuery, wait, k);
    var tail := CountQuery + (if n <= 0 then [] else [Trac(1, n)]);
    assert log == [Rest] + (p + tail);
    assert log[1..] == p + tail;
    forall c | c in p
      ensures c == Spts || c == Sleep(wait)
    {
      PollsOnlyQueryAndWait(CountQuery, wait, k, c);
    }
  }

  class SR830 {
    var activeChannels: set<string>
    var sampleRate: real
    var frameSize: int
    /** Everything sent to the lock-in so far, oldest first. */
    var sent: seq<Command>

    /** The rate is a table entry, the frame size fits the buffer and X is
        the only active channel. */
    predicate Valid()
      reads this`sampleRate, this`frameSize, this`activeChannels
    {
      sampleRate in Rates && FrameSizeInRange(frameSize) && activeChannels == OnlyX
    }

    /** Construction and activation: identify, then reset the buffer and
        clear the status registers. */
    constructor ()
      ensures Valid()
      ensures sampleRate == 512.0 && frameSize == 1024
      ensures sent == [Idn, Rest, Eres]
    {
      activeChannels := OnlyX;
      sampleRate := 512.0;
      frameSize := 1024;
      sent := [Idn, Rest, Eres];
      assert Rates[13] == 512.0;
    }

    /** Snaps the request to the nearest table rate and writes its index;
        an out-of-range request raises and changes nothing. */
    method SetSampleRate(rate: real) returns (o: Outcome)
      requires Valid()
      modifies this`sampleRate, this`sent
      ensures Valid()
      ensures !RateInRange(rate) ==>
                o == Rejected(RateOutOfRange) && sampleRate == old(sampleRate) && sent == old(sent)
      ensures RateInRange(rate) ==>
                && o == Accepted
                && sampleRate == Rates[NearestRateIndex(rate)]
                && sent == old(sent) + [Srat(NearestRateIndex(rate))]
    {
      if !RateInRange(rate) {
        return Rejected(RateOutOfRange);
      }
      var idx := NearestRateIndex(rate);
      sent := sent + [Srat(idx)];
      sampleRate := Rates[idx];
      o := Accepted;
    }

    /** Accepts exactly the requests that name X and nothing else (in any
        number of repetitions); X stays the only active channel either way. */
    method SetActiveChannels(channels: seq<string>) returns (o: Outcome)
      requires Valid()
      modifies this`activeChannels
      ensures Valid()
      ensures o == Accepted <==> ChannelSet(channels) == OnlyX
      ensures o != Accepted ==> o == Rejected(OnlyChannelX)
    {
      if ChannelSet(channels) != OnlyX {
        return Rejected(OnlyChannelX);
      }
      activeChannels := OnlyX;
      o := Accepted;
    }

    /** An out-of-range size raises; otherwise only the frame size changes. */
    method SetFrameSize(size: int) returns (o: Outcome)
      requires Valid()
      modifies this`frameSize
      ensures Valid()
      ensures !FrameSizeInRange(size) ==> o == Rejected(FrameSizeOutOfRange) && frameSize == old(frameSize)
      ensures FrameSizeInRange(size) ==> o == Accepted && frameSize == size
    {
      if !FrameSizeInRange(size) {
        return Rejected(FrameSizeOutOfRange);
      }
      frameSize := size;
      o := Accepted;
    }

    /** Starting only resets the buffer; there is no STRT. */
    method StartBufferedAcquisition()
      modifies this`sent
      ensures sent == old(sent) + [Rest]
    {
      sent := sent + [Rest];
    }

    method StopBufferedAcquisition()
      modifies this`sent
      ensures sent == old(sent) + [Paus]
    {
      sent := sent + [Paus];
    }

    /** The buffer count: one SPTS? reply. */
    method SamplesInBuffer(reply: int) returns (n: int)
      modifies this`sent
      ensures sent == old(sent) + CountQuery
      ensures n == reply
    {
      sent := sent + CountQuery;
      n := reply;
    }

    /** Reads X only: with no count the buffer count decides; no points
        gives an empty X, otherwise X is read back in binary. `x` is the
        decoded reply. */
    method GetBufferedSamples(count: Option<int>, spts: int, x: seq<real>)
      returns (data: map<string, seq<real>>)
      modifies this`sent
      ensures var n := if count.Some? then count.value else spts;
              var asked := if count.Some? then [] else CountQuery;
              && data == XOnly(n, x)
              && sent == old(sent) + asked + (if n <= 0 then [] else [Trac(1, n)])
    {
      var n: int;
      if count.Some? {
        n := count.value;
      } else {
        n := SamplesInBuffer(spts);
      }
      if n <= 0 {
        return XOnly(n, x);
      }
      sent := sent + [Trac(1, n)];
      data := XOnly(n, x);
    }

    /** Resets the buffer, polls the buffer count (`spts`, one reply per
        poll) and waits a tenth of the frame time after each poll that finds
        too few points, then reads the frame without pausing. The driver
        polls until the buffer holds the frame, so some reply must report
        it. */
    method AcquireFrame(frame: Option<int>, spts: seq<int>, x: seq<real>)
      returns (data: map<string, seq<real>>)
      requires Valid()
      requires FirstReady(spts, if frame.Some? then frame.value else frameSize) < |spts|
      modifies this`sent
      ensures Valid()
      ensures var n := if frame.Some? then frame.value else frameSize;
              && sent == old(sent) + AcquireLog(n, FrameWait(n, sampleRate), FirstReady(spts, n))
              && data == XOnly(n, x)
    {
      var n := if frame.Some? then frame.value else frameSize;
      var wait := FrameWait(n, sampleRate);
      StartBufferedAcquisition();
      ghost var started := sent;
      var k := 0;
      var count := SamplesInBuffer(spts[k]);
      while count < n
        invariant k <= FirstReady(spts, n)
        invariant count == spts[k]
        invariant sent == started + Polls(CountQuery, wait, k) + CountQuery
        decreases FirstReady(spts, n) - k
      {
        PollsGrow(CountQuery, wait, k, started, started + Polls(CountQuery, wait, k));
        sent := sent + [Sleep(wait)];
        k := k + 1;
        count := SamplesInBuffer(spts[k]);
      }
      data := GetBufferedSamples(Some(n), 0, x);
    }
  }
}
