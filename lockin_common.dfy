/** What the three SR830 lock-in drivers share: the table of buffer sample
    rates and the choice of the entry nearest to a request, the inclusive
    range checks of the finite-sampling constraints, channel validation,
    and the commands a driver sends over its VISA session. */
module LockIn {

  datatype Option<T> = None | Some(value: T)

  /** One exchange of a driver with the lock-in, in the order it happens. */
  datatype Command =
    | Idn                             // *IDN?
    | Rest                            // reset the data buffer
    | Eres                            // clear the status registers
    | Strt                            // start buffered acquisition
    | Paus                            // pause buffered acquisition
    | Srat(index: nat)                // set the sample rate by table index
    | Spts                            // SPTS?, points in the buffer
    | Sens                            // SENS?, the sensitivity index
    | Trca(channel: nat, count: int)  // TRCA? channel,0,count (ASCII)
    | Trac(channel: nat, count: int)  // TRAC? channel,count (binary)
    | Sleep(seconds: real)            // the driver waits between polls

  /** Why a driver call raised. */
  datatype DriverError =
    | RateOutOfRange
    | UnknownChannel(channel: string)
    | FrameSizeOutOfRange
    | OnlyChannelX

  /** A configuration call either took effect or raised. */
  datatype Outcome = Accepted | Rejected(error: DriverError)

  /** The SRAT sample rates in Hz, by index: 62.5 mHz doubling up to 512 Hz. */
  const Rates: seq<real> :=
    [0.0625, 0.125, 0.25, 0.5, 1.0, 2.0, 4.0, 8.0, 16.0, 32.0, 64.0, 128.0, 256.0, 512.0]

  /** The sample-rate limits of the constraints, both ends included. */
  const MinRate: real := 0.0625
  const MaxRate: real := 512.0

  predicate RateInRange(rate: real)
  {
    MinRate <= rate <= MaxRate
  }

  /** The frame-size limits of the constraints (the buffer depth), both ends
      included. */
  const MinFrame: int := 1
  const MaxFrame: int := 16383

  predicate FrameSizeInRange(size: int)
  {
    MinFrame <= size <= MaxFrame
  }

  function Abs(x: real): real { if x < 0.0 then -x else x }

  /** The index among the first `n` entries of `rates` whose distance to
      `x` is least, the lowest such index on ties (the way `min` over
      `range` with a key keeps the first minimum). */
  function NearestIndex(rates: seq<real>, x: real, n: nat): (k: nat)
    requires 0 < n <= |rates|
    ensures k < n
    ensures forall i :: 0 <= i < n ==> Abs(rates[k] - x) <= Abs(rates[i] - x)
    ensures forall i :: 0 <= i < k ==> Abs(rates[i] - x) > Abs(rates[k] - x)
  {
    if n == 1 then 0
    else
      var k := NearestIndex(rates, x, n - 1);
      if Abs(rates[n - 1] - x) < Abs(rates[k] - x) then n - 1 else k
  }

  /** The SRAT index a driver writes for a requested rate. */
  function NearestRateIndex(rate: real): (k: nat)
    ensures k < |Rates|
  {
    NearestIndex(Rates, rate, |Rates|)
  }

  /** Each rate is double the one before it. */
  lemma RatesDouble(i: nat)
    requires 0 < i < |Rates|
    ensures Rates[i] == 2.0 * Rates[i - 1]
  {
  }

  /** The table is strictly increasing, so its entries are distinct. */
  lemma {:induction false} RatesIncrease(i: nat, j: nat)
    requires i < j < |Rates|
    ensures Rates[i] < Rates[j]
  {
    RatesDouble(j);
    if i < j - 1 {
      RatesIncrease(i, j - 1);
    }
  }

  /** Every table rate is within the limits, so a rate the driver stores
      passes its own range check. */
  lemma RatesInRange(k: nat)
    requires k < |Rates|
    ensures RateInRange(Rates[k]) && Rates[k] > 0.0
  {
    if k > 0 {
      RatesIncrease(0, k);
    }
    if k < |Rates| - 1 {
      RatesIncrease(k, |Rates| - 1);
    }
  }

  /** Asking for a rate of the table selects that very entry. */
  lemma TableRateSnapsToItself(k: nat)
    requires k < |Rates|
    ensures NearestRateIndex(Rates[k]) == k
  {
    var j := NearestRateIndex(Rates[k]);
    assert Abs(Rates[j] - Rates[k]) <= Abs(Rates[k] - Rates[k]);
    if j < k {
      RatesIncrease(j, k);
    } else if k < j {
      RatesIncrease(k, j);
    }
  }

  /** Between two neighbouring entries, the lower one is chosen up to and
      including the midpoint and the upper one beyond it. */
  lemma NearestBetweenNeighbours(i: nat, rate: real)
    requires i + 1 < |Rates| && Rates[i] <= rate <= Rates[i + 1]
    ensures NearestRateIndex(rate) == (if rate <= (Rates[i] + Rates[i + 1]) / 2.0 then i else i + 1)
  {
    var k := NearestRateIndex(rate);
    if k < i {
      RatesIncrease(k, i);
    } else if k > i + 1 {
      RatesIncrease(i + 1, k);
    }
  }

  /** The channels a driver's constraints accept. */
  const XY: set<string> := {"X", "Y"}

  /** The set of channels named in a request. */
  function ChannelSet(channels: seq<string>): (s: set<string>)
    ensures forall c :: c in s <==> c in channels
  {
    set c | c in channels
  }

  /** The position of the first channel not in `valid`, or `|channels|`
      when all are valid. */
  function FirstInvalid(channels: seq<string>, valid: set<string>): (b: nat)
    ensures b <= |channels|
    ensures forall q :: 0 <= q < b ==> channels[q] in valid
    ensures b < |channels| ==> channels[b] !in valid
  {
    if channels == [] then 0
    else if channels[0] !in valid then 0
    else 1 + FirstInvalid(channels[1..], valid)
  }

  /** A request passes validation exactly when every channel it names is
      valid, and then the new active set lies within the valid ones. */
  lemma FirstInvalidMeansSubset(channels: seq<string>, valid: set<string>)
    ensures FirstInvalid(channels, valid) == |channels| <==> ChannelSet(channels) <= valid
  {
    var b := FirstInvalid(channels, valid);
    if b < |channels| {
      assert channels[b] in ChannelSet(channels);
    }
  }

  /** What a buffer read of no points returns: an empty array for every
      active channel. */
  function EmptyFor(active: set<string>): (m: map<string, seq<real>>)
    ensures m.Keys == active
    ensures forall ch :: ch in m ==> m[ch] == []
  {
    map ch | ch in active :: []
  }

  /** The first SPTS? reply, in order, that reports at least `n` points,
      or `|replies|` when none does. */
  function FirstReady(replies: seq<int>, n: int): (k: nat)
    ensures k <= |replies|
    ensures forall q :: 0 <= q < k ==> replies[q] < n
    ensures k < |replies| ==> replies[k] >= n
  {
    if replies == [] then 0
    else if replies[0] >= n then 0
    else 1 + FirstReady(replies[1..], n)
  }

  /** The wait after a poll that finds too few points: a tenth of the
      time a frame of `n` points takes at `rate` samples per second. */
  function FrameWait(n: int, rate: real): real
    requires rate != 0.0
  {
    n as real / rate * 0.1
  }

  /** The exchanges of `k` polls that find too few points, each followed
      by a wait: `query` is what one buffer-count poll sends. */
  function Polls(query: seq<Command>, wait: real, k: nat): seq<Command>
  {
    if k == 0 then [] else Polls(query, wait, k - 1) + query + [Sleep(wait)]
  }

  lemma {:induction false} PollsLength(query: seq<Command>, wait: real, k: nat)
    ensures |Polls(query, wait, k)| == k * (|query| + 1)
  {
    if k > 0 {
      PollsLength(query, wait, k - 1);
    }
  }

  /** Waiting for the buffer sends nothing but the poll itself and waits. */
  lemma {:induction false} PollsOnlyQueryAndWait(query: seq<Command>, wait: real, k: nat, c: Command)
    requires c in Polls(query, wait, k)
    ensures c in query || c == Sleep(wait)
  {
    if k > 0 {
      if c in Polls(query, wait, k - 1) {
        PollsOnlyQueryAndWait(query, wait, k - 1, c);
      }
    }
  }

  /** One more poll that finds too few points. */
  lemma PollsGrow(query: seq<Command>, wait: real, k: nat, before: seq<Command>, log: seq<Command>)
    requires log == before + Polls(query, wait, k)
    ensures log + query + [Sleep(wait)] == before + Polls(query, wait, k + 1)
  {
    assert log + query + [Sleep(wait)] == before + (Polls(query, wait, k) + query + [Sleep(wait)]);
  }
}
