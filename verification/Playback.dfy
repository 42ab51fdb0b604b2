/** PlaybackChannelImpl: a buffer of values played in a circle, driven by a clock. */
module Playback {

  const WRAP: nat := 0x1_0000_0000_0000_0000
  const MICROSECONDS: nat := 1_000_000

  /** static_cast<int64_t> of a 64-bit unsigned number. */
  function ToInt64(n: nat): int {
    if n % WRAP < 0x8000_0000_0000_0000 then n % WRAP else n % WRAP - WRAP
  }

  lemma SameCount(a: nat, b: nat)
    requires a < WRAP && b < WRAP && (a - b) % WRAP == 0
    ensures a == b
  {
  }

  /** It is the number of 64 bits in two's complement that agrees with n modulo 2^64. */
  lemma {:induction false} CastKeepsLowBits(n: nat)
    ensures -0x8000_0000_0000_0000 <= ToInt64(n) < 0x8000_0000_0000_0000 && (ToInt64(n) - n) % WRAP == 0
  {
    var q := n / WRAP;
    assert n == q * WRAP + n % WRAP;
    assert ToInt64(n) - n == (if n % WRAP < 0x8000_0000_0000_0000 then -q else -q - 1) * WRAP;
  }

  lemma WrappedTwice(n: nat)
    ensures ToInt64(n % WRAP) == ToInt64(n)
  {
  }

  /** What decides the next samples: the clock (start and epoch in microseconds, deltaT in ticks, rate
      in samples per second), the circular buffer and the offset added to every value. */
  datatype Channel = Channel(start: int, epoch: nat, deltaT: nat, rate: nat, generated: nat,
                             buffer: seq<real>, index: nat, zeroOffset: real, lastValue: real)

  /** A value packet together with its linear-rule domain packet. */
  datatype Packet = Packet(offset: int, deltaT: nat, values: seq<real>)

  datatype Sample = Sample(time: int, value: real)

  function SamplesOf(p: Packet): (r: seq<Sample>)
    ensures |r| == |p.values|
  {
    seq(|p.values|, k requires 0 <= k < |p.values| => Sample(p.offset + k * p.deltaT, p.values[k]))
  }

  /** getSamplesSinceStart, in exact arithmetic. */
  function Since(start: int, rate: nat, time: int): nat
    requires start <= time
  {
    (time - start) * rate / MICROSECONDS
  }

  function SamplesSince(c: Channel, time: int): nat
    requires c.start <= time
  {
    Since(c.start, c.rate, time)
  }

  /** The unsigned difference of two 64-bit counters. */
  function NewSamples(c: Channel, time: int): nat
    requires c.start <= time
  {
    (SamplesSince(c, time) - c.generated) % WRAP
  }

  /** The index after k steps round a buffer. */
  function Turn(length: nat, index: nat, k: nat): (r: nat)
    requires index < length
    ensures r < length
  {
    if k == 0 then index
    else
      var before := Turn(length, index, k - 1);
      if before + 1 >= length then 0 else before + 1
  }

  /** n values read in a circle from the current index on. */
  function Circle(c: Channel, n: nat): (r: seq<real>)
    requires c.index < |c.buffer|
    ensures |r| == n
  {
    seq(n, k requires 0 <= k < n => c.buffer[Turn(|c.buffer|, c.index, k)] + c.zeroOffset)
  }

  predicate InBounds(c: Channel) {
    c.buffer != [] ==> c.index < |c.buffer|
  }

  /** collectSamples: the packets that are sent and the state left behind. The index into the buffer
      only moves while samples are sent, the sample counter always does. */
  function Collect(c: Channel, time: int, active: bool): (Channel, seq<Packet>)
    requires c.start <= time && InBounds(c)
  {
    var n := NewSamples(c, time);
    if n == 0 then (c, [])
    else if c.buffer == [] || !active then (c.(generated := SamplesSince(c, time)), [])
    else (c.(generated := SamplesSince(c, time), index := Turn(|c.buffer|, c.index, n), lastValue := c.buffer[c.index]),
          [Packet(ToInt64(c.generated * c.deltaT + c.epoch), c.deltaT, Circle(c, n))])
  }

  lemma Multiple(x: int, length: nat)
    requires x >= 1
    ensures x * length >= length
  {
  }

  lemma Quotient(length: nat, q: int, r: nat, n: int)
    requires length > 0 && r < length && n == q * length + r
    ensures n % length == r && n / length == q
  {
    var d, m := n / length, n % length;
    assert n == length * d + m;
    assert (d - q) * length == r - m by {
      assert (d - q) * length == d * length - q * length;
    }
    assert (q - d) * length == m - r by {
      assert (q - d) * length == q * length - d * length;
    }
    if d > q {
      Multiple(d - q, length);
    } else if d < q {
      Multiple(q - d, length);
    }
  }

  /** Going round is counting modulo the length. */
  lemma {:induction false} TurnIsModulo(length: nat, index: nat, k: nat)
    requires index < length
    ensures Turn(length, index, k) == (index + k) % length
  {
    if k == 0 {
      Quotient(length, 0, index, index);
    } else {
      TurnIsModulo(length, index, k - 1);
      var q, r := (index + k - 1) / length, (index + k - 1) % length;
      assert index + k - 1 == q * length + r;
      if r + 1 >= length {
        assert index + k == (q + 1) * length + 0;
        Quotient(length, q + 1, 0, index + k);
      } else {
        Quotient(length, q, r + 1, index + k);
      }
    }
  }

  /** The packet with the next n samples: values read round the buffer, shifted by the offset. */
  function NextPacket(c: Channel, n: nat): Packet
    requires c.index < |c.buffer|
  {
    Packet(ToInt64(c.generated * c.deltaT + c.epoch), c.deltaT,
           seq(n, k requires 0 <= k < n => c.buffer[(c.index + k) % |c.buffer|] + c.zeroOffset))
  }

  lemma NextIsCircle(c: Channel, n: nat)
    requires c.index < |c.buffer|
    ensures NextPacket(c, n) == Packet(ToInt64(c.generated * c.deltaT + c.epoch), c.deltaT, Circle(c, n))
    ensures Turn(|c.buffer|, c.index, n) == (c.index + n) % |c.buffer|
  {
    hide Turn;
    forall k | 0 <= k < n ensures NextPacket(c, n).values[k] == Circle(c, n)[k] {
      TurnIsModulo(|c.buffer|, c.index, k);
    }
    TurnIsModulo(|c.buffer|, c.index, n);
  }

  class PlaybackChannelImpl {
    const startTime: int
    const microSecondsFromEpochToStartTime: nat
    var samplesGenerated: nat
    var deltaT: nat
    var sampleRate: nat
    var resolutionNumerator: nat
    var resolutionDenominator: nat
    var lastValue: real
    var zeroOffset: real
    var lastCollectTime: int
    var dataSource: int
    var fileDataBuffer: seq<real>
    var valueArrayBuffer: seq<real>
    var dataBuffer: seq<real>
    var dataBufferIndex: nat
    var valueSignal: bool
    var sent: seq<Packet>

    /** Signals exist exactly while there is something to play, and the index is inside the buffer. */
    predicate Valid()
      reads this
    {
      (valueSignal <==> dataBuffer != []) && InBounds(View()) && 0 < deltaT
    }

    function View(): Channel
      reads this
    {
      Channel(startTime, microSecondsFromEpochToStartTime, deltaT, sampleRate, samplesGenerated,
              dataBuffer, dataBufferIndex, zeroOffset, lastValue)
    }

    /** The defaults, with the values of the ValueArray property selected. */
    constructor (startTime: int, epoch: nat, valueArray: seq<real>)
      ensures this.startTime == startTime && microSecondsFromEpochToStartTime == epoch
      ensures Valid() && dataBuffer == valueArray && sent == [] && samplesGenerated == 0
      ensures deltaT == 1000 && resolutionNumerator == 1 && resolutionDenominator == 1_000_000
      ensures sampleRate == if dataBuffer == [] then 10 else 1000
      ensures dataSource == 0 && valueArrayBuffer == valueArray && fileDataBuffer == []
      ensures dataBufferIndex == 0 && lastCollectTime == 0
      ensures zeroOffset == 0.0 && lastValue == 0.0
    {
      this.startTime, microSecondsFromEpochToStartTime := startTime, epoch;
      samplesGenerated, deltaT, sampleRate := 0, 1000, 10;
      resolutionNumerator, resolutionDenominator := 1, 1_000_000;
      lastValue, zeroOffset, lastCollectTime := 0.0, 0.0, 0;
      dataSource, fileDataBuffer, valueArrayBuffer := 0, [], valueArray;
      dataBuffer, dataBufferIndex, valueSignal, sent := [], 0, false, [];
      new;
      DataSourceChanged();
    }

    /** The selected source replaces the buffer and playing starts over at its beginning. The sample
        counter goes on. */
    method DataSourceChanged()
      requires 0 < deltaT
      modifies this`valueSignal, this`dataBuffer, this`dataBufferIndex, this`sampleRate
      ensures Valid()
      ensures dataBuffer == if dataSource == 0 then valueArrayBuffer else if dataSource == 1 then fileDataBuffer else []
      ensures dataBuffer != [] ==>
                dataBufferIndex == 0 && sampleRate == RateOf(resolutionNumerator, resolutionDenominator, deltaT)
      ensures dataBuffer == [] ==> sampleRate == old(sampleRate) && dataBufferIndex == old(dataBufferIndex)
    {
      valueSignal := false;
      dataBuffer := [];
      if dataSource == 0 {
        if valueArrayBuffer != [] {
          dataBuffer := valueArrayBuffer;
          dataBufferIndex := 0;
        }
      } else if dataSource == 1 {
        if fileDataBuffer != [] {
          dataBuffer := fileDataBuffer;
          dataBufferIndex := 0;
        }
      }
      if dataBuffer != [] {
        sampleRate := (resolutionDenominator / deltaT) * resolutionNumerator % WRAP;
        valueSignal := true;
      }
    }

    method ValueDataArrayChanged(list: seq<real>)
      requires 0 < deltaT
      modifies this`valueArrayBuffer, this`valueSignal, this`dataBuffer, this`dataBufferIndex, this`sampleRate
      ensures Valid() && valueArrayBuffer == list
      ensures dataBuffer == if dataSource == 0 then list else if dataSource == 1 then fileDataBuffer else []
      ensures dataBuffer != [] ==>
                dataBufferIndex == 0 && sampleRate == RateOf(resolutionNumerator, resolutionDenominator, deltaT)
      ensures dataBuffer == [] ==> sampleRate == old(sampleRate) && dataBufferIndex == old(dataBufferIndex)
    {
      valueArrayBuffer := [];
      for i := 0 to |list|
        invariant valueArrayBuffer == list[..i]
        invariant sampleRate == old(sampleRate) && dataBufferIndex == old(dataBufferIndex)
      {
        valueArrayBuffer := valueArrayBuffer + [list[i]];
      }
      DataSourceChanged();
    }

    /** The Zero function property: later values are shifted so that the first value of the last packet
        would have been the target. */
    method Zero(targetValue: real, referenceValue: int) returns (offset: real)
      modifies this`zeroOffset
      ensures offset == zeroOffset && lastValue + zeroOffset == targetValue
    {
      zeroOffset := targetValue - lastValue;
      offset := zeroOffset;
    }

    method CollectSamples(curTime: int, active: bool)
      requires Valid() && startTime <= curTime && SamplesSince(View(), curTime) < WRAP && samplesGenerated < WRAP
      modifies this`samplesGenerated, this`dataBufferIndex, this`lastValue, this`sent, this`lastCollectTime
      ensures Valid()
      ensures View() == Collect(old(View()), curTime, active).0
      ensures sent == old(sent) + Collect(old(View()), curTime, active).1
      ensures samplesGenerated == SamplesSince(old(View()), curTime)
      ensures lastCollectTime == curTime
      ensures dataBuffer == [] || !active || samplesGenerated == old(samplesGenerated) ==>
                sent == old(sent) && dataBufferIndex == old(dataBufferIndex) && lastValue == old(lastValue)
      ensures dataBuffer != [] && active && samplesGenerated != old(samplesGenerated) ==>
                && var due := (samplesGenerated - old(samplesGenerated)) % WRAP;
                && sent == old(sent) + [NextPacket(old(View()), due)]
                && dataBufferIndex == (old(dataBufferIndex) + due) % |dataBuffer|
                && lastValue == dataBuffer[old(dataBufferIndex)]
    {
      if dataBuffer != [] {
        NextIsCircle(View(), NewSamples(View(), curTime));
      }
      var samplesSinceStart := SamplesSince(View(), curTime);
      var newSamples := (samplesSinceStart - samplesGenerated) % WRAP;
      if newSamples > 0 {
        if valueSignal && active {
          var packetTime := (samplesGenerated * deltaT + microSecondsFromEpochToStartTime) % WRAP;
          WrappedTwice(samplesGenerated * deltaT + microSecondsFromEpochToStartTime);
          var packet := GenerateSamples(ToInt64(packetTime), newSamples);
          sent := sent + [packet];
        }
        samplesGenerated := samplesSinceStart;
      } else {
        SameCount(samplesSinceStart, samplesGenerated);
      }
      lastCollectTime := curTime;
    }

    method GenerateSamples(curTime: int, newSamples: nat) returns (packet: Packet)
      requires Valid() && dataBuffer != [] && newSamples > 0
      modifies this`dataBufferIndex, this`lastValue
      ensures packet == Packet(curTime, deltaT, Circle(old(View()), newSamples))
      ensures dataBufferIndex == Turn(|dataBuffer|, old(dataBufferIndex), newSamples)
      ensures lastValue == dataBuffer[old(dataBufferIndex)]
    {
      var buffer := new real[newSamples];
      ghost var start := dataBufferIndex;
      for sampleIndex := 0 to newSamples
        invariant dataBufferIndex == Turn(|dataBuffer|, start, sampleIndex)
        invariant forall k :: 0 <= k < sampleIndex ==> buffer[k] == Circle(old(View()), newSamples)[k]
      {
        buffer[sampleIndex] := dataBuffer[dataBufferIndex] + zeroOffset;
        dataBufferIndex := dataBufferIndex + 1;
        if dataBufferIndex >= |dataBuffer| {
          dataBufferIndex := 0;
        }
      }
      lastValue := buffer[0] - zeroOffset;
      assert buffer[..] == Circle(old(View()), newSamples);
      packet := Packet(curTime, deltaT, buffer[..]);
    }
  }

  // ----- The sample rate -----

  /** The rate dataSourceChanged computes for a tick resolution of numerator / denominator seconds. */
  function RateOf(numerator: nat, denominator: nat, deltaT: nat): nat
    requires deltaT > 0
  {
    (denominator / deltaT) * numerator % WRAP
  }

  /** The rate is the numerator times the whole number of deltaT in the denominator. */
  lemma {:induction false} RateIsTruncated(numerator: nat, denominator: nat, deltaT: nat, whole: nat)
    requires whole * deltaT <= denominator < (whole + 1) * deltaT
    ensures RateOf(numerator, denominator, deltaT) == whole * numerator % WRAP
  {
    Quotient(deltaT, whole, denominator - whole * deltaT, denominator);
  }

  /** The time of the samples generated so far has passed, and that of the next one has not: in units
      of 1 / (denominator * MICROSECONDS) seconds. */
  predicate OnTime(rate: nat, numerator: nat, denominator: nat, deltaT: nat, elapsed: nat) {
    var generated := elapsed * rate / MICROSECONDS;
    generated * (deltaT * numerator) * MICROSECONDS <= elapsed * denominator < (generated
        + 1) * (deltaT * numerator) * MICROSECONDS
  }

  lemma RightRateIsOnTime(rate: nat, numerator: nat, denominator: nat, deltaT: nat, elapsed: nat)
    requires rate * (deltaT * numerator) == denominator > 0
    ensures OnTime(rate, numerator, denominator, deltaT, elapsed)
  {
    var period := deltaT * numerator;
    var generated := elapsed * rate / MICROSECONDS;
    assert generated * MICROSECONDS <= elapsed * rate < (generated + 1) * MICROSECONDS;
    Scale(generated * MICROSECONDS, elapsed * rate, (generated + 1) * MICROSECONDS, period);
    Swap(generated, period, MICROSECONDS);
    Swap(generated + 1, period, MICROSECONDS);
    Swap(elapsed, rate, period);
    assert elapsed * period * rate == elapsed * (rate * period) by {
      Swap(elapsed, period, rate);
      Group(elapsed, rate, period);
    }
  }

  lemma Scale(a: int, b: int, c: int, k: nat)
    requires a <= b < c && k > 0
    ensures a * k <= b * k < c * k
  {
  }

  lemma Swap(a: int, b: int, c: int)
    ensures a * b * c == a * c * b
  {
  }

  lemma Group(a: int, b: int, c: int)
    ensures a * b * c == a * (b * c)
  {
  }

  lemma WholeSeconds(k: nat, rate: nat)
    ensures (k * MICROSECONDS) * rate / MICROSECONDS == k * rate
  {
    Swap(k, MICROSECONDS, rate);
    Quotient(MICROSECONDS, k * rate, 0, k * rate * MICROSECONDS);
  }

  /** A rate that is too fast runs ahead within a second, one that is too slow falls behind. */
  lemma WrongRateDrifts(rate: nat, numerator: nat, denominator: nat, deltaT: nat) returns (elapsed: nat)
    requires rate * (deltaT * numerator) != denominator
    ensures !OnTime(rate, numerator, denominator, deltaT, elapsed)
  {
    var period := deltaT * numerator;
    if rate * period > denominator {
      elapsed := MICROSECONDS;
      WholeSeconds(1, rate);
    } else {
      elapsed := period * MICROSECONDS;
      WholeSeconds(period, rate);
      TooSlow(rate, period, denominator);
    }
  }

  lemma TooSlow(rate: nat, period: nat, denominator: nat)
    requires rate * period < denominator
    ensures (period * rate + 1) * period * MICROSECONDS <= period * MICROSECONDS * denominator
  {
    assert rate * period + 1 <= denominator;
    assert (period * rate + 1) * period <= denominator * period by {
      assert period * rate == rate * period;
      Times(period * rate + 1, denominator, period);
    }
    Times((period * rate + 1) * period, denominator * period, MICROSECONDS);
    Swap(denominator, period, MICROSECONDS);
    assert period * MICROSECONDS * denominator == denominator * period * MICROSECONDS by {
      Swap(period, MICROSECONDS, denominator);
      assert period * denominator == denominator * period;
    }
  }

  lemma Times(a: int, b: int, k: nat)
    requires a <= b
    ensures a * k <= b * k
  {
  }

  /** When the division in the rate formula loses nothing. */
  lemma RightRateIff(numerator: nat, denominator: nat, deltaT: nat)
    requires deltaT > 0 && denominator > 0 && (denominator / deltaT) * numerator < WRAP
    ensures RateOf(numerator, denominator, deltaT) * (deltaT * numerator) == denominator
       <==> numerator == 1 && denominator % deltaT == 0
  {
    var q, r := denominator / deltaT, denominator % deltaT;
    assert denominator == q * deltaT + r;
    assert RateOf(numerator, denominator, deltaT) == q * numerator;
    var whole := q * deltaT;
    FourFactors(q, numerator, deltaT);
    if q > 0 {
      Multiple(q, deltaT);
    }
    SquareFits(numerator, whole, r, deltaT);
  }

  lemma FourFactors(q: nat, numerator: nat, deltaT: nat)
    ensures (q * numerator) * (deltaT * numerator) == (q * deltaT) * (numerator * numerator)
  {
    Group(q * numerator, deltaT, numerator);
    Swap(q, numerator, deltaT);
    Group(q * deltaT, numerator, numerator);
  }

  /** A multiple of a square is the multiple plus a smaller remainder only where both are trivial. */
  lemma SquareFits(numerator: nat, whole: nat, r: nat, deltaT: nat)
    requires r < deltaT && whole + r > 0 && (whole == 0 || deltaT <= whole)
    ensures whole * (numerator * numerator) == whole + r <==> numerator == 1 && r == 0
  {
    var square := numerator * numerator;
    if numerator >= 2 {
      Times(2, numerator, numerator);
      Times(4, square, whole);
    }
    ProductOf(whole, square);
  }

  lemma ProductOf(whole: nat, square: nat)
    ensures square == 0 || whole == 0 ==> whole * square == 0
    ensures square == 1 ==> whole * square == whole
    ensures whole * square == square * whole
  {
  }

  /** The clock bound. In exact arithmetic the samples keep pace with the clock at every moment if and
      only if the numerator of the tick resolution is 1 and deltaT divides its denominator: the formula
      multiplies by the numerator and divides with truncation. */
  lemma {:induction false} ClockBoundIff(numerator: nat, denominator: nat, deltaT: nat)
    requires deltaT > 0 && denominator > 0 && (denominator / deltaT) * numerator < WRAP
    ensures (forall elapsed: nat ::
              OnTime(RateOf(numerator, denominator, deltaT), numerator, denominator, deltaT, elapsed))
       <==> numerator == 1 && denominator % deltaT == 0
  {
    var rate := RateOf(numerator, denominator, deltaT);
    RightRateIff(numerator, denominator, deltaT);
    if rate * (deltaT * numerator) == denominator {
      forall elapsed: nat ensures OnTime(rate, numerator, denominator, deltaT, elapsed) {
        RightRateIsOnTime(rate, numerator, denominator, deltaT, elapsed);
      }
    } else {
      var elapsed := WrongRateDrifts(rate, numerator, denominator, deltaT);
    }
  }

  /** With microsecond ticks and deltaT dividing 10^6 the samples generated never run ahead of the
      clock and lag it by less than one deltaT. */
  lemma {:induction false} MicrosecondClock(c: Channel, time: int)
    requires c.start <= time && 0 < c.deltaT && MICROSECONDS % c.deltaT == 0
    requires c.rate == RateOf(1, MICROSECONDS, c.deltaT)
    ensures SamplesSince(c, time) * c.deltaT <= time - c.start < SamplesSince(c, time) * c.deltaT + c.deltaT
  {
    RightRateIff(1, MICROSECONDS, c.deltaT);
    RightRateIsOnTime(c.rate, 1, MICROSECONDS, c.deltaT, time - c.start);
  }
}
