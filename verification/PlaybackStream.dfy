/** The stream of samples a playback channel sends over many collections, and how little it depends on
    when they happen. */
module PlaybackStream {
  import opened Playback

  /** One pass of the acquisition loop: the clock and whether the value signal is active. */
  datatype Tick = Tick(time: int, active: bool)

  function AllSamples(packets: seq<Packet>): seq<Sample> {
    if packets == [] then [] else SamplesOf(packets[0]) + AllSamples(packets[1..])
  }

  /** The collections one after the other, and everything they send. */
  function Play(c: Channel, ticks: seq<Tick>): (Channel, seq<Sample>)
    requires InBounds(c) && forall i :: 0 <= i < |ticks| ==> c.start <= ticks[i].time
    decreases |ticks|
  {
    if ticks == [] then (c, [])
    else
      var (next, packets) := Collect(c, ticks[0].time, ticks[0].active);
      var (last, samples) := Play(next, ticks[1..]);
      (last, AllSamples(packets) + samples)
  }

  /** The clock never goes back, and counters and time stamps stay in their ranges. */
  ghost predicate Steady(c: Channel, ticks: seq<Tick>) {
    && InBounds(c)
    && (forall i :: 0 <= i < |ticks| ==> InRange(c, ticks[i].time))
    && (forall i, j :: 0 <= i < j < |ticks| ==> ticks[i].time <= ticks[j].time)
  }

  predicate InRange(c: Channel, time: int) {
    && c.start <= time && c.generated <= SamplesSince(c, time) < WRAP
    && SamplesSince(c, time) * c.deltaT + c.epoch < 0x8000_0000_0000_0000
  }

  // ----- The stream without any batches -----

  /** The next n samples: sample number i of the channel is stamped epoch + i * deltaT, and the values
      continue round the buffer. */
  function Ideal(c: Channel, n: nat): (r: seq<Sample>)
    requires c.index < |c.buffer|
    ensures |r| == n
  {
    seq(n, k requires 0 <= k < n =>
      Sample(c.epoch + (c.generated + k) * c.deltaT, c.buffer[Turn(|c.buffer|, c.index, k)] + c.zeroOffset))
  }

  /** The channel n samples further on. */
  function Advanced(c: Channel, n: nat): Channel
    requires c.index < |c.buffer|
  {
    c.(generated := c.generated + n, index := Turn(|c.buffer|, c.index, n))
  }

  lemma {:induction false} Around(length: nat, index: nat, m: nat, k: nat)
    requires index < length
    ensures Turn(length, Turn(length, index, m), k) == Turn(length, index, m + k)
  {
    if k > 0 {
      Around(length, index, m, k - 1);
    }
  }

  lemma IdealConcat(c: Channel, m: nat, n: nat)
    requires c.index < |c.buffer|
    ensures Ideal(c, m + n) == Ideal(c, m) + Ideal(Advanced(c, m), n)
  {
    var whole, second := Ideal(c, m + n), Ideal(Advanced(c, m), n);
    forall k | 0 <= k < n ensures whole[m + k] == second[k] {
      Around(|c.buffer|, c.index, m, k);
    }
  }

  // ----- One collection -----

  lemma SinceGrows(c: Channel, a: int, b: int)
    requires c.start <= a <= b
    ensures SamplesSince(c, a) <= SamplesSince(c, b)
  {
    Times(a - c.start, b - c.start, c.rate);
    Quotients((a - c.start) * c.rate, (b - c.start) * c.rate);
  }

  lemma Quotients(a: nat, b: nat)
    requires a <= b
    ensures a / MICROSECONDS <= b / MICROSECONDS
  {
  }

  lemma StampFits(c: Channel, time: int)
    requires InRange(c, time)
    ensures 0 <= c.generated * c.deltaT + c.epoch < 0x8000_0000_0000_0000
  {
    Times(c.generated, SamplesSince(c, time), c.deltaT);
  }

  lemma NoWrap(c: Channel, time: int)
    requires InRange(c, time)
    ensures NewSamples(c, time) == SamplesSince(c, time) - c.generated
    ensures ToInt64(c.generated * c.deltaT + c.epoch) == c.generated * c.deltaT + c.epoch
  {
    StampFits(c, time);
    Small(SamplesSince(c, time) - c.generated);
    Small(c.generated * c.deltaT + c.epoch);
  }

  lemma Small(n: nat)
    requires n < WRAP
    ensures n % WRAP == n
  {
  }

  lemma PacketIsIdeal(c: Channel, n: nat)
    requires c.index < |c.buffer|
    ensures SamplesOf(Packet(c.generated * c.deltaT + c.epoch, c.deltaT, Circle(c, n))) == Ideal(c, n)
  {
    var p := Packet(c.generated * c.deltaT + c.epoch, c.deltaT, Circle(c, n));
    forall k | 0 <= k < n ensures SamplesOf(p)[k] == Ideal(c, n)[k] {
      Spread(c.generated, k, c.deltaT);
    }
  }

  lemma OnePacket(p: Packet)
    ensures AllSamples([p]) == SamplesOf(p)
  {
    assert [p][1..] == [];
    assert SamplesOf(p) + [] == SamplesOf(p);
  }

  /** A collection of an active channel with something to play sends exactly the samples due. */
  lemma CollectIsIdeal(c: Channel, time: int)
    requires InBounds(c) && c.buffer != [] && InRange(c, time)
    ensures var n := SamplesSince(c, time) - c.generated;
            var (next, packets) := Collect(c, time, true);
            && AllSamples(packets) == Ideal(c, n)
            && next.(lastValue := c.lastValue) == Advanced(c, n)
            && (n > 0 ==> next.lastValue == c.buffer[c.index])
  {
    var n := SamplesSince(c, time) - c.generated;
    NoWrap(c, time);
    if n > 0 {
      PacketIsIdeal(c, n);
      OnePacket(Packet(c.generated * c.deltaT + c.epoch, c.deltaT, Circle(c, n)));
    }
  }

  lemma Spread(a: int, b: int, k: int)
    ensures (a + b) * k == a * k + b * k
  {
  }

  lemma SteadyTail(c: Channel, next: Channel, ticks: seq<Tick>)
    requires ticks != [] && Steady(c, ticks) && InBounds(next)
    requires next.start == c.start && next.rate == c.rate && next.deltaT == c.deltaT && next.epoch == c.epoch
    requires next.generated == SamplesSince(c, ticks[0].time)
    ensures Steady(next, ticks[1..])
  {
    forall i | 0 <= i < |ticks[1..]| ensures InRange(next, ticks[1..][i].time) {
      assert InRange(c, ticks[i + 1].time);
      SinceGrows(c, ticks[0].time, ticks[i + 1].time);
    }
  }

  // ----- Batches do not matter -----

  predicate AllActive(ticks: seq<Tick>) {
    forall i :: 0 <= i < |ticks| ==> ticks[i].active
  }

  lemma PlayStep(c: Channel, ticks: seq<Tick>, next: Channel, now: seq<Sample>)
    requires Steady(c, ticks) && ticks != []
    requires next == Collect(c, ticks[0].time, ticks[0].active).0
    requires now == AllSamples(Collect(c, ticks[0].time, ticks[0].active).1)
    ensures InBounds(next) && forall i :: 0 <= i < |ticks[1..]| ==> next.start <= ticks[1..][i].time
    ensures Play(c, ticks) == (Play(next, ticks[1..]).0, now + Play(next, ticks[1..]).1)
  {
    assert InRange(c, ticks[0].time);
    forall i | 0 <= i < |ticks[1..]| ensures next.start <= ticks[1..][i].time {
      assert InRange(c, ticks[i + 1].time);
    }
  }

  lemma AdvancedTwice(c: Channel, m: nat, n: nat)
    requires c.index < |c.buffer|
    ensures Advanced(Advanced(c, m), n) == Advanced(c, m + n)
  {
    Around(|c.buffer|, c.index, m, n);
  }

  lemma PlayMore(c: Channel, next: Channel, m: nat, n: nat, last: Channel, rest: seq<Sample>)
    requires c.index < |c.buffer| && next.(lastValue := c.lastValue) == Advanced(c, m)
    requires rest == Ideal(next, n) && last.(lastValue := next.lastValue) == Advanced(next, n)
    ensures Ideal(c, m) + rest == Ideal(c, m + n) && last.(lastValue := c.lastValue) == Advanced(c, m + n)
  {
    SameIdeal(next, Advanced(c, m), n);
    IdealConcat(c, m, n);
    AdvancedTwice(c, m, n);
  }

  /** However the acquisition loop cuts time into collections, an active channel with a source sends
      the samples that are due at the last collection: no gap, no overlap, no dependence on batches. */
  lemma {:induction false} PlayIsIdeal(c: Channel, ticks: seq<Tick>)
    requires Steady(c, ticks) && c.buffer != [] && ticks != [] && AllActive(ticks)
    ensures SamplesSince(c, ticks[|ticks| - 1].time) >= c.generated
    ensures var n := SamplesSince(c, ticks[|ticks| - 1].time) - c.generated;
            var (last, samples) := Play(c, ticks);
            samples == Ideal(c, n) && last.(lastValue := c.lastValue) == Advanced(c, n)
    decreases |ticks|
  {
    var time, end := ticks[0].time, ticks[|ticks| - 1].time;
    assert InRange(c, time) && InRange(c, end);
    CollectIsIdeal(c, time);
    var m := SamplesSince(c, time) - c.generated;
    var next := Collect(c, time, true).0;
    PlayStep(c, ticks, next, Ideal(c, m));
    if |ticks| == 1 {
      assert ticks[1..] == [];
      assert Ideal(c, m) + [] == Ideal(c, m);
    } else {
      SteadyTail(c, next, ticks);
      PlayIsIdeal(next, ticks[1..]);
      assert ticks[1..][|ticks[1..]| - 1].time == end;
      var (last, rest) := Play(next, ticks[1..]);
      PlayMore(c, next, m, SamplesSince(next, end) - next.generated, last, rest);
    }
  }

  lemma SameIdeal(a: Channel, b: Channel, n: nat)
    requires a.index < |a.buffer| && a.(lastValue := b.lastValue) == b
    ensures Ideal(a, n) == Ideal(b, n) && Advanced(a, n).(lastValue := b.lastValue) == Advanced(b, n)
  {
  }

  /** Any two schedules that end at the same time send the same stream. */
  lemma {:induction false} BatchingDoesNotMatter(c: Channel, a: seq<Tick>, b: seq<Tick>)
    requires Steady(c, a) && Steady(c, b) && c.buffer != [] && a != [] && b != [] && AllActive(a) && AllActive(b)
    requires a[|a| - 1].time == b[|b| - 1].time
    ensures Play(c, a).1 == Play(c, b).1
    ensures Play(c, a).0.(lastValue := c.lastValue) == Play(c, b).0.(lastValue := c.lastValue)
  {
    PlayIsIdeal(c, a);
    PlayIsIdeal(c, b);
  }

  lemma IdealFromStart(c: Channel, n: nat, i: nat)
    requires c.index < |c.buffer| && c.generated == 0 && c.index == 0 && i < n
    ensures Ideal(c, n)[i] == Sample(c.epoch + i * c.deltaT, c.buffer[i % |c.buffer|] + c.zeroOffset)
  {
    TurnIsModulo(|c.buffer|, 0, i);
    assert c.generated + i == i;
  }

  /** Sample number i after a fresh start: value i mod length, stamped epoch + i * deltaT. */
  lemma {:induction false} FreshStream(c: Channel, ticks: seq<Tick>, i: nat)
    requires Steady(c, ticks) && c.buffer != [] && ticks != [] && AllActive(ticks)
    requires c.generated == 0 && c.index == 0
    ensures |Play(c, ticks).1| == SamplesSince(c, ticks[|ticks| - 1].time)
    ensures i < |Play(c, ticks).1| ==>
              Play(c, ticks).1[i] == Sample(c.epoch + i * c.deltaT, c.buffer[i % |c.buffer|] + c.zeroOffset)
  {
    PlayIsIdeal(c, ticks);
    if i < |Play(c, ticks).1| {
      IdealFromStart(c, |Play(c, ticks).1|, i);
    }
  }

  // ----- Pauses -----

  predicate Started(start: int, ticks: seq<Tick>) {
    forall i :: 0 <= i < |ticks| ==> start <= ticks[i].time
  }

  /** The sample numbers from a to b. */
  function Range(a: nat, b: nat): seq<nat> {
    if a < b then seq(b - a, k requires 0 <= k < b - a => a + k) else []
  }

  /** The numbers of the samples that fall due while the signal is active. */
  function Due(start: int, rate: nat, generated: nat, ticks: seq<Tick>): seq<nat>
    requires Started(start, ticks)
    decreases |ticks|
  {
    if ticks == [] then []
    else
      (if ticks[0].active then Range(generated, Since(start, rate, ticks[0].time)) else [])
      + Due(start, rate, Since(start, rate, ticks[0].time), ticks[1..])
  }

  /** The sample with this number whose value is k steps round the buffer. */
  function SampleAt(c: Channel, number: nat, k: nat): Sample
    requires c.index < |c.buffer|
  {
    Sample(c.epoch + number * c.deltaT, c.buffer[Turn(|c.buffer|, c.index, k)] + c.zeroOffset)
  }

  /** The samples with these numbers, their values taken in turn from the buffer. */
  function Numbered(c: Channel, numbers: seq<nat>): (r: seq<Sample>)
    requires c.index < |c.buffer|
    ensures |r| == |numbers|
  {
    seq(|numbers|, k requires 0 <= k < |numbers| => SampleAt(c, numbers[k], k))
  }

  predicate SameSource(c: Channel, next: Channel) {
    next.buffer == c.buffer && next.epoch == c.epoch && next.deltaT == c.deltaT && next.zeroOffset == c.zeroOffset
  }

  lemma SampleShift(c: Channel, next: Channel, number: nat, m: nat, k: nat)
    requires c.index < |c.buffer| && SameSource(c, next) && next.index == Turn(|c.buffer|, c.index, m)
    ensures SampleAt(c, number, m + k) == SampleAt(next, number, k)
  {
    Around(|c.buffer|, c.index, m, k);
  }

  lemma Joined<T>(whole: seq<T>, a: seq<T>, b: seq<T>)
    requires |whole| == |a| + |b|
    requires forall k :: 0 <= k < |a| ==> whole[k] == a[k]
    requires forall k :: 0 <= k < |b| ==> whole[|a| + k] == b[k]
    ensures whole == a + b
  {
    forall k | 0 <= k < |whole| ensures whole[k] == (a + b)[k] {
      if k >= |a| {
        assert whole[|a| + (k - |a|)] == b[k - |a|];
      }
    }
  }

  lemma {:induction false} NumberedConcat(c: Channel, next: Channel, a: seq<nat>, b: seq<nat>)
    requires c.index < |c.buffer| && SameSource(c, next) && next.index == Turn(|c.buffer|, c.index, |a|)
    ensures Numbered(c, a + b) == Numbered(c, a) + Numbered(next, b)
  {
    var whole, first, second := Numbered(c, a + b), Numbered(c, a), Numbered(next, b);
    forall k | 0 <= k < |b| ensures whole[|a| + k] == second[k] {
      SampleShift(c, next, b[k], |a|, k);
      assert (a + b)[|a| + k] == b[k];
    }
    forall k | 0 <= k < |a| ensures whole[k] == first[k] {
      assert (a + b)[k] == a[k];
    }
    Joined(whole, first, second);
  }

  lemma PausedCollect(c: Channel, time: int)
    requires InBounds(c) && InRange(c, time)
    ensures Collect(c, time, false) == (c.(generated := SamplesSince(c, time)), [])
  {
    NoWrap(c, time);
  }

  /** While the signal is inactive time goes on but the buffer waits: whatever the schedule, exactly
      the samples due in active passes are sent, each with the time stamp of its own number, and their
      values continue round the buffer without a gap. */
  lemma {:induction false} PlayWithPauses(c: Channel, ticks: seq<Tick>)
    requires Steady(c, ticks) && c.buffer != []
    ensures Started(c.start, ticks)
    ensures Play(c, ticks).1 == Numbered(c, Due(c.start, c.rate, c.generated, ticks))
    decreases |ticks|
  {
    forall i | 0 <= i < |ticks| ensures c.start <= ticks[i].time {
      assert InRange(c, ticks[i].time);
    }
    if ticks != [] {
      var time := ticks[0].time;
      assert InRange(c, time);
      var next := Collect(c, time, ticks[0].active).0;
      var numbers := if ticks[0].active then Range(c.generated, SamplesSince(c, time)) else [];
      PassSends(c, ticks[0]);
      PlayStep(c, ticks, next, Numbered(c, numbers));
      SteadyTail(c, next, ticks);
      PlayWithPauses(next, ticks[1..]);
      NumberedConcat(c, next, numbers, Due(c.start, c.rate, next.generated, ticks[1..]));
    }
  }

  /** One pass, active or not. */
  lemma PassSends(c: Channel, tick: Tick)
    requires c.index < |c.buffer| && InRange(c, tick.time)
    ensures var (next, packets) := Collect(c, tick.time, tick.active);
            var numbers := if tick.active then Range(c.generated, SamplesSince(c, tick.time)) else [];
            && AllSamples(packets) == Numbered(c, numbers)
            && next.(lastValue := c.lastValue)
               == c.(generated := SamplesSince(c, tick.time), index := Turn(|c.buffer|, c.index, |numbers|))
  {
    if tick.active {
      CollectIsIdeal(c, tick.time);
      assert Ideal(c, SamplesSince(c, tick.time) - c.generated)
             == Numbered(c, Range(c.generated, SamplesSince(c, tick.time)));
    } else {
      PausedCollect(c, tick.time);
    }
  }

  /** Sample numbers never repeat or go back. */
  lemma {:induction false} DueIncreases(c: Channel, ticks: seq<Tick>, k: nat, l: nat)
    requires Steady(c, ticks) && Started(c.start, ticks) && k <= l < |Due(c.start, c.rate, c.generated, ticks)|
    ensures c.generated <= Due(c.start, c.rate, c.generated, ticks)[k]
    ensures k < l ==> Due(c.start, c.rate, c.generated, ticks)[k] < Due(c.start, c.rate, c.generated, ticks)[l]
    decreases |ticks|
  {
    var time := ticks[0].time;
    assert InRange(c, time);
    var next := c.(generated := SamplesSince(c, time));
    SteadyTail(c, next, ticks);
    var own := if ticks[0].active then SamplesSince(c, time) - c.generated else 0;
    if l >= own {
      DueIncreases(next, ticks[1..], if k < own then 0 else k - own, l - own);
    }
  }

  // ----- What does depend on batches -----

  /** Pass number i sends a packet. */
  predicate Sends(c: Channel, ticks: seq<Tick>, i: nat)
    requires Started(c.start, ticks) && i < |ticks|
  {
    && ticks[i].active
    && (if i == 0 then c.generated else SamplesSince(c, ticks[i - 1].time)) < SamplesSince(c, ticks[i].time)
  }

  predicate NoneSendsAfter(c: Channel, ticks: seq<Tick>, i: nat)
    requires Started(c.start, ticks)
  {
    forall j :: i <= j < |ticks| ==> !Sends(c, ticks, j)
  }

  /** How far round the buffer the passes before number i have gone. */
  function SentBefore(c: Channel, ticks: seq<Tick>, i: nat): nat
    requires Started(c.start, ticks) && i <= |ticks|
  {
    |Due(c.start, c.rate, c.generated, ticks[..i])|
  }

  lemma SteadyIsStarted(c: Channel, ticks: seq<Tick>)
    requires Steady(c, ticks)
    ensures Started(c.start, ticks) && InBounds(c)
  {
    forall i | 0 <= i < |ticks| ensures c.start <= ticks[i].time {
      assert InRange(c, ticks[i].time);
    }
  }

  /** The state after the first pass, and the passes left. */
  lemma FirstPass(c: Channel, ticks: seq<Tick>) returns (next: Channel, numbers: seq<nat>)
    requires Steady(c, ticks) && c.buffer != [] && ticks != []
    ensures Started(c.start, ticks) && Steady(next, ticks[1..]) && InBounds(next)
    ensures next == Collect(c, ticks[0].time, ticks[0].active).0
    ensures Play(c, ticks).0 == Play(next, ticks[1..]).0
    ensures numbers == if ticks[0].active then Range(c.generated, SamplesSince(c, ticks[0].time)) else []
    ensures next.(lastValue := c.lastValue)
         == c.(generated := SamplesSince(c, ticks[0].time), index := Turn(|c.buffer|, c.index, |numbers|))
    ensures next.lastValue == if Sends(c, ticks, 0) then c.buffer[c.index] else c.lastValue
  {
    SteadyIsStarted(c, ticks);
    var time := ticks[0].time;
    assert InRange(c, time);
    next := Collect(c, time, ticks[0].active).0;
    numbers := if ticks[0].active then Range(c.generated, SamplesSince(c, time)) else [];
    PassSends(c, ticks[0]);
    PlayStep(c, ticks, next, Numbered(c, numbers));
    SteadyTail(c, next, ticks);
    NoWrap(c, time);
  }

  lemma SendsLater(c: Channel, next: Channel, ticks: seq<Tick>, i: nat)
    requires Started(c.start, ticks) && 0 < i < |ticks|
    requires next.start == c.start && next.rate == c.rate && next.generated == SamplesSince(c, ticks[0].time)
    ensures Started(next.start, ticks[1..]) && (Sends(next, ticks[1..], i - 1) <==> Sends(c, ticks, i))
  {
  }

  lemma NoneLater(c: Channel, next: Channel, ticks: seq<Tick>, i: nat)
    requires Started(c.start, ticks) && ticks != [] && NoneSendsAfter(c, ticks, i + 1)
    requires next.start == c.start && next.rate == c.rate && next.generated == SamplesSince(c, ticks[0].time)
    ensures Started(next.start, ticks[1..]) && NoneSendsAfter(next, ticks[1..], i)
  {
    forall j | i <= j < |ticks[1..]| ensures Started(next.start, ticks[1..]) && !Sends(next, ticks[1..], j) {
      SendsLater(c, next, ticks, j + 1);
      assert !Sends(c, ticks, j + 1);
    }
  }

  lemma {:induction false} NothingSent(c: Channel, ticks: seq<Tick>)
    requires Steady(c, ticks) && c.buffer != [] && Started(c.start, ticks) && NoneSendsAfter(c, ticks, 0)
    ensures Play(c, ticks).0.lastValue == c.lastValue
    decreases |ticks|
  {
    if ticks != [] {
      var next, numbers := FirstPass(c, ticks);
      assert !Sends(c, ticks, 0);
      NoneLater(c, next, ticks, 0);
      NothingSent(next, ticks[1..]);
    }
  }

  /** Zero() is relative to the last value, and that is the value the buffer had reached where the last
      pass that sent anything began: whatever the schedule, it is not the value sent last. */
  lemma {:induction false} ReferenceOf(c: Channel, ticks: seq<Tick>, i: nat)
    requires Steady(c, ticks) && c.buffer != [] && Started(c.start, ticks) && i < |ticks|
    requires Sends(c, ticks, i) && NoneSendsAfter(c, ticks, i + 1)
    ensures Play(c, ticks).0.lastValue == c.buffer[Turn(|c.buffer|, c.index, SentBefore(c, ticks, i))]
    decreases |ticks|
  {
    hide Play, Steady, Due, Sends, Since, NoneSendsAfter;
    SteadyIsStarted(c, ticks);
    var next, numbers := FirstPass(c, ticks);
    NoneLater(c, next, ticks, i);
    if i == 0 {
      NothingSent(next, ticks[1..]);
      NothingBefore(c, ticks);
    } else {
      SendsLater(c, next, ticks, i);
      ReferenceOf(next, ticks[1..], i - 1);
      SentBeforeLater(c, next, ticks, i, numbers);
      Around(|c.buffer|, c.index, |numbers|, SentBefore(next, ticks[1..], i - 1));
    }
  }

  lemma NothingBefore(c: Channel, ticks: seq<Tick>)
    requires Started(c.start, ticks)
    ensures SentBefore(c, ticks, 0) == 0
  {
    assert ticks[..0] == [];
  }

  lemma SentBeforeLater(c: Channel, next: Channel, ticks: seq<Tick>, i: nat, numbers: seq<nat>)
    requires Started(c.start, ticks) && 0 < i <= |ticks|
    requires next.start == c.start && next.rate == c.rate && next.generated == SamplesSince(c, ticks[0].time)
    requires numbers == if ticks[0].active then Range(c.generated, SamplesSince(c, ticks[0].time)) else []
    ensures Started(next.start, ticks[1..])
    ensures SentBefore(c, ticks, i) == |numbers| + SentBefore(next, ticks[1..], i - 1)
  {
    assert ticks[..i][1..] == ticks[1..][..i - 1];
  }

  // ----- The packets of a schedule -----

  /** The packets the collections send. */
  function Packets(c: Channel, ticks: seq<Tick>): seq<Packet>
    requires InBounds(c) && Started(c.start, ticks)
    decreases |ticks|
  {
    if ticks == [] then []
    else
      var (next, packets) := Collect(c, ticks[0].time, ticks[0].active);
      packets + Packets(next, ticks[1..])
  }

  lemma {:induction false} AllSamplesConcat(a: seq<Packet>, b: seq<Packet>)
    ensures AllSamples(a + b) == AllSamples(a) + AllSamples(b)
  {
    if a == [] {
      assert [] + b == b;
    } else {
      assert (a + b)[1..] == a[1..] + b;
      AllSamplesConcat(a[1..], b);
    }
  }

  /** The stream is that of the packets. */
  lemma {:induction false} StreamOfPackets(c: Channel, ticks: seq<Tick>)
    requires InBounds(c) && Started(c.start, ticks)
    ensures Play(c, ticks).1 == AllSamples(Packets(c, ticks))
    decreases |ticks|
  {
    if ticks != [] {
      var (next, packets) := Collect(c, ticks[0].time, ticks[0].active);
      StreamOfPackets(next, ticks[1..]);
      AllSamplesConcat(packets, Packets(next, ticks[1..]));
    }
  }

  /** With nothing to play no schedule sends a packet, not even an empty one, and nothing of the channel
      changes but the count of the samples that would have been due. */
  lemma {:induction false} NothingToPlay(c: Channel, ticks: seq<Tick>)
    requires c.buffer == [] && Started(c.start, ticks) && c.generated < WRAP
    requires forall i :: 0 <= i < |ticks| ==> SamplesSince(c, ticks[i].time) < WRAP
    ensures Packets(c, ticks) == [] && Play(c, ticks).1 == []
    ensures Play(c, ticks).0
         == if ticks == [] then c else c.(generated := Since(c.start, c.rate, ticks[|ticks| - 1].time))
    decreases |ticks|
  {
    if ticks != [] {
      var next := c.(generated := SamplesSince(c, ticks[0].time));
      if NewSamples(c, ticks[0].time) == 0 {
        SameCount(SamplesSince(c, ticks[0].time), c.generated);
      }
      NothingToPlay(next, ticks[1..]);
    }
  }

  /** The packet of pass number i: its values start where those of the passes before it ended. */
  function PassPacket(c: Channel, ticks: seq<Tick>, i: nat): Packet
    requires c.index < |c.buffer| && Started(c.start, ticks) && i < |ticks| && Sends(c, ticks, i)
  {
    var before := if i == 0 then c.generated else SamplesSince(c, ticks[i - 1].time);
    Packet(c.epoch + before * c.deltaT, c.deltaT,
           seq(SamplesSince(c, ticks[i].time) - before, k requires 0 <= k < SamplesSince(c, ticks[i].time) - before =>
             c.buffer[(c.index + SentBefore(c, ticks, i) + k) % |c.buffer|] + c.zeroOffset))
  }

  /** The packets of the sending passes from number i on. */
  function PassPackets(c: Channel, ticks: seq<Tick>, i: nat): seq<Packet>
    requires c.index < |c.buffer| && Started(c.start, ticks) && i <= |ticks|
    decreases |ticks| - i
  {
    if i == |ticks| then []
    else (if Sends(c, ticks, i) then [PassPacket(c, ticks, i)] else []) + PassPackets(c, ticks, i + 1)
  }

  lemma PassPacketLater(c: Channel, next: Channel, ticks: seq<Tick>, i: nat, numbers: seq<nat>)
    requires c.index < |c.buffer| && Started(c.start, ticks) && 0 < i < |ticks| && Sends(c, ticks, i)
    requires numbers == if ticks[0].active then Range(c.generated, SamplesSince(c, ticks[0].time)) else []
    requires next.(lastValue := c.lastValue)
          == c.(generated := SamplesSince(c, ticks[0].time), index := Turn(|c.buffer|, c.index, |numbers|))
    ensures Started(next.start, ticks[1..]) && Sends(next, ticks[1..], i - 1)
    ensures PassPacket(next, ticks[1..], i - 1) == PassPacket(c, ticks, i)
  {
    hide Turn, SentBefore, Due, Since;
    SendsLater(c, next, ticks, i);
    SentBeforeLater(c, next, ticks, i, numbers);
    var own, whole := PassPacket(next, ticks[1..], i - 1), PassPacket(c, ticks, i);
    var sent := SentBefore(next, ticks[1..], i - 1);
    forall k | 0 <= k < |whole.values| ensures own.values[k] == whole.values[k] {
      RoundLater(|c.buffer|, c.index, |numbers|, sent, k);
    }
  }

  lemma RoundLater(length: nat, index: nat, first: nat, sent: nat, k: nat)
    requires index < length
    ensures (Turn(length, index, first) + sent + k) % length == (index + (first + sent) + k) % length
  {
    hide Turn;
    TurnIsModulo(length, Turn(length, index, first), sent + k);
    Around(length, index, first, sent + k);
    TurnIsModulo(length, index, first + (sent + k));
  }

  lemma {:induction false} PassPacketsLater(c: Channel, next: Channel, ticks: seq<Tick>, i: nat, numbers: seq<nat>)
    requires c.index < |c.buffer| && Started(c.start, ticks) && 0 < i <= |ticks|
    requires numbers == if ticks[0].active then Range(c.generated, SamplesSince(c, ticks[0].time)) else []
    requires next.(lastValue := c.lastValue)
          == c.(generated := SamplesSince(c, ticks[0].time), index := Turn(|c.buffer|, c.index, |numbers|))
    ensures Started(next.start, ticks[1..])
    ensures PassPackets(next, ticks[1..], i - 1) == PassPackets(c, ticks, i)
    decreases |ticks| - i
  {
    if i < |ticks| {
      SendsLater(c, next, ticks, i);
      if Sends(c, ticks, i) {
        PassPacketLater(c, next, ticks, i, numbers);
      }
      PassPacketsLater(c, next, ticks, i + 1, numbers);
    }
  }

  lemma FirstPacket(c: Channel, ticks: seq<Tick>)
    requires Steady(c, ticks) && c.buffer != [] && ticks != []
    ensures Started(c.start, ticks)
    ensures Collect(c, ticks[0].time, ticks[0].active).1
         == if Sends(c, ticks, 0) then [PassPacket(c, ticks, 0)] else []
  {
    SteadyIsStarted(c, ticks);
    assert InRange(c, ticks[0].time);
    NoWrap(c, ticks[0].time);
    if Sends(c, ticks, 0) {
      NothingBefore(c, ticks);
      var n := SamplesSince(c, ticks[0].time) - c.generated;
      NextIsCircle(c, n);
      assert PassPacket(c, ticks, 0).values == NextPacket(c, n).values;
    }
  }

  /** Exactly the active passes in which samples are due send a packet, and each sends one: the samples
      since the pass before, stamped with the number of the first and read on from where the last
      packet ended. */
  lemma {:induction false} PacketsSent(c: Channel, ticks: seq<Tick>)
    requires Steady(c, ticks) && c.buffer != []
    ensures Started(c.start, ticks) && Packets(c, ticks) == PassPackets(c, ticks, 0)
    decreases |ticks|
  {
    hide PassPacket, Sends, Turn, Since, Collect, Range, Steady;
    SteadyIsStarted(c, ticks);
    if ticks != [] {
      var next, numbers := FirstPass(c, ticks);
      FirstPacket(c, ticks);
      PacketsSent(next, ticks[1..]);
      PassPacketsLater(c, next, ticks, 1, numbers);
    }
  }

  /** Two schedules leave Zero() with the same reference if and only if the buffer holds the same value
      where their last sending passes began. */
  lemma {:induction false} ZeroReferenceIff(c: Channel, a: seq<Tick>, b: seq<Tick>, i: nat, j: nat)
    requires c.buffer != [] && Steady(c, a) && Started(c.start, a) && Steady(c, b) && Started(c.start, b)
    requires i < |a| && Sends(c, a, i) && NoneSendsAfter(c, a, i + 1)
    requires j < |b| && Sends(c, b, j) && NoneSendsAfter(c, b, j + 1)
    ensures Play(c, a).0.lastValue == Play(c, b).0.lastValue
       <==> c.buffer[(c.index + SentBefore(c, a, i)) % |c.buffer|]
               == c.buffer[(c.index + SentBefore(c, b, j)) % |c.buffer|]
  {
    hide Play, Steady, Due, Sends, Since, NoneSendsAfter, SentBefore, Turn;
    SteadyIsStarted(c, a);
    ReferenceOf(c, a, i);
    ReferenceOf(c, b, j);
    TurnIsModulo(|c.buffer|, c.index, SentBefore(c, a, i));
    TurnIsModulo(|c.buffer|, c.index, SentBefore(c, b, j));
  }

  /** So the offset Zero() computes depends on how the loop batched the samples. */
  lemma {:induction false} ZeroDependsOnBatches() returns (c: Channel, a: seq<Tick>, b: seq<Tick>)
    ensures c.buffer != [] && Steady(c, a) && Steady(c, b) && AllActive(a) && AllActive(b) && a != [] && b != []
    ensures a[|a| - 1].time == b[|b| - 1].time && Play(c, a).1 == Play(c, b).1
    ensures Play(c, a).0.lastValue != Play(c, b).0.lastValue
  {
    c := Channel(0, 0, 1000, 1000, 0, [1.0, 2.0], 0, 0.0, 0.0);
    a, b := [Tick(1000, true), Tick(2000, true)], [Tick(2000, true)];
    assert SamplesSince(c, 1000) == 1 && SamplesSince(c, 2000) == 2;
    assert InRange(c, 1000) && InRange(c, 2000);
    SteadyIsStarted(c, a);
    SteadyIsStarted(c, b);
    assert Sends(c, a, 1) && Sends(c, b, 0);
    OneSent(c, a);
    NothingBefore(c, b);
    DifferentReferences(c, a, b);
    BatchingDoesNotMatter(c, a, b);
  }

  lemma DifferentReferences(c: Channel, a: seq<Tick>, b: seq<Tick>)
    requires c.buffer == [1.0, 2.0] && c.index == 0
    requires Steady(c, a) && Started(c.start, a) && |a| == 2 && Sends(c, a, 1) && SentBefore(c, a, 1) == 1
    requires Steady(c, b) && Started(c.start, b) && |b| == 1 && Sends(c, b, 0) && SentBefore(c, b, 0) == 0
    ensures Play(c, a).0.lastValue != Play(c, b).0.lastValue
  {
    hide Steady, Play, Sends, SentBefore;
    ZeroReferenceIff(c, a, b, 1, 0);
  }

  lemma OneSent(c: Channel, ticks: seq<Tick>)
    requires c.start == 0 && c.rate == 1000 && c.generated == 0 && ticks == [Tick(1000, true), Tick(2000, true)]
    ensures Started(c.start, ticks) && SentBefore(c, ticks, 1) == 1
  {
    assert ticks[..1] == [Tick(1000, true)] && ticks[..1][1..] == [];
    assert Due(0, 1000, Since(0, 1000, 1000), []) == [];
  }
}
