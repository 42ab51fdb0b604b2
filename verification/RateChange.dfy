/** What happens to a playback channel when its sample rate changes while its sample counter goes on. */
module RateChange {
  import opened Playback
  import opened PlaybackStream

  /** The channel after a new source: the counter is what it was, the rate is the new one. */
  predicate Switched(c: Channel, d: Channel) {
    d.start == c.start && d.epoch == c.epoch && d.generated == c.generated && InBounds(d)
  }

  /** A collection finds fewer samples due than were generated. */
  predicate Wraps(c: Channel, time: int)
    requires c.start <= time
  {
    NewSamples(c, time) != SamplesSince(c, time) - c.generated
  }

  lemma NotWrapped(generated: nat, due: nat)
    requires generated < WRAP && due < WRAP
    ensures generated <= due ==> (due - generated) % WRAP == due - generated
    ensures generated > due ==> (due - generated) % WRAP == WRAP - (generated - due)
  {
  }

  lemma WrapsIff(c: Channel, time: int)
    requires c.start <= time && SamplesSince(c, time) < WRAP && c.generated < WRAP
    ensures Wraps(c, time) <==> SamplesSince(c, time) < c.generated
  {
    NotWrapped(c.generated, SamplesSince(c, time));
  }

  lemma MoreOftenMore(start: int, slow: nat, fast: nat, time: int)
    requires start <= time && slow <= fast
    ensures Since(start, slow, time) <= Since(start, fast, time)
  {
    Times(slow, fast, time - start);
    Quotients((time - start) * slow, (time - start) * fast);
  }

  /** A channel that was last collected at one moment goes on with another rate from a later one. The next
      collection, whenever it happens, does not wrap round if and only if, at the moment of the change, the
      new rate has as many samples due as the old one had at the last collection. */
  lemma {:induction false} NoWrapIff(c: Channel, d: Channel, collected: int, changed: int)
    requires c.start <= collected <= changed && c.generated == SamplesSince(c, collected) < WRAP && Switched(c, d)
    requires SamplesSince(d, changed) < WRAP
    ensures (forall time :: changed <= time && SamplesSince(d, time) < WRAP ==> !Wraps(d, time))
       <==> Since(c.start, d.rate, changed) >= Since(c.start, c.rate, collected)
  {
    WrapsIff(d, changed);
    if SamplesSince(d, changed) >= d.generated {
      forall time | changed <= time && SamplesSince(d, time) < WRAP ensures !Wraps(d, time) {
        WrapsIff(d, time);
        SinceGrows(d, changed, time);
      }
    } else {
      assert Wraps(d, changed);
    }
  }

  /** A rate that is not lower never wraps. */
  lemma {:induction false} HigherRateIsSafe(c: Channel, d: Channel, collected: int, time: int)
    requires c.start <= collected <= time && c.generated == SamplesSince(c, collected) && Switched(c, d)
    requires c.rate <= d.rate && SamplesSince(d, time) < WRAP
    ensures !Wraps(d, time)
  {
    MoreOftenMore(c.start, c.rate, d.rate, collected);
    SinceGrows(d, collected, time);
    WrapsIff(d, time);
  }

  lemma AtLeastOne(a: nat, b: nat)
    requires a + MICROSECONDS <= b
    ensures a / MICROSECONDS < b / MICROSECONDS
  {
  }

  /** A collection wraps if and only if samples are missing that the old rate had given by the last
      collection, and then sends a packet of 2^64 - k values, where k samples are missing. One is missing as
      soon as the rates times the elapsed times are a second of samples apart. */
  lemma {:induction false} LowerRateWraps(c: Channel, d: Channel, collected: int, time: int)
    requires c.start <= collected <= time && c.generated == SamplesSince(c, collected) < WRAP && Switched(c, d)
    requires SamplesSince(d, time) < WRAP
    ensures var k := Since(c.start, c.rate, collected) - Since(c.start, d.rate, time);
            && ((time - c.start) * d.rate + MICROSECONDS <= (collected - c.start) * c.rate ==> k > 0)
            && (k > 0 <==> Wraps(d, time))
            && (k > 0 ==> NewSamples(d, time) == WRAP - k)
            && (k > 0 && d.buffer != [] ==>
                  Collect(d, time, true).1
                  == [Packet(ToInt64(d.generated * d.deltaT + d.epoch), d.deltaT, Circle(d, WRAP - k))])
  {
    hide ToInt64, Circle;
    if (time - c.start) * d.rate + MICROSECONDS <= (collected - c.start) * c.rate {
      AtLeastOne((time - c.start) * d.rate, (collected - c.start) * c.rate);
    }
    NotWrapped(d.generated, SamplesSince(d, time));
    WrapsIff(d, time);
  }

  /** A file whose tick resolution is 1/100000 played after values with microsecond ticks, both with a
      deltaT of 1000: the rate drops from 1000 to 100. One second after the start 1000 samples were sent, and
      two seconds later still 700 are missing. */
  lemma {:induction false} SlowerFileWraps(c: Channel, d: Channel)
    requires c.rate == RateOf(1, 1_000_000, 1000) && d.rate == RateOf(1, 100_000, 1000)
    requires c.generated == SamplesSince(c, c.start + 1_000_000) && Switched(c, d)
    ensures c.rate == 1000 && d.rate == 100
    ensures NewSamples(d, d.start + 1_000_000) == WRAP - 900 && NewSamples(d, d.start + 3_000_000) == WRAP - 700
  {
    assert c.rate == 1000 && d.rate == 100;
    assert SamplesSince(c, c.start + 1_000_000) == 1000;
    assert SamplesSince(d, d.start + 1_000_000) == 100 && SamplesSince(d, d.start + 3_000_000) == 300;
    NotWrapped(1000, 100);
    NotWrapped(1000, 300);
  }
}
