/** The 64-sample averager of `adcProc` (wilo.c:618-665): each completed
    conversion adds its 10-bit result to the channel's 16-bit accumulator,
    and the 64th sample publishes the accumulator divided by 64. */
module Averager {
  import opened Word

  /** Samples averaged per published value (`0x40`). */
  const SAMPLES := 64
  /** Largest 10-bit conversion result. */
  const MAX_SAMPLE := 1023

  /** `AD.ADDRx >> 6`: the 10-bit result, left-aligned in the 16-bit data register. */
  function Sample(addr: u16): (s: int)
    ensures 0 <= s <= MAX_SAMPLE
    ensures 64 * s <= addr < 64 * s + 64
  {
    addr / 64
  }

  function Sum(s: seq<int>): int
    decreases |s|
  {
    if s == [] then 0 else Sum(s[..|s| - 1]) + s[|s| - 1]
  }

  predicate AllSamples(s: seq<int>)
  {
    forall k :: 0 <= k < |s| ==> 0 <= s[k] <= MAX_SAMPLE
  }

  /** A sum of 10-bit samples is at most 1023 per sample, so 64 of them
      (65472) never overflow the 16-bit accumulator. */
  lemma {:induction false} SumBound(s: seq<int>)
    requires AllSamples(s)
    ensures 0 <= Sum(s) <= MAX_SAMPLE * |s|
    decreases |s|
  {
    if s != [] {
      var init := s[..|s| - 1];
      assert AllSamples(init) by {
        forall k | 0 <= k < |init|
          ensures 0 <= init[k] <= MAX_SAMPLE
        {
          assert init[k] == s[k];
        }
      }
      SumBound(init);
    }
  }

  /** Appending one sample adds it to the sum. */
  lemma SumSnoc(s: seq<int>, x: int)
    ensures Sum(s + [x]) == Sum(s) + x
  {
    assert (s + [x])[..|s|] == s;
  }

  /** The published value `adcVal >> 6` of a full window is the mean of its
      samples rounded down, and is itself a 10-bit value. */
  lemma MeanOfWindow(s: seq<int>)
    requires |s| == SAMPLES && AllSamples(s)
    ensures Sum(s) < 0x1_0000
    ensures 0 <= Sum(s) / SAMPLES <= MAX_SAMPLE
    ensures SAMPLES * (Sum(s) / SAMPLES) <= Sum(s) < SAMPLES * (Sum(s) / SAMPLES + 1)
  {
    SumBound(s);
  }

  /** The conversion channel that follows a completed window: temperature
      (AN3) is followed by current (AN4), current by voltage (AN6), voltage
      by temperature; anything else restarts at AN3. */
  function NextChannel(chan: int): (next: int)
    ensures next in {3, 4, 6}
  {
    if chan == 3 then 4 else if chan == 4 then 6 else 3
  }

  /** One sample `s` fed into the window `w0` of channel `chan`, whose last
      published value is `v0`: the window grows by `s`, or, when that completes it,
      the published value `v` becomes the mean of the completed window, the
      window restarts empty and the next channel is selected. */
  predicate Fed(w0: seq<int>, w: seq<int>, s: int, v0: int, v: int, chan: int, next: int)
  {
    if |w0| + 1 == SAMPLES then v == Sum(w0 + [s]) / SAMPLES && w == [] && next == NextChannel(chan)
    else w == w0 + [s] && v == v0 && next == chan
  }

  /** The channel converted after `n` completed windows starting at `chan`. */
  function ChannelAfter(chan: int, n: nat): int
  {
    if n == 0 then chan else NextChannel(ChannelAfter(chan, n - 1))
  }

  /** Three more windows bring the channel back to where it was. */
  lemma {:induction false} ChannelAfterThree(chan: int, n: nat)
    requires chan in {3, 4, 6}
    ensures ChannelAfter(chan, n + 3) == ChannelAfter(chan, n)
  {
    if n > 0 {
      ChannelAfterThree(chan, n - 1);
    }
  }

  /** The conversions cycle through AN3, AN4 and AN6 with period three:
      starting from one of them, the channel is back at the start after `n`
      windows exactly when `n` is a multiple of three. */
  lemma {:induction false} ChannelCycle(chan: int, n: nat)
    requires chan in {3, 4, 6}
    ensures ChannelAfter(chan, n) in {3, 4, 6}
    ensures ChannelAfter(chan, n) == chan <==> n % 3 == 0
    decreases n
  {
    if n >= 3 {
      ChannelAfterThree(chan, n - 3);
      ChannelCycle(chan, n - 3);
    } else if n == 2 {
      assert ChannelAfter(chan, 2) == NextChannel(NextChannel(chan));
    } else if n == 1 {
      assert ChannelAfter(chan, 1) == NextChannel(chan);
    }
  }
}
