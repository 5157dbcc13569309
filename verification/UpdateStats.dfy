/** The counts-per-second statistics of the cache and the drift of their moving sum. */
module UpdateStats {

  const HISTORY_LENGTH := 50

  function Sum(s: seq<real>): real {
    if s == [] then 0.0 else Sum(s[..|s| - 1]) + s[|s| - 1]
  }

  /** The last samples, as many as are kept. */
  function Window(samples: seq<real>): seq<real> {
    if |samples| <= HISTORY_LENGTH then samples else samples[|samples| - HISTORY_LENGTH..]
  }

  lemma {:induction false} SumFront(s: seq<real>)
    requires s != []
    ensures Sum(s) == s[0] + Sum(s[1..])
  {
    if |s| > 1 {
      SumFront(s[..|s| - 1]);
      assert s[1..][..|s| - 2] == s[..|s| - 1][1..];
    }
  }

  /** What the code accumulates: each sample goes in; once the window is full, the oldest
      sample left in the window goes out instead of the one that was dropped. */
  function Accumulated(samples: seq<real>): real {
    if samples == [] then 0.0
    else
      Accumulated(samples[..|samples| - 1]) + samples[|samples| - 1]
      - if |samples| > HISTORY_LENGTH then Window(samples)[0] else 0.0
  }

  /** After any number of samples the accumulator is the window's sum plus the first sample
      ever minus the oldest one in the window. */
  lemma {:induction false} DriftLaw(samples: seq<real>)
    requires samples != []
    ensures Accumulated(samples) == Sum(Window(samples)) + samples[0] - Window(samples)[0]
  {
    var front, last := samples[..|samples| - 1], samples[|samples| - 1];
    if front != [] {
      DriftLaw(front);
      if |samples| > HISTORY_LENGTH {
        SumFront(Window(front));
        assert Window(samples) == Window(front)[1..] + [last];
        assert Window(samples)[..HISTORY_LENGTH - 1] == Window(front)[1..];
      }
    }
  }

  /** The error never exceeds the spread of the samples, and it vanishes exactly when the
      first sample ever equals the oldest one kept. */
  lemma DriftIsBounded(samples: seq<real>, low: real, high: real)
    requires samples != [] && forall x :: x in samples ==> low <= x <= high
    ensures -(high - low) <= Accumulated(samples) - Sum(Window(samples)) <= high - low
    ensures Accumulated(samples) == Sum(Window(samples)) <==> samples[0] == Window(samples)[0]
  {
    DriftLaw(samples);
    assert samples[0] in samples && Window(samples)[0] in samples;
  }

  class UpdateStats {
    var counts: nat
    const minSample: nat
    var countsPerSecond: real
    var countsPerSecondHistory: seq<real>
    var countsPerSecondMovingAcumm: real
    ghost var samples: seq<real>

    ghost predicate Valid()
      reads this
    {
      countsPerSecondHistory == Window(samples) && countsPerSecondMovingAcumm == Accumulated(samples)
    }

    constructor (minSample: nat)
      ensures Valid() && samples == [] && counts == 0 && this.minSample == minSample
    {
      counts, countsPerSecond, countsPerSecondHistory, countsPerSecondMovingAcumm := 0, 0.0, [], 0.0;
      this.minSample := minSample;
      samples := [];
    }

    /** Counts one message; every `minSample`-th one closes a sample, whose rate is given. */
    method CountMessage(rate: real)
      requires Valid()
      modifies this
      ensures Valid()
      ensures samples == if old(counts) + 1 == minSample then old(samples) + [rate] else old(samples)
      ensures counts == if old(counts) + 1 == minSample then 0 else old(counts) + 1
      ensures countsPerSecond == if old(counts) + 1 == minSample then rate else old(countsPerSecond)
      ensures countsPerSecondHistory == if |samples| <= 50 then samples else samples[|samples| - 50..]
    {
      counts := counts + 1;
      if counts == minSample {
        countsPerSecond := rate;
        countsPerSecondHistory := countsPerSecondHistory + [rate];
        countsPerSecondMovingAcumm := countsPerSecondMovingAcumm + rate;
        if |countsPerSecondHistory| > HISTORY_LENGTH {
          countsPerSecondHistory := countsPerSecondHistory[1..];
          countsPerSecondMovingAcumm := countsPerSecondMovingAcumm - countsPerSecondHistory[0];
        }
        counts := 0;
        assert (samples + [rate])[..|samples|] == samples;
        samples := samples + [rate];
      }
    }

    /** getHistoricalCountRateAverage for one counter. */
    method Average(minHistory: nat) returns (average: real)
      requires Valid() && minHistory > 0
      ensures |Window(samples)| < minHistory ==> average == 0.0
      ensures |Window(samples)| >= minHistory ==>
        average == (Sum(Window(samples)) + samples[0] - Window(samples)[0]) / |Window(samples)| as real
    {
      average := 0.0;
      if |countsPerSecondHistory| >= minHistory {
        DriftLaw(samples);
        average := countsPerSecondMovingAcumm / |countsPerSecondHistory| as real;
      }
    }
  }
}
