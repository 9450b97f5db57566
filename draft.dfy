// The older single-file plotter: one curve of raw signal levels on a fixed
// scale, with no ceiling and no rescaling. The list is seeded like the
// graphs of the window and takes every sample read, newest last.

module Draft {
  import Units

  const Width: nat := 300
  const Height: int := 256

  /** The seeded list: width - 1 zeros, then one entry at full height. */
  function Seed(): (s: seq<int>)
  {
    seq(Width, i => if i == Width - 1 then Height else 0)
  }

  /** The whole stream the loop has seen after `samples`: the seed, then
      the samples in the order they were read. */
  function Stream(samples: seq<int>): (stream: seq<int>)
  {
    Seed() + samples
  }

  /** The plotting loop over a finite run of readings: each reading is
      appended, and the oldest entry goes as soon as the list reaches the
      scale's length. The list always holds the last `Width` entries of the
      stream. */
  method Run(samples: seq<int>) returns (results: seq<int>)
    ensures |results| == Width
    ensures results == Stream(samples)[|samples|..]
  {
    var zeros := Units.MkList(Width - 1);
    results := zeros + [Height];
    assert results == Seed();
    var n := 0;
    while n < |samples|
      invariant 0 <= n <= |samples|
      invariant results == Stream(samples[..n])[n..]
    {
      ghost var before := results;
      results := results + [samples[n]];
      if |results| >= Width {
        results := results[1..];
      }
      StreamSnoc(samples, n, before);
      n := n + 1;
    }
    assert samples[..n] == samples;
  }

  /** One more reading moves the window of the stream one place on. */
  lemma StreamSnoc(samples: seq<int>, n: nat, before: seq<int>)
    requires n < |samples| && before == Stream(samples[..n])[n..]
    ensures |before| == Width
    ensures (before + [samples[n]])[1..] == Stream(samples[..n + 1])[n + 1..]
  {
    assert samples[..n + 1] == samples[..n] + [samples[n]];
    assert Stream(samples[..n + 1]) == Stream(samples[..n]) + [samples[n]];
  }

  /** Entry k of the list after a run of readings: a seed entry while
      the run is shorter than the distance to the end, the reading
      k + |samples| - Width otherwise; in particular the last entry is the
      last reading. */
  lemma RunEntries(samples: seq<int>, k: nat)
    requires k < Width
    ensures var s := Stream(samples)[|samples|..];
            s[k] == if k + |samples| < Width then Seed()[k + |samples|]
                    else samples[k + |samples| - Width]
    ensures |samples| > 0 ==> Stream(samples)[|samples|..][Width - 1] == samples[|samples| - 1]
  {
  }
}
