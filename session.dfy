// The statistics window of the signal plotter: four scrolling graphs fed
// from one interface each tick until the window is closed or a read fails.
// The wireless library is replaced by a finite feed of ticks; drawing and
// the pause between ticks are not modelled.

module Session {
  import Scroll

  const Width: nat := 300
  const Height: real := 101.0
  const QualityMax: real := 70.0
  const SignalMax: real := 256.0
  const BitrateMax: real := 54000000.0
  const NoiseMax: real := 256.0

  /** One successful statistics read. */
  datatype Stats = Stats(quality: int, siglevel: int, noiselevel: int, bitrate: int)

  /** What the library gives back: statistics, or an I/O error because the
      interface was lost. */
  datatype Read = Got(stats: Stats) | Lost

  /** One tick of the loop: the read, and whether the window was closed
      while the loop paused after it. */
  datatype Tick = Tick(read: Read, closed: bool)

  datatype Metric = Quality | SignalLevel | Bitrate | Noise

  function Value(s: Stats, m: Metric): (v: real)
  {
    match m
    case Quality => s.quality as real
    case SignalLevel => s.siglevel as real
    case Bitrate => s.bitrate as real
    case Noise => s.noiselevel as real
  }

  /** The values of one metric along a run of reads. */
  function Column(ss: seq<Stats>, m: Metric): (c: seq<real>)
  {
    seq(|ss|, i requires 0 <= i < |ss| => Value(ss[i], m))
  }

  /** The reads the loop consumes from `feed`: all of them up to the first
      failed read (excluded) or the first close (included). Reads past the
      end of the feed count as failed. */
  function Served(feed: seq<Tick>): (served: seq<Stats>)
    ensures |served| <= |feed|
    ensures |served| > 0 <==> |feed| > 0 && feed[0].read.Got?
  {
    if |feed| == 0 then []
    else match feed[0].read
      case Lost => []
      case Got(st) => if feed[0].closed then [st] else [st] + Served(feed[1..])
  }

  /** Served takes a prefix of the reads: each served read succeeded, no
      window close happened before the last one, and the loop stopped
      because the feed ran out, the next read failed, or the window was
      closed after the last served read. */
  lemma {:induction false} ServedSpec(feed: seq<Tick>)
    ensures |Served(feed)| <= |feed|
    ensures forall i :: 0 <= i < |Served(feed)| ==> feed[i].read == Got(Served(feed)[i])
    ensures forall i :: 0 <= i < |Served(feed)| - 1 ==> !feed[i].closed
    ensures var n := |Served(feed)|;
            n == |feed| || feed[n].read == Lost || (n > 0 && feed[n - 1].closed)
  {
    if |feed| > 0 && feed[0].read.Got? && !feed[0].closed {
      ServedSpec(feed[1..]);
    }
  }

  /** Serving the read at position i of the feed: it joins the reads done
      so far, and the loop goes on from i + 1 unless the window was closed. */
  lemma ServedNext(feed: seq<Tick>, i: nat, done: seq<Stats>)
    requires i < |feed| && feed[i].read.Got?
    requires Served(feed) == done + Served(feed[i..])
    ensures Served(feed) == (done + [feed[i].read.stats])
                            + if !feed[i].closed then Served(feed[i + 1..]) else []
  {
    var s := feed[i].read.stats;
    var rest := if !feed[i].closed then Served(feed[i + 1..]) else [];
    assert feed[i..][0] == feed[i] && feed[i..][1..] == feed[i + 1..];
    assert Served(feed[i..]) == [s] + rest;
    assert done + ([s] + rest) == (done + [s]) + rest;
  }

  class Window {
    const qualGraph: Scroll.Graph
    const siglevGraph: Scroll.Graph
    const bitrateGraph: Scroll.Graph
    const noiseGraph: Scroll.Graph
    var running: bool

    ghost predicate Valid()
      reads this, qualGraph, siglevGraph, bitrateGraph, noiseGraph
    {
      qualGraph != siglevGraph && qualGraph != bitrateGraph && qualGraph != noiseGraph &&
      siglevGraph != bitrateGraph && siglevGraph != noiseGraph &&
      bitrateGraph != noiseGraph &&
      qualGraph.Valid() && siglevGraph.Valid() && bitrateGraph.Valid() && noiseGraph.Valid() &&
      qualGraph.height == siglevGraph.height == bitrateGraph.height == noiseGraph.height == Height &&
      qualGraph.width == siglevGraph.width == bitrateGraph.width == noiseGraph.width == Width
    }

    /** A stopped window with one seeded graph per metric, each with its
        own ceiling and the shared width and height. */
    constructor ()
      ensures Valid() && !running
      ensures fresh(qualGraph) && fresh(siglevGraph) && fresh(bitrateGraph) && fresh(noiseGraph)
      ensures qualGraph.State() == Scroll.Seeded(Width, Height, QualityMax)
      ensures siglevGraph.State() == Scroll.Seeded(Width, Height, SignalMax)
      ensures bitrateGraph.State() == Scroll.Seeded(Width, Height, BitrateMax)
      ensures noiseGraph.State() == Scroll.Seeded(Width, Height, NoiseMax)
      ensures qualGraph.taken == siglevGraph.taken == bitrateGraph.taken == noiseGraph.taken == []
    {
      qualGraph := new Scroll.Graph(Width, Height, QualityMax);
      siglevGraph := new Scroll.Graph(Width, Height, SignalMax);
      bitrateGraph := new Scroll.Graph(Width, Height, BitrateMax);
      noiseGraph := new Scroll.Graph(Width, Height, NoiseMax);
      running := false;
    }

    /** The close handler: clears the flag the loop tests. */
    method Stop()
      modifies this`running
      ensures !running
    {
      running := false;
    }

    /** The body of one tick: quality, signal level, bitrate and noise go
        to their own graphs, once each and in that order. */
    method Record(stats: Stats)
      requires Valid()
      modifies qualGraph, siglevGraph, bitrateGraph, noiseGraph
      ensures Valid()
      ensures qualGraph.taken == old(qualGraph.taken) + [Value(stats, Quality)]
      ensures siglevGraph.taken == old(siglevGraph.taken) + [Value(stats, SignalLevel)]
      ensures bitrateGraph.taken == old(bitrateGraph.taken) + [Value(stats, Bitrate)]
      ensures noiseGraph.taken == old(noiseGraph.taken) + [Value(stats, Noise)]
    {
      qualGraph.Update(stats.quality as real);
      siglevGraph.Update(stats.siglevel as real);
      bitrateGraph.Update(stats.bitrate as real);
      noiseGraph.Update(stats.noiselevel as real);
    }

    /** Sets the flag, then for as long as it stays set and each read
        succeeds, feeds quality, signal level, bitrate and noise to their
        graphs. Ends with the flag cleared; each graph has then taken
        exactly its metric of every served read, in order. */
    method Start(feed: seq<Tick>)
      requires Valid()
      modifies this, qualGraph, siglevGraph, bitrateGraph, noiseGraph
      ensures Valid() && !running
      ensures qualGraph.taken == old(qualGraph.taken) + Column(Served(feed), Quality)
      ensures siglevGraph.taken == old(siglevGraph.taken) + Column(Served(feed), SignalLevel)
      ensures bitrateGraph.taken == old(bitrateGraph.taken) + Column(Served(feed), Bitrate)
      ensures noiseGraph.taken == old(noiseGraph.taken) + Column(Served(feed), Noise)
    {
      ghost var done: seq<Stats> := [];
      running := true;
      var i := 0;
      while running && i < |feed| && feed[i].read.Got?
        invariant Valid()
        invariant 0 <= i <= |feed|
        invariant Served(feed) == done + if running then Served(feed[i..]) else []
        invariant qualGraph.taken == old(qualGraph.taken) + Column(done, Quality)
        invariant siglevGraph.taken == old(siglevGraph.taken) + Column(done, SignalLevel)
        invariant bitrateGraph.taken == old(bitrateGraph.taken) + Column(done, Bitrate)
        invariant noiseGraph.taken == old(noiseGraph.taken) + Column(done, Noise)
        decreases |feed| - i
      {
        var stats := feed[i].read.stats;
        ServedNext(feed, i, done);
        Extend(old(qualGraph.taken), done, stats, Quality);
        Extend(old(siglevGraph.taken), done, stats, SignalLevel);
        Extend(old(bitrateGraph.taken), done, stats, Bitrate);
        Extend(old(noiseGraph.taken), done, stats, Noise);
        Record(stats);
        done := done + [stats];
        if feed[i].closed {
          Stop();
        }
        assert running == !feed[i].closed;
        i := i + 1;
      }
      if running {
        assert i == |feed| || feed[i..][0].read.Lost?;
      }
      assert Served(feed) == done;
      running := false;
    }
  }

  /** Reading one more tick adds its value at the end of a column, after
      whatever the graph had taken before the run. */
  lemma Extend(before: seq<real>, ss: seq<Stats>, s: Stats, m: Metric)
    ensures before + Column(ss + [s], m) == (before + Column(ss, m)) + [Value(s, m)]
  {
    assert Column(ss + [s], m) == Column(ss, m) + [Value(s, m)];
  }

  /** Five reads: the fourth brings quality above 70 and bitrate above
      54000000, the noise reading 256 only reaches its ceiling. */
  const FiveReads: seq<Stats> := [
    Stats(10, 50, 20, 1000000), Stats(20, 60, 25, 2000000), Stats(70, 100, 30, 5000000),
    Stats(71, 200, 256, 54000001), Stats(30, 80, 40, 3000000)]

  /** After the five reads, fresh graphs end with the quality ceiling at 71
      and the bitrate ceiling at 54000001; signal level and noise keep 256,
      since a value equal to the ceiling does not raise it. */
  lemma FiveReadsCeilings()
    ensures Scroll.Feed(Scroll.Seeded(Width, Height, QualityMax), Column(FiveReads, Quality), Height, Width).maxval == 71.0
    ensures Scroll.Feed(Scroll.Seeded(Width, Height, SignalMax), Column(FiveReads, SignalLevel), Height, Width).maxval == 256.0
    ensures Scroll.Feed(Scroll.Seeded(Width, Height, BitrateMax), Column(FiveReads, Bitrate), Height, Width).maxval == 54000001.0
    ensures Scroll.Feed(Scroll.Seeded(Width, Height, NoiseMax), Column(FiveReads, Noise), Height, Width).maxval == 256.0
  {
    assert Column(FiveReads, Quality) == [10.0, 20.0, 70.0, 71.0, 30.0];
    assert Column(FiveReads, SignalLevel) == [50.0, 60.0, 100.0, 200.0, 80.0];
    assert Column(FiveReads, Bitrate) == [1000000.0, 2000000.0, 5000000.0, 54000001.0, 3000000.0];
    assert Column(FiveReads, Noise) == [20.0, 25.0, 30.0, 256.0, 40.0];
    Scroll.FeedCeiling(Scroll.Seeded(Width, Height, QualityMax), Column(FiveReads, Quality), Height, Width);
    Scroll.FeedCeiling(Scroll.Seeded(Width, Height, SignalMax), Column(FiveReads, SignalLevel), Height, Width);
    Scroll.FeedCeiling(Scroll.Seeded(Width, Height, BitrateMax), Column(FiveReads, Bitrate), Height, Width);
    Scroll.FeedCeiling(Scroll.Seeded(Width, Height, NoiseMax), Column(FiveReads, Noise), Height, Width);
  }
}
