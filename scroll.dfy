// The scrolling history behind each curve of the signal plotter: a list of
// exactly `width` display values, seeded with a full-height marker, that
// takes one rescaled sample per update and drops its oldest entry.

module Scroll {
  import Units

  /** Scales a raw level into display space: `height` stands for
      `signalMax`, so the result is to `height` as `signal` is to
      `signalMax`. */
  function LevelToHeight(signal: real, signalMax: real, height: real): (r: real)
    requires signalMax != 0.0
    ensures r * signalMax == height * signal
  {
    (height / signalMax) * signal
  }

  /** A level at its maximum is drawn at full height. */
  lemma LevelToHeightFull(signalMax: real, height: real)
    requires signalMax != 0.0
    ensures LevelToHeight(signalMax, signalMax, height) == height
  {
  }

  /** What an update can observe and change: the ceiling and the list. */
  datatype Snapshot = Snapshot(maxval: real, results: seq<real>)

  /** The list a new graph starts from: width - 1 zeros, then one entry at
      full height. */
  function Seeded(width: nat, height: real, maxval: real): (s: Snapshot)
  {
    Snapshot(maxval, seq(width, i => if i == width - 1 then height else 0.0))
  }

  /** Every entry of `s` pushed through LevelToHeight against `newMax`. */
  function Rescaled(s: seq<real>, newMax: real, height: real): (r: seq<real>)
    requires newMax != 0.0
  {
    seq(|s|, i requires 0 <= i < |s| => LevelToHeight(s[i], newMax, height))
  }

  /** One update: raise the ceiling and rescale the kept entries when the
      value is strictly above it, append the value scaled against the
      (possibly new) ceiling, then keep only the last `width` entries. The
      new ceiling is the larger of the old one and the value, and a full
      list stays full. */
  function Step(g: Snapshot, value: real, height: real, width: nat): (r: Snapshot)
    requires g.maxval > 0.0
    ensures r.maxval > 0.0
    ensures r.maxval >= g.maxval && r.maxval >= value
    ensures r.maxval == g.maxval || r.maxval == value
    ensures |g.results| == width ==> |r.results| == width
  {
    var raised := value > g.maxval;
    var maxval := if raised then value else g.maxval;
    var kept := if raised then Rescaled(g.results, maxval, height) else g.results;
    var appended := kept + [LevelToHeight(value, maxval, height)];
    Snapshot(maxval, if |appended| > width then appended[|appended| - width..] else appended)
  }

  /** Step on a full list, spelled out: the kept entries (rescaled or
      not), the scaled value appended, the first entry dropped. */
  lemma StepAppends(g: Snapshot, value: real, height: real, width: nat, kept: seq<real>)
    requires g.maxval > 0.0 && |g.results| == width > 0
    requires kept == if value > g.maxval then Rescaled(g.results, value, height) else g.results
    ensures var m := if value > g.maxval then value else g.maxval;
            Step(g, value, height, width) == Snapshot(m, (kept + [LevelToHeight(value, m, height)])[1..])
  {
  }

  /** A value at or below the ceiling (equal included) leaves the ceiling
      and every kept entry alone: the list moves one place left and the
      value, scaled, comes in last. */
  lemma StepWithinCeiling(g: Snapshot, value: real, height: real, width: nat)
    requires g.maxval > 0.0 && |g.results| == width > 0 && value <= g.maxval
    ensures Step(g, value, height, width)
         == Snapshot(g.maxval, g.results[1..] + [LevelToHeight(value, g.maxval, height)])
  {
  }

  /** A value above the ceiling becomes the ceiling; every kept entry is
      multiplied by height / value (already scaled entries are scaled once
      more, not by old ceiling / value), and the new last entry is exactly
      `height`. */
  lemma StepRaise(g: Snapshot, value: real, height: real, width: nat)
    requires g.maxval > 0.0 && |g.results| == width > 0 && value > g.maxval
    ensures Step(g, value, height, width).maxval == value
    ensures Step(g, value, height, width).results[width - 1] == height
    ensures forall i :: 0 <= i < width - 1 ==>
              Step(g, value, height, width).results[i] == g.results[i + 1] * (height / value)
  {
    LevelToHeightFull(value, height);
  }

  /** A run of updates, oldest value first: the state after the last
      value is one Step from the state after the others. */
  function Feed(g: Snapshot, values: seq<real>, height: real, width: nat): (r: Snapshot)
    requires g.maxval > 0.0
    ensures r.maxval > 0.0
    ensures |g.results| == width ==> |r.results| == width
    decreases |values|
  {
    if |values| == 0 then g
    else Step(Feed(g, values[..|values| - 1], height, width), values[|values| - 1], height, width)
  }

  /** Feeding one more value is one more Step. */
  lemma FeedSnoc(g: Snapshot, values: seq<real>, v: real, height: real, width: nat)
    requires g.maxval > 0.0
    ensures Feed(g, values + [v], height, width)
         == Step(Feed(g, values, height, width), v, height, width)
  {
    assert (values + [v])[..|values|] == values;
  }

  /** After a run of updates the ceiling is the largest of the starting
      ceiling and the values fed: it never goes down, and it only ever
      takes a value that was fed. */
  lemma {:induction false} FeedCeiling(g: Snapshot, values: seq<real>, height: real, width: nat)
    requires g.maxval > 0.0
    ensures Feed(g, values, height, width).maxval >= g.maxval
    ensures forall i :: 0 <= i < |values| ==> Feed(g, values, height, width).maxval >= values[i]
    ensures Feed(g, values, height, width).maxval == g.maxval
         || Feed(g, values, height, width).maxval in values
    decreases |values|
  {
    if |values| > 0 {
      var n := |values| - 1;
      var init := values[..n];
      var prev := Feed(g, init, height, width);
      var r := Step(prev, values[n], height, width);
      assert Feed(g, values, height, width) == r;
      FeedCeiling(g, init, height, width);
      forall i | 0 <= i < |values|
        ensures r.maxval >= values[i]
      {
        if i < n {
          assert values[i] == init[i];
        }
      }
      if r.maxval != g.maxval {
        if r.maxval == prev.maxval {
          assert r.maxval in init;
        } else {
          assert r.maxval == values[n];
        }
      }
    }
  }

  /** While no value exceeds the ceiling, the list is a plain FIFO window:
      entry k after n updates is entry k + n of the old list followed by
      the scaled new values. */
  lemma {:induction false} FeedWithinCeiling(g: Snapshot, values: seq<real>, height: real, width: nat)
    requires g.maxval > 0.0 && width > 0 && |g.results| == width
    requires forall i :: 0 <= i < |values| ==> values[i] <= g.maxval
    ensures Feed(g, values, height, width)
         == Snapshot(g.maxval, (g.results + Rescaled(values, g.maxval, height))[|values|..])
    decreases |values|
  {
    if |values| > 0 {
      var n := |values| - 1;
      var init := values[..n];
      FeedWithinCeiling(g, init, height, width);
      var prev := Feed(g, init, height, width);
      StepWithinCeiling(prev, values[n], height, width);
      var all := Rescaled(values, g.maxval, height);
      assert Rescaled(init, g.maxval, height) == all[..n];
      ShiftWindow(g.results, all, n);
    }
  }

  /** Sliding the window over `a` followed by `all` by one more place. */
  lemma ShiftWindow(a: seq<real>, all: seq<real>, n: nat)
    requires |a| > 0 && n + 1 == |all|
    ensures (a + all[..n])[n..][1..] + [all[n]] == (a + all)[n + 1..]
  {
  }

  /** The rescale on a raised ceiling maps a display value d to
      d * height / newMax. That equals the proportional d * oldMax / newMax
      exactly when the display height equals the old ceiling. */
  lemma RescaleIsProportionalIff(d: real, oldMax: real, newMax: real, height: real)
    requires d != 0.0 && newMax != 0.0
    ensures LevelToHeight(d, newMax, height) == d * (oldMax / newMax) <==> height == oldMax
  {
    calc {
      LevelToHeight(d, newMax, height) == d * (oldMax / newMax);
    <==> { assert LevelToHeight(d, newMax, height) == d * (height / newMax); }
      d * (height / newMax) == d * (oldMax / newMax);
    <==>
      height / newMax == oldMax / newMax;
    <==>
      height == oldMax;
    }
  }

  /** The curve of one metric. `results` always holds `width` entries and
      is, at every moment, the seeded state fed with every value taken so
      far. */
  class Graph {
    const width: nat
    const height: real
    var maxval: real
    var results: seq<real>
    ghost const seed: Snapshot
    ghost var taken: seq<real>

    ghost predicate Valid()
      reads this
    {
      width > 0 && maxval > 0.0 && |results| == width && seed.maxval > 0.0 &&
      State() == Feed(seed, taken, height, width)
    }

    function State(): (s: Snapshot)
      reads this
    {
      Snapshot(maxval, results)
    }

    /** A graph seeded from mklist(width - 1) plus one entry at `height`. */
    constructor (width: nat, height: real, maxval: real)
      requires width > 0 && maxval > 0.0
      ensures Valid() && this.width == width && this.height == height
      ensures State() == seed == Seeded(width, height, maxval) && taken == []
    {
      this.width := width;
      this.height := height;
      var zeros := Units.MkList(width - 1);
      results := seq(|zeros|, i requires 0 <= i < |zeros| => zeros[i] as real) + [height];
      this.maxval := maxval;
      seed := Seeded(width, height, maxval);
      taken := [];
    }

    /** Takes one sample: rescale in place if it raises the ceiling, append
        it scaled, evict from the front until `width` entries remain. */
    method Update(value: real)
      requires Valid()
      modifies this
      ensures Valid()
      ensures State() == Step(old(State()), value, height, width)
      ensures taken == old(taken) + [value]
    {
      ghost var before := State();
      FeedSnoc(seed, taken, value, height, width);
      if value > maxval {
        Raise(value);
      }
      ghost var kept := results;
      results := results + [LevelToHeight(value, maxval, height)];
      Evict();
      StepAppends(before, value, height, width, kept);
      taken := taken + [value];
    }

    /** The first half of an update above the ceiling: the value becomes
        the ceiling and every entry is rescaled in place against it. */
    method Raise(value: real)
      requires value > 0.0
      modifies this`maxval, this`results
      ensures maxval == value
      ensures results == Rescaled(old(results), value, height)
    {
      maxval := value;
      var index := 0;
      while index < |results|
        invariant maxval == value
        invariant 0 <= index <= |results| == |old(results)|
        invariant forall j :: 0 <= j < index ==>
                    results[j] == LevelToHeight(old(results)[j], maxval, height)
        invariant forall j :: index <= j < |results| ==> results[j] == old(results)[j]
      {
        results := results[index := LevelToHeight(results[index], maxval, height)];
        index := index + 1;
      }
    }

    /** The last step of an update: drop the oldest entry while there are
        more than `width`, which leaves the last `width` entries. */
    method Evict()
      modifies this`results
      ensures results == if |old(results)| > width then old(results)[|old(results)| - width..]
                         else old(results)
    {
      ghost var dropped := 0;
      while |results| > width
        invariant 0 <= dropped <= |old(results)|
        invariant results == old(results)[dropped..]
        invariant dropped > 0 ==> |results| >= width
        decreases |results|
      {
        results := results[1..];
        dropped := dropped + 1;
      }
    }
  }
}
