// The channel overlap view: one line per access point over sixteen channel
// slots, each a bar at the access point's channel with a bar ten below it
// on either side. The wireless scan, the frequency formatting and the
// plotting library are not modelled: an access point is its name, its
// already formatted frequency and its signal level.

module Overlap {
  import Units

  const Width: nat := 16

  datatype AccessPoint = AccessPoint(essid: string, frequency: string, signal: int)

  /** What one access point leaves on the plot: its bar profile over the
      slots, and whether its name was written above the peak. */
  datatype Line = Line(essid: string, profile: seq<int>, labelled: bool)

  /** A finished plot, or the position of the first access point whose
      frequency is not in the interface's channel list (the lookup raises
      and nothing after it is drawn). */
  datatype Outcome = Plotted(lines: seq<Line>) | FrequencyMissing(at: nat)

  /** Position of the first occurrence of `x` in `s`, as a list lookup
      reports it. */
  function IndexOf(s: seq<string>, x: string): (k: nat)
    requires x in s
    ensures k < |s| && s[k] == x
    ensures forall j :: 0 <= j < k ==> s[j] != x
  {
    if s[0] == x then 0 else 1 + IndexOf(s[1..], x)
  }

  /** Channels are numbered from 1 in the order of the channel list. */
  function Channel(ap: AccessPoint, frequencies: seq<string>): (channel: nat)
    requires ap.frequency in frequencies
    ensures 1 <= channel <= |frequencies|
    ensures frequencies[channel - 1] == ap.frequency
    ensures forall j :: 0 <= j < channel - 1 ==> frequencies[j] != ap.frequency
  {
    IndexOf(frequencies, ap.frequency) + 1
  }

  /** The intended shape at one slot: the signal at the channel, ten less
      on each neighbour, zero elsewhere. */
  function Tent(channel: int, signal: int, slot: int): (height: int)
  {
    if slot == channel then signal
    else if slot == channel - 1 || slot == channel + 1 then signal - 10
    else 0
  }

  /** The tent cut to the slots that exist. */
  function Profile(channel: int, signal: int): (p: seq<int>)
  {
    seq(Width, slot => Tent(channel, signal, slot))
  }

  /** The three writes of one access point, left neighbour first; the
      first write past the last slot raises, which skips the remaining
      writes and the label, and the zeroed list is drawn as it stands.
      The outcome is the tent clipped to the slots, labelled exactly when
      the right neighbour still fits. */
  method BarProfile(channel: int, signal: int) returns (profile: seq<int>, labelled: bool)
    requires channel >= 1
    ensures profile == Profile(channel, signal)
    ensures labelled <==> channel + 1 < Width
  {
    profile := Units.MkList(Width);
    labelled := false;
    if channel - 1 < |profile| {
      profile := profile[channel - 1 := signal - 10];
      if channel < |profile| {
        profile := profile[channel := signal];
        if channel + 1 < |profile| {
          profile := profile[channel + 1 := signal - 10];
          labelled := true;
        }
      }
    }
  }

  /** The line an access point gets, as a function of its inputs. */
  function LineFor(ap: AccessPoint, frequencies: seq<string>): (line: Line)
    requires ap.frequency in frequencies
  {
    var channel := Channel(ap, frequencies);
    Line(ap.essid, Profile(channel, ap.signal), channel + 1 < Width)
  }

  /** The overlap graph over a scan: every access point, in order, gets a
      line, whether or not its bars fit; the first one whose frequency is
      not a known channel stops the graph. */
  method Plot(aps: seq<AccessPoint>, frequencies: seq<string>) returns (outcome: Outcome)
    ensures outcome.Plotted? <==> forall k :: 0 <= k < |aps| ==> aps[k].frequency in frequencies
    ensures outcome.Plotted? ==>
              |outcome.lines| == |aps| &&
              forall k :: 0 <= k < |aps| ==> outcome.lines[k] == LineFor(aps[k], frequencies)
    ensures outcome.FrequencyMissing? ==>
              outcome.at < |aps| && aps[outcome.at].frequency !in frequencies &&
              forall k :: 0 <= k < outcome.at ==> aps[k].frequency in frequencies
  {
    var lines: seq<Line> := [];
    var k := 0;
    while k < |aps|
      invariant 0 <= k <= |aps| && |lines| == k
      invariant forall j :: 0 <= j < k ==> aps[j].frequency in frequencies
      invariant forall j :: 0 <= j < k ==> lines[j] == LineFor(aps[j], frequencies)
    {
      var ap := aps[k];
      if ap.frequency !in frequencies {
        return FrequencyMissing(k);
      }
      var channel := IndexOf(frequencies, ap.frequency) + 1;
      var profile, labelled := BarProfile(channel, ap.signal);
      lines := lines + [Line(ap.essid, profile, labelled)];
      k := k + 1;
    }
    outcome := Plotted(lines);
  }

  /** On a channel past 14 the handler only warns: the line is still drawn,
      with the bars that were written before the failing one, and without
      a label. Channel 15 keeps two bars and channel 16 one. */
  lemma PartialLines(ap: AccessPoint, frequencies: seq<string>)
    requires ap.frequency in frequencies && Channel(ap, frequencies) in {15, 16}
    ensures var line := LineFor(ap, frequencies);
            !line.labelled && line.profile[Channel(ap, frequencies) - 1] == ap.signal - 10
    ensures Channel(ap, frequencies) == 15 ==> LineFor(ap, frequencies).profile[15] == ap.signal
  {
  }

  /** The access points whose tent fits the slots, as lines, in order. */
  function InBand(aps: seq<AccessPoint>, frequencies: seq<string>): (lines: seq<Line>)
    requires forall k :: 0 <= k < |aps| ==> aps[k].frequency in frequencies
    ensures |lines| <= |aps|
    ensures forall line :: line in lines ==> line.labelled
  {
    if |aps| == 0 then []
    else
      var n := |aps| - 1;
      var line := LineFor(aps[n], frequencies);
      InBand(aps[..n], frequencies) + if line.labelled then [line] else []
  }

  /** An access point whose right neighbour still fits gets its full tent:
      signal - 10, signal and signal - 10 at its channel and the slots on
      either side, and a label. */
  lemma LineForTent(ap: AccessPoint, frequencies: seq<string>)
    requires ap.frequency in frequencies && Channel(ap, frequencies) + 1 < Width
    ensures var c, line := Channel(ap, frequencies), LineFor(ap, frequencies);
            line.labelled && |line.profile| == Width &&
            line.profile[c - 1] == ap.signal - 10 && line.profile[c] == ap.signal &&
            line.profile[c + 1] == ap.signal - 10
  {
  }

  /** Each line of InBand is the line of one of the access points whose
      tent fits; by LineForTent it is that access point's full tent. */
  lemma {:induction false} InBandSound(aps: seq<AccessPoint>, frequencies: seq<string>)
    requires forall k :: 0 <= k < |aps| ==> aps[k].frequency in frequencies
    ensures forall line :: line in InBand(aps, frequencies) ==>
              exists k :: 0 <= k < |aps| && Channel(aps[k], frequencies) + 1 < Width &&
                          line == LineFor(aps[k], frequencies)
    decreases |aps|
  {
    if |aps| > 0 {
      var n := |aps| - 1;
      var init := aps[..n];
      InBandSound(init, frequencies);
      forall line | line in InBand(aps, frequencies)
        ensures exists k :: 0 <= k < |aps| && Channel(aps[k], frequencies) + 1 < Width &&
                            line == LineFor(aps[k], frequencies)
      {
        if line in InBand(init, frequencies) {
          var k :| 0 <= k < |init| && Channel(init[k], frequencies) + 1 < Width &&
                   line == LineFor(init[k], frequencies);
          assert init[k] == aps[k];
        } else {
          assert Channel(aps[n], frequencies) + 1 < Width && line == LineFor(aps[n], frequencies);
        }
      }
    }
  }

  /** Every access point whose tent fits has its line in InBand. */
  lemma {:induction false} InBandComplete(aps: seq<AccessPoint>, frequencies: seq<string>)
    requires forall k :: 0 <= k < |aps| ==> aps[k].frequency in frequencies
    ensures forall k :: 0 <= k < |aps| && Channel(aps[k], frequencies) + 1 < Width ==>
              LineFor(aps[k], frequencies) in InBand(aps, frequencies)
    decreases |aps|
  {
    if |aps| > 0 {
      var n := |aps| - 1;
      var init := aps[..n];
      InBandComplete(init, frequencies);
      forall k | 0 <= k < |aps| && Channel(aps[k], frequencies) + 1 < Width
        ensures LineFor(aps[k], frequencies) in InBand(aps, frequencies)
      {
        if k < n {
          assert init[k] == aps[k];
        }
      }
    }
  }

  /** One more access point extends InBand by its line when that line is
      labelled, and by nothing otherwise. */
  lemma InBandNext(aps: seq<AccessPoint>, k: nat, frequencies: seq<string>)
    requires k < |aps| && forall j :: 0 <= j <= k ==> aps[j].frequency in frequencies
    ensures var line := LineFor(aps[k], frequencies);
            InBand(aps[..k + 1], frequencies)
            == InBand(aps[..k], frequencies) + if line.labelled then [line] else []
  {
    assert aps[..k + 1][..k] == aps[..k];
  }

  /** The graph as the warning intends it: an access point whose bars do
      not fit is skipped, so every line drawn is a full, labelled tent. */
  method PlotInBand(aps: seq<AccessPoint>, frequencies: seq<string>) returns (outcome: Outcome)
    ensures outcome.Plotted? <==> forall k :: 0 <= k < |aps| ==> aps[k].frequency in frequencies
    ensures outcome.Plotted? ==> outcome.lines == InBand(aps, frequencies)
    ensures outcome.FrequencyMissing? ==>
              outcome.at < |aps| && aps[outcome.at].frequency !in frequencies &&
              forall k :: 0 <= k < outcome.at ==> aps[k].frequency in frequencies
  {
    var lines: seq<Line> := [];
    var k := 0;
    while k < |aps|
      invariant 0 <= k <= |aps|
      invariant forall j :: 0 <= j < k ==> aps[j].frequency in frequencies
      invariant lines == InBand(aps[..k], frequencies)
    {
      var ap := aps[k];
      if ap.frequency !in frequencies {
        return FrequencyMissing(k);
      }
      var channel := IndexOf(frequencies, ap.frequency) + 1;
      var profile, labelled := BarProfile(channel, ap.signal);
      InBandNext(aps, k, frequencies);
      if labelled {
        lines := lines + [Line(ap.essid, profile, labelled)];
      }
      k := k + 1;
    }
    assert aps[..k] == aps;
    outcome := Plotted(lines);
  }
}
