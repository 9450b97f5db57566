# wifirssi in Dafny

A model of the logic behind the wifirssi Wi-Fi signal plotter, with proofs
of what it promises. The plotter polls one wireless interface and draws four
scrolling curves (link quality, signal level, bitrate, noise). Each curve is
a fixed-width history whose ceiling rises when a value exceeds it, and the
entries already stored are then rescaled. The model covers five parts:

- **Units** (`units.dfy`): the unsigned power byte read back as signed dBm
  (`u8_to_dbm`); the unit tier that `dbm_to_units` picks for a milliwatt
  value; the zero list `mklist`. The older single-file draft `wifirssi.py`
  repeats these three definitions unchanged (`wifirssi.py:28-63`), and
  `wifirssi/map.py:31-36` holds a third copy of `mklist`, which
  `Overlap.BarProfile` uses; this one module models all the copies.
- **Scroll** (`scroll.dfy`): the `Graph` class. It is a `class` whose
  `maxval` and `results` fields change in place. Its value-level meaning is
  a `Snapshot` (ceiling and list). `Step` is one `update` and `Feed` is a run
  of updates. Each graph keeps a ghost history of the values it has taken.
  Its invariant is that the list on screen is always the seeded list fed
  with that history.
- **Session** (`session.dfy`): the statistics `Window`. It holds four graphs
  and the `running` flag. `Start` polls until the window is closed or a read
  fails; `Stop` is the close handler. The wireless library is replaced by a
  finite feed of ticks: each tick is a read, which gives statistics or fails,
  plus whether the window was closed during the pause after it.
- **Draft** (`draft.dfy`): the plotting loop of the older draft. It keeps one
  unscaled curve of raw signal levels.
- **Overlap** (`overlap.dfy`): the channel overlap view of `map.py`. Each
  access point gets a 16-slot profile with three bars around its channel.
  The writes that fall past the last slot raise `IndexError`, which the code
  catches. A frequency missing from the channel list raises `ValueError`,
  which is not caught.

Floating-point values are modelled as `real`, so rounding is not modelled.
Two behaviours of the code are worth stating up front:
- In `map.py`, an access point whose bars run past the last slot is still
  drawn, with the bars written before the failing index. The `IndexError`
  handler (`wifirssi/map.py:63-65`) builds a `Warning` naming the channel as
  not in 2.4 GHz, which reads as meant to skip it (see Findings).
- Every history holds exactly `width` entries from the start: the seeding
  at `wifirssi/wifirssi.py:111-112` gives `width` entries and the eviction at
  `wifirssi/wifirssi.py:134-135` brings each update back to `width`
  (`Scroll.Graph.Valid`). A short run of samples therefore does not give a
  short history.

## Model

| member | source | states |
|---|---|---|
| Units.U8ToDbm | wifirssi/wifirssi.py:81-88 | a reading stays as it is exactly when it is at most 63; otherwise it loses 256; readings 0..255 land in -192..63 |
| Units.U8ToDbmRoundTrip | wifirssi/wifirssi.py:81-88 | on 0..255 the conversion is undone by DbmToU8 |
| Units.U8ToDbmOnto | wifirssi/wifirssi.py:82-83 | every dBm value in -192..63 comes from exactly one byte, so the map is a bijection from 0..255 onto -192..63 |
| Units.U8ToDbmSamples | wifirssi/wifirssi.py:85-88 | 0 and 63 are kept, 64 gives -192 and 255 gives -1 |
| Units.InUnits | wifirssi/wifirssi.py:65-72 | the four tiers, each as an if-and-only-if with strict lower thresholds 1e-8, 1e-5, 1e-2, so a value on a threshold goes to the larger unit; the magnitude is the value times 1e9, 1e6, 1e3 or 1 |
| Units.InUnitsMonotone | wifirssi/wifirssi.py:65-72 | a larger power never gets a smaller unit |
| Units.InUnitsMagnitude | wifirssi/wifirssi.py:65-72 | a positive power shown in pW, nW or uW has a magnitude below 10; outside pW it is at least 0.01 |
| Units.MkList | wifirssi/wifirssi.py:91-96 | a list of exactly `length` zeros, empty for a negative length |
| Scroll.LevelToHeight | wifirssi/wifirssi.py:99-101 | the scaled value is to `height` as the level is to its maximum: result × maximum = height × level |
| Scroll.LevelToHeightFull | wifirssi/wifirssi.py:99-101 | a level equal to its maximum is drawn at exactly `height` |
| Scroll.Step | wifirssi/wifirssi.py:120-135 | one update: the new ceiling is positive, at least the old ceiling and the value, and equal to one of them; a list of `width` entries keeps `width` entries |
| Scroll.StepAppends | wifirssi/wifirssi.py:131-135 | on a full list the update appends the scaled value to the kept entries and drops exactly the first one |
| Scroll.StepWithinCeiling | wifirssi/wifirssi.py:123-135 | a value at or below the ceiling, equal included, changes no ceiling and no entry: the list moves one place left and the scaled value comes in last |
| Scroll.StepRaise | wifirssi/wifirssi.py:123-131 | a value above the ceiling becomes the ceiling; every kept entry is multiplied by height / value (not old / new); the new last entry is exactly `height` |
| Scroll.RescaleIsProportionalIff | wifirssi/wifirssi.py:126-129 | the in-place rescale equals the proportional rescale by old / new ceiling if and only if the display height equals the old ceiling |
| Scroll.Feed | wifirssi/wifirssi.py:120-135 | a run of updates keeps the ceiling positive and a full list full |
| Scroll.FeedSnoc | wifirssi/wifirssi.py:120-135 | one more value fed is one more update on the state reached |
| Scroll.FeedCeiling | wifirssi/wifirssi.py:123-125 | after a run the ceiling is at least the starting ceiling and every value fed, and is either the starting ceiling or one of the values |
| Scroll.FeedWithinCeiling | wifirssi/wifirssi.py:131-135 | while no value exceeds the ceiling the list is a plain FIFO window over the old entries followed by the scaled values |
| Scroll.Graph.constructor | wifirssi/wifirssi.py:107-114 | a new graph holds width - 1 zeros and then `height`, with the given ceiling and an empty history |
| Scroll.Graph.Update | wifirssi/wifirssi.py:120-135 | the new state is `Step` of the old one, the history grows by the value, and the invariant (list = seed fed with history, `width` entries, positive ceiling) is kept |
| Scroll.Graph.Raise | wifirssi/wifirssi.py:123-129 | the ceiling becomes the value and every entry is rescaled in place against it |
| Scroll.Graph.Evict | wifirssi/wifirssi.py:134-135 | deleting the first entry while the list is too long leaves its last `width` entries |
| Session.Served | wifirssi/wifirssi.py:249 | the reads the loop consumes: never more than the feed holds, and at least one exactly when the first read succeeds (ServedSpec gives the full characterisation) |
| Session.ServedSpec | wifirssi/wifirssi.py:246-278 | the reads the loop consumes are a prefix of the feed: each one succeeded, no close came before the last, and the loop stopped at the end of the feed, at a failed read, or after a close |
| Session.ServedNext | wifirssi/wifirssi.py:249 | a successful read joins the consumed reads, and the loop goes on from the next tick unless the window was closed |
| Session.Window.constructor | wifirssi/wifirssi.py:168-214 | four distinct seeded graphs of width 300 and height 101 with ceilings 70, 256, 54000000 and 256, and `running` false |
| Session.Window.Stop | wifirssi/wifirssi.py:262-264 | the flag is cleared |
| Session.Window.Record | wifirssi/wifirssi.py:251-254 | quality, signal level, bitrate and noise each go to their own graph, once |
| Session.Window.Start | wifirssi/wifirssi.py:246-260 | the flag is false on return, and each graph's history has grown by exactly its metric of every consumed read, in order |
| Session.Extend | wifirssi/wifirssi.py:251-254 | one more read adds its value at the end of each metric's column |
| Session.FiveReadsCeilings | wifirssi/wifirssi.py:123-125 | after five reads whose fourth has quality 71 and bitrate 54000001, fresh graphs end with those ceilings, while signal level and noise keep 256 (a value equal to the ceiling does not raise it) |
| Draft.Run | wifirssi.py:77-109 | the list always holds 300 entries: the last 300 of the seed (299 zeros, then 256) followed by the raw readings |
| Draft.StreamSnoc | wifirssi.py:107-109 | one reading appended and one entry deleted moves that window one place on |
| Draft.RunEntries | wifirssi.py:107-109 | entry k is a seed entry or the reading k + n - 300; the last entry is the newest reading |
| Overlap.IndexOf | wifirssi/map.py:56 | the position found holds the frequency and no earlier position does |
| Overlap.Channel | wifirssi/map.py:55-56 | channels count from 1 along the channel list, at the first position holding the frequency |
| Overlap.BarProfile | wifirssi/map.py:54-65 | the three writes leave the tent (signal at the channel, signal - 10 beside it) clipped to the 16 slots; the label is written exactly when the right neighbour fits |
| Overlap.Plot | wifirssi/map.py:53-67 | the graph completes if and only if every frequency is a known channel; then access point k gets line k, whether or not its bars fit; otherwise the result names the first unknown frequency |
| Overlap.PartialLines | wifirssi/map.py:57-65 | on channel 15 or 16 the line is drawn unlabelled with the bars written before the failing index |
| Overlap.InBand | wifirssi/map.py:63-65 | the lines of the access points whose bars fit, all labelled |
| Overlap.LineForTent | wifirssi/map.py:57-62 | an access point whose right neighbour fits gets a labelled line with signal - 10, signal and signal - 10 at its channel and on either side |
| Overlap.InBandSound | wifirssi/map.py:63-65 | every line of InBand is the line of some access point whose tent fits, so no partial line is kept |
| Overlap.InBandComplete | wifirssi/map.py:63-65 | every access point whose tent fits has its line in InBand |
| Overlap.InBandNext | wifirssi/map.py:53-67 | one more access point adds its line exactly when that line is labelled |
| Overlap.PlotInBand | wifirssi/map.py:53-67 | the corrected graph: the same error outcome, and the lines are exactly InBand, so by InBandSound, InBandComplete and LineForTent they are the full tents of exactly the access points whose bars fit |

## Left out

- Drawing: figures, axes, text and legend objects, `set_ydata`, canvas draws and the pauses between ticks. They only display the modelled state.
- The wireless library (interface names, ESSID, frequency, statistics, bitrate, channel info, frequency formatting, scanning). A tick of the feed stands for what `getstats` obtains. An access point carries its already formatted frequency.
- `dbm_to_mw` and the `"%.2f"` text of `dbm_to_units`: power of ten and string formatting. `Units.InUnits` takes the milliwatt value as given.
- `printwifistats`: it only formats values that are modelled.
- Python float rounding in `level_to_height` and in the rescale. Values are reals.
- The runtime warning issued on a raised ceiling (`wifirssi/wifirssi.py:124`) has no effect on the state. The `Warning` object built for an off-range channel (`wifirssi/map.py:64`) is neither raised nor issued, so nothing happens there.
- Console output: the message printed by `stop` (`wifirssi/wifirssi.py:265`) and the message printed by `getstats` when the interface is lost (`wifirssi/wifirssi.py:276`). A failed read is modelled only by its effect, the end of the loop.
- `wifirssi/scan.py`, the pickle load and argument handling of `map.py`'s `main`, `setup.py`, and the interface retry loop of `main` in `wifirssi/wifirssi.py`.
- `Window.__init__`: only the sizes, ceilings, graphs and flag are modelled, not the interface queries or the widgets.
- Scroll.Graph.constructor: requires `width > 0` and `maxval > 0`. With a width of 0 the seeded list already has one entry too many. A ceiling that is 0, or becomes 0 when a negative ceiling is raised, makes `level_to_height` divide by zero on that update (`wifirssi/wifirssi.py:127-131`).
- Session.Window.Start: the polling loop runs over a finite feed, and reading past its end counts as a failed read. The close event comes only during the pause after a tick, which is the only point where the event loop runs.
- Session.Window.Start: it states each graph's history, not its drawn state. The state follows from the graph invariant: the list is the seeded list fed with the whole history.
- Scroll.Graph.Update: the rescale loop and the eviction loop are the helper methods `Raise` and `Evict`. The order of the writes is the same.
- Draft.Run: the endless loop is modelled over a finite run of readings. An I/O error from the statistics call ends the draft uncaught and is not modelled.
- Overlap.BarProfile: requires a channel of at least 1, which every channel computed from a list position is.

## Findings

| source | as written | input that shows it | evidently intended | confidence | as-written member | corrected member |
|---|---|---|---|---|---|---|
| wifirssi/map.py:63-66 | the handler for `IndexError` builds a warning without raising it, and then evaluates the bare name `next`, which does nothing; the line is then plotted with the bars written before the failure | an access point whose frequency is 15th in the channel list: its line shows bars at slots 14 and 15, with no label | the warning names the channel as outside 2.4 GHz and skips it, as `continue` would, so that no partial line is drawn | medium, not executed | Overlap.PartialLines | Overlap.PlotInBand |
