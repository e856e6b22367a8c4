/** The timing model of the stitcher: travel time between tiles, tempo
    changes and pauses, and the forward pass that gives every tile its hit
    time and entry tempo and every event its absolute time. Times are in
    seconds, tempos in beats per minute and angles in degrees, all exact
    reals. */
module Timing {
  import opened Wrappers
  import opened Seqs
  import opened Structure
  import Levels

  // ---------------------------------------------------------------------
  // Travel time

  /** `getTileTravelTime(angle, bpm)`: half a turn is one beat. */
  function TravelTime(angle: real, bpm: real): (t: real)
    requires bpm != 0.0
    ensures t * bpm == angle / 3.0
    ensures bpm > 0.0 && angle >= 0.0 ==> t >= 0.0
  {
    TravelScale(angle, bpm);
    (angle / 180.0) * (60.0 / bpm)
  }

  lemma TravelScale(angle: real, bpm: real)
    requires bpm != 0.0
    ensures (angle / 180.0) * (60.0 / bpm) * bpm == angle / 3.0
    ensures bpm > 0.0 && angle >= 0.0 ==> (angle / 180.0) * (60.0 / bpm) >= 0.0
  {
    var q := 60.0 / bpm;
    assert q * bpm == 60.0;
    calc {
      (angle / 180.0) * q * bpm;
      (angle / 180.0) * (q * bpm);
      (angle / 180.0) * 60.0;
    }
    if bpm > 0.0 && angle >= 0.0 {
      assert q > 0.0;
      assert angle / 180.0 >= 0.0;
    }
  }

  /** The `angleOffset` the stitcher writes for a time inside a tile. */
  function AngleOffsetFor(timeInTile: real, bpm: real): (a: real)
    requires bpm != 0.0
    ensures a == 3.0 * timeInTile * bpm
  {
    OffsetScale(timeInTile, bpm);
    (timeInTile / (60.0 / bpm)) * 180.0
  }

  lemma OffsetScale(t: real, bpm: real)
    requires bpm != 0.0
    ensures (t / (60.0 / bpm)) * 180.0 == 3.0 * t * bpm
  {
    var q := 60.0 / bpm;
    assert q * bpm == 60.0;
    assert t / q == t * bpm / 60.0;
  }

  /** Travelling the written offset at the same tempo takes exactly the time
      inside the tile the offset was computed from. */
  lemma AngleOffsetRoundTrip(timeInTile: real, bpm: real)
    requires bpm != 0.0
    ensures TravelTime(AngleOffsetFor(timeInTile, bpm), bpm) == timeInTile
  {
    var a := AngleOffsetFor(timeInTile, bpm);
    var t := TravelTime(a, bpm);
    assert t * bpm == timeInTile * bpm;
    CancelNonZero(t, timeInTile, bpm);
  }

  lemma CancelNonZero(x: real, y: real, c: real)
    requires c != 0.0 && x * c == y * c
    ensures x == y
  {
    assert (x - y) * c == 0.0;
  }

  // ---------------------------------------------------------------------
  // Tempo changes and pauses

  /** A SetSpeed event never sets the tempo to zero. */
  predicate SpeedSafe(e: Event)
  {
    e.eventType == "SetSpeed" ==>
      (e.speedType == Bpm ==> e.beatsPerMinute != 0.0) && (e.speedType == Multiplier ==> e.bpmMultiplier != 0.0)
  }

  /** A SetSpeed event keeps the tempo positive, and a Pause has a
      non-negative duration. */
  predicate EventForward(e: Event)
  {
    (e.eventType == "SetSpeed" ==>
      (e.speedType == Bpm ==> e.beatsPerMinute > 0.0) && (e.speedType == Multiplier ==> e.bpmMultiplier > 0.0))
    && (e.eventType == "Pause" ==> OrZero(e.duration) >= 0.0)
  }

  predicate AllSpeedSafe(acts: seq<Event>)
  {
    forall k :: 0 <= k < |acts| ==> SpeedSafe(acts[k])
  }

  predicate AllForward(acts: seq<Event>)
  {
    forall k :: 0 <= k < |acts| ==> EventForward(acts[k])
  }

  /** The tempo never becomes zero on any tile: the model's stand-in for the
      divisions the source performs, which would give Infinity or NaN. */
  predicate TemposNonZero(tiles: seq<Tile>, bpm0: real)
  {
    bpm0 != 0.0 && forall i :: 0 <= i < |tiles| ==> AllSpeedSafe(ActionsOf(tiles[i]))
  }

  /** Positive tempos, non-negative angles and non-negative pauses. */
  predicate MovesForward(tiles: seq<Tile>, bpm0: real)
  {
    bpm0 > 0.0 && forall i :: 0 <= i < |tiles| ==> tiles[i].angle >= 0.0 && AllForward(ActionsOf(tiles[i]))
  }

  lemma ForwardIsNonZero(tiles: seq<Tile>, bpm0: real)
    requires MovesForward(tiles, bpm0)
    ensures TemposNonZero(tiles, bpm0)
  {
    forall i, k | 0 <= i < |tiles| && 0 <= k < |ActionsOf(tiles[i])|
      ensures SpeedSafe(ActionsOf(tiles[i])[k])
    {
      assert EventForward(ActionsOf(tiles[i])[k]);
    }
  }

  /** How one event changes the tempo: SetSpeed with `Bpm` replaces it, with
      `Multiplier` scales it; everything else leaves it. */
  function SpeedStep(bpm: real, e: Event): (r: real)
    ensures bpm != 0.0 && SpeedSafe(e) ==> r != 0.0
    ensures bpm > 0.0 && EventForward(e) ==> r > 0.0
  {
    if e.eventType == "SetSpeed" then
      (if e.speedType == Bpm then e.beatsPerMinute
       else if e.speedType == Multiplier then bpm * e.bpmMultiplier
       else bpm)
    else bpm
  }

  /** The tempo after a tile's SetSpeed events, applied in stored order. */
  function ApplySpeeds(bpm: real, acts: seq<Event>): (r: real)
    ensures bpm != 0.0 && AllSpeedSafe(acts) ==> r != 0.0
    ensures bpm > 0.0 && AllForward(acts) ==> r > 0.0
  {
    if |acts| == 0 then bpm
    else
      assert AllSpeedSafe(acts) ==> AllSpeedSafe(acts[..|acts| - 1]);
      assert AllForward(acts) ==> AllForward(acts[..|acts| - 1]);
      SpeedStep(ApplySpeeds(bpm, acts[..|acts| - 1]), acts[|acts| - 1])
  }

  /** A list without SetSpeed events leaves the tempo alone, and the last
      `Bpm` SetSpeed wins over everything before it. */
  lemma {:induction false} ApplySpeedsNoSetSpeed(bpm: real, acts: seq<Event>)
    requires forall k :: 0 <= k < |acts| ==> acts[k].eventType != "SetSpeed"
    ensures ApplySpeeds(bpm, acts) == bpm
  {
    if |acts| > 0 {
      ApplySpeedsNoSetSpeed(bpm, acts[..|acts| - 1]);
    }
  }

  lemma {:induction false} ApplySpeedsConcat(bpm: real, a: seq<Event>, b: seq<Event>)
    ensures ApplySpeeds(bpm, a + b) == ApplySpeeds(ApplySpeeds(bpm, a), b)
  {
    if |b| > 0 {
      assert (a + b)[..|a + b| - 1] == a + b[..|b| - 1];
      ApplySpeedsConcat(bpm, a, b[..|b| - 1]);
    } else {
      assert a + b == a;
    }
  }

  /** The delay one Pause event adds at tempo `bpm`; other events add none. */
  function PauseTime(e: Event, bpm: real): (d: real)
    requires bpm != 0.0
    ensures bpm > 0.0 && EventForward(e) ==> d >= 0.0
  {
    if e.eventType == "Pause" then (OrZero(e.duration) * 60.0) / bpm else 0.0
  }

  /** The pause delay of a tile, every Pause read at one tempo. */
  function PauseSum(acts: seq<Event>, bpm: real): (d: real)
    requires bpm != 0.0
    ensures bpm > 0.0 && AllForward(acts) ==> d >= 0.0
  {
    if |acts| == 0 then 0.0
    else
      assert AllForward(acts) ==> AllForward(acts[..|acts| - 1]);
      PauseSum(acts[..|acts| - 1], bpm) + PauseTime(acts[|acts| - 1], bpm)
  }

  lemma {:induction false} PauseSumNoPause(acts: seq<Event>, bpm: real)
    requires bpm != 0.0
    requires forall k :: 0 <= k < |acts| ==> acts[k].eventType != "Pause"
    ensures PauseSum(acts, bpm) == 0.0
  {
    if |acts| > 0 {
      PauseSumNoPause(acts[..|acts| - 1], bpm);
    }
  }

  lemma {:induction false} PauseSumConcat(a: seq<Event>, b: seq<Event>, bpm: real)
    requires bpm != 0.0
    ensures PauseSum(a + b, bpm) == PauseSum(a, bpm) + PauseSum(b, bpm)
  {
    if |b| > 0 {
      assert (a + b)[..|a + b| - 1] == a + b[..|b| - 1];
      PauseSumConcat(a, b[..|b| - 1], bpm);
    } else {
      assert a + b == a;
    }
  }

  /** `getTilePauseDelay`: one pass in stored order, each Pause read at the
      tempo left by the events before it. Returns the delay and the final
      tempo. */
  function InterleavedDelay(acts: seq<Event>, bpm: real): (r: (real, real))
    requires bpm != 0.0 && AllSpeedSafe(acts)
    ensures r.1 != 0.0
  {
    if |acts| == 0 then (0.0, bpm)
    else
      assert AllSpeedSafe(acts[..|acts| - 1]);
      var prev := InterleavedDelay(acts[..|acts| - 1], bpm);
      var e := acts[|acts| - 1];
      (prev.0 + PauseTime(e, prev.1), SpeedStep(prev.1, e))
  }

  /** The final tempo is the one every SetSpeed in order leaves, and a tile
      without a Pause has no delay. */
  lemma {:induction false} InterleavedDelayFacts(acts: seq<Event>, bpm: real)
    requires bpm != 0.0 && AllSpeedSafe(acts)
    ensures InterleavedDelay(acts, bpm).1 == ApplySpeeds(bpm, acts)
    ensures (forall k :: 0 <= k < |acts| ==> acts[k].eventType != "Pause") ==> InterleavedDelay(acts, bpm).0 == 0.0
  {
    if |acts| > 0 {
      InterleavedDelayFacts(acts[..|acts| - 1], bpm);
    }
  }

  /** Events that are not Pause events only change the tempo. */
  lemma {:induction false} InterleavedSpeedsOnly(acts: seq<Event>, bpm: real)
    requires bpm != 0.0 && AllSpeedSafe(acts)
    requires forall k :: 0 <= k < |acts| ==> acts[k].eventType != "Pause"
    ensures InterleavedDelay(acts, bpm) == (0.0, ApplySpeeds(bpm, acts))
  {
    InterleavedDelayFacts(acts, bpm);
  }

  lemma {:induction false} InterleavedPausesOnly(pre: seq<Event>, acts: seq<Event>, bpm: real)
    requires bpm != 0.0 && AllSpeedSafe(pre) && AllSpeedSafe(acts)
    requires forall k :: 0 <= k < |acts| ==> acts[k].eventType != "SetSpeed"
    ensures AllSpeedSafe(pre + acts)
    ensures var p := InterleavedDelay(pre, bpm);
      InterleavedDelay(pre + acts, bpm) == (p.0 + PauseSum(acts, p.1), p.1)
  {
    assert AllSpeedSafe(pre + acts);
    if |acts| > 0 {
      var init := acts[..|acts| - 1];
      assert (pre + acts)[..|pre + acts| - 1] == pre + init;
      InterleavedPausesOnly(pre, init, bpm);
    } else {
      assert pre + acts == pre;
    }
  }

  /** When every SetSpeed of a tile comes before every Pause, the stored-
      order pass agrees with the forward pass, which applies all SetSpeeds
      first and then reads every Pause at the final tempo. */
  lemma InterleavedSpeedsFirst(speeds: seq<Event>, pauses: seq<Event>, bpm: real)
    requires bpm != 0.0 && AllSpeedSafe(speeds) && AllSpeedSafe(pauses)
    requires forall k :: 0 <= k < |speeds| ==> speeds[k].eventType != "Pause"
    requires forall k :: 0 <= k < |pauses| ==> pauses[k].eventType != "SetSpeed"
    ensures AllSpeedSafe(speeds + pauses)
    ensures var fin := ApplySpeeds(bpm, speeds + pauses);
      InterleavedDelay(speeds + pauses, bpm) == (PauseSum(speeds + pauses, fin), fin)
  {
    InterleavedSpeedsOnly(speeds, bpm);
    InterleavedPausesOnly(speeds, pauses, bpm);
    var fin := ApplySpeeds(bpm, speeds);
    ApplySpeedsConcat(bpm, speeds, pauses);
    ApplySpeedsNoSetSpeed(fin, pauses);
    PauseSumConcat(speeds, pauses, fin);
    PauseSumNoPause(speeds, fin);
  }

  /** A Pause of one beat followed by a SetSpeed to 120 at tempo 60: the
      stored-order pass waits one second, the forward pass half a second. */
  lemma PauseBeforeSpeedExample(pause: Event, speed: Event)
    requires pause.eventType == "Pause" && pause.duration == Some(1.0)
    requires speed.eventType == "SetSpeed" && speed.speedType == Bpm && speed.beatsPerMinute == 120.0
    ensures AllSpeedSafe([pause, speed])
    ensures InterleavedDelay([pause, speed], 60.0).0 == 1.0
    ensures PauseSum([pause, speed], ApplySpeeds(60.0, [pause, speed])) == 0.5
  {
    var acts := [pause, speed];
    assert acts[..1] == [pause];
    assert acts[..1][..0] == [];
    assert AllSpeedSafe(acts);
    assert ApplySpeeds(60.0, acts) == 120.0;
    assert InterleavedDelay([pause], 60.0) == (1.0, 60.0);
    assert PauseSum([pause], 120.0) == 0.5;
  }

  // ---------------------------------------------------------------------
  // The forward pass

  /** One entry of `eventTimes`. */
  datatype EventTime = EventTime(tileIndex: int, event: Event, absoluteTime: real, isDecoration: bool)

  /** The result of `calculateTiming`. */
  datatype TimingInfo = TimingInfo(tileTimes: seq<real>, eventTimes: seq<EventTime>, bpmAtTiles: seq<real>)

  /** The pass's running state: the results so far, `currentBpm` and
      `currentTime`. */
  datatype TimingState = TimingState(info: TimingInfo, bpm: real, time: real)

  /** The action entries of a tile hit at `hit`, each offset by its own
      `angleOffset` at the tile's post-SetSpeed tempo. */
  function ActionTimes(acts: seq<Event>, index: int, hit: real, bpm: real): (r: seq<EventTime>)
    requires bpm != 0.0
    ensures |r| == |acts|
  {
    seq(|acts|, k requires 0 <= k < |acts| =>
      EventTime(index, acts[k], hit + TravelTime(OrZero(acts[k].angleOffset), bpm), false))
  }

  /** The decoration entries of a tile hit at `hit`: all at the hit time. */
  function DecorationTimes(decos: seq<Event>, index: int, hit: real): (r: seq<EventTime>)
    ensures |r| == |decos|
  {
    seq(|decos|, k requires 0 <= k < |decos| => EventTime(index, decos[k], hit, true))
  }

  /** Every entry of tile `index`: its actions, then its decorations. */
  function TileEvents(t: Tile, index: int, hit: real, bpm: real): seq<EventTime>
    requires bpm != 0.0
  {
    ActionTimes(ActionsOf(t), index, hit, bpm) + DecorationTimes(DecorationsOf(t), index, hit)
  }

  /** One iteration of the pass over tile `i`: arrive with the entry tempo,
      record the hit time and entry tempo, apply the SetSpeeds, time the
      events, then add the pauses at the new tempo. */
  function TimingStep(st: TimingState, tiles: seq<Tile>, i: nat): (r: TimingState)
    requires i < |tiles| && st.bpm != 0.0 && AllSpeedSafe(ActionsOf(tiles[i]))
    ensures r.bpm != 0.0
  {
    var t := tiles[i];
    var acts := ActionsOf(t);
    var hit := st.time + TravelTime(t.angle, st.bpm);
    var bpm := ApplySpeeds(st.bpm, acts);
    TimingState(
      TimingInfo(st.info.tileTimes + [hit], st.info.eventTimes + TileEvents(t, i, hit, bpm), st.info.bpmAtTiles + [st.bpm]),
      bpm, hit + PauseSum(acts, bpm))
  }

  /** The pass after `k` tiles. */
  function TimingRun(tiles: seq<Tile>, bpm0: real, k: nat): (r: TimingState)
    requires k <= |tiles| && TemposNonZero(tiles, bpm0)
    ensures r.bpm != 0.0 && |r.info.tileTimes| == k && |r.info.bpmAtTiles| == k
    ensures forall j :: 0 <= j < k ==> r.info.bpmAtTiles[j] != 0.0
  {
    if k == 0 then TimingState(TimingInfo([], [], []), bpm0, 0.0)
    else TimingStep(TimingRun(tiles, bpm0, k - 1), tiles, k - 1)
  }

  /** `calculateTiming` on a level's tiles and initial tempo. */
  function CalculatedTiming(tiles: seq<Tile>, bpm0: real): (info: TimingInfo)
    requires TemposNonZero(tiles, bpm0)
    ensures |info.tileTimes| == |tiles| && |info.bpmAtTiles| == |tiles|
    ensures forall j :: 0 <= j < |tiles| ==> info.bpmAtTiles[j] != 0.0
  {
    TimingRun(tiles, bpm0, |tiles|).info
  }

  /** Later iterations only append: entry `i` is fixed once tile `i` is done. */
  lemma {:induction false} TimingStable(tiles: seq<Tile>, bpm0: real, i: nat, k: nat)
    requires i < k <= |tiles| && TemposNonZero(tiles, bpm0)
    ensures TimingRun(tiles, bpm0, k).info.tileTimes[i] == TimingRun(tiles, bpm0, i + 1).info.tileTimes[i]
    ensures TimingRun(tiles, bpm0, k).info.bpmAtTiles[i] == TimingRun(tiles, bpm0, i + 1).info.bpmAtTiles[i]
    decreases k
  {
    if k > i + 1 {
      TimingStable(tiles, bpm0, i, k - 1);
    }
  }

  /** Tile `i`'s entry: its hit time is the running time plus the travel
      into it at its entry tempo, which is the running tempo. */
  lemma TimingEntry(tiles: seq<Tile>, bpm0: real, i: nat)
    requires i < |tiles| && TemposNonZero(tiles, bpm0)
    ensures var st := TimingRun(tiles, bpm0, i);
      var info := CalculatedTiming(tiles, bpm0);
      info.bpmAtTiles[i] == st.bpm && info.tileTimes[i] == st.time + TravelTime(tiles[i].angle, st.bpm)
  {
    TimingStable(tiles, bpm0, i, |tiles|);
  }

  /** One entry per tile; tile 0 is hit after travelling its own angle at the
      settings tempo, from time 0. */
  lemma TimingFirstTile(tiles: seq<Tile>, bpm0: real)
    requires |tiles| > 0 && TemposNonZero(tiles, bpm0)
    ensures var info := CalculatedTiming(tiles, bpm0);
      |info.tileTimes| == |tiles| && |info.bpmAtTiles| == |tiles|
      && info.bpmAtTiles[0] == bpm0 && info.tileTimes[0] == TravelTime(tiles[0].angle, bpm0)
  {
    TimingEntry(tiles, bpm0, 0);
  }

  /** The recurrence of the pass: the entry tempo of tile `i` is the tempo
      tile `i - 1`'s SetSpeeds leave, and tile `i` is hit after tile `i - 1`'s
      pauses (read at that tempo) and the travel into tile `i`. */
  lemma TimingRecurrence(tiles: seq<Tile>, bpm0: real, i: nat)
    requires 0 < i < |tiles| && TemposNonZero(tiles, bpm0)
    ensures var info := CalculatedTiming(tiles, bpm0);
      var b := info.bpmAtTiles[i];
      b == ApplySpeeds(info.bpmAtTiles[i - 1], ActionsOf(tiles[i - 1]))
      && info.tileTimes[i] == info.tileTimes[i - 1] + PauseSum(ActionsOf(tiles[i - 1]), b) + TravelTime(tiles[i].angle, b)
  {
    TimingEntry(tiles, bpm0, i);
    TimingEntry(tiles, bpm0, i - 1);
  }

  /** With positive tempos and non-negative angles and pauses, hit times
      never decrease. */
  lemma {:induction false} TimingMonotone(tiles: seq<Tile>, bpm0: real, i: nat, j: nat)
    requires i <= j < |tiles| && MovesForward(tiles, bpm0)
    ensures TemposNonZero(tiles, bpm0)
    ensures CalculatedTiming(tiles, bpm0).tileTimes[i] <= CalculatedTiming(tiles, bpm0).tileTimes[j]
    decreases j - i
  {
    ForwardIsNonZero(tiles, bpm0);
    if i < j {
      TimingMonotone(tiles, bpm0, i, j - 1);
      TimingStepForward(tiles, bpm0, j);
    }
  }

  lemma TimingStepForward(tiles: seq<Tile>, bpm0: real, j: nat)
    requires 0 < j < |tiles| && MovesForward(tiles, bpm0)
    ensures TemposNonZero(tiles, bpm0)
    ensures CalculatedTiming(tiles, bpm0).tileTimes[j - 1] <= CalculatedTiming(tiles, bpm0).tileTimes[j]
  {
    ForwardIsNonZero(tiles, bpm0);
    TimingRecurrence(tiles, bpm0, j);
    TemposPositive(tiles, bpm0, j);
    var info := CalculatedTiming(tiles, bpm0);
    assert AllForward(ActionsOf(tiles[j - 1]));
    assert PauseSum(ActionsOf(tiles[j - 1]), info.bpmAtTiles[j]) >= 0.0;
    assert TravelTime(tiles[j].angle, info.bpmAtTiles[j]) >= 0.0;
  }

  /** Under positive tempos every entry tempo is positive. */
  lemma {:induction false} TemposPositive(tiles: seq<Tile>, bpm0: real, k: nat)
    requires k < |tiles| && MovesForward(tiles, bpm0)
    ensures TemposNonZero(tiles, bpm0)
    ensures TimingRun(tiles, bpm0, k).bpm > 0.0
    ensures CalculatedTiming(tiles, bpm0).bpmAtTiles[k] > 0.0
  {
    ForwardIsNonZero(tiles, bpm0);
    if k > 0 {
      TemposPositive(tiles, bpm0, k - 1);
      assert AllForward(ActionsOf(tiles[k - 1]));
    }
    TimingEntry(tiles, bpm0, k);
  }

  function OnTile(i: int): EventTime -> bool
  {
    (e: EventTime) => e.tileIndex == i
  }

  /** The post-SetSpeed tempo of tile `i`. */
  function BpmAfter(tiles: seq<Tile>, bpm0: real, i: nat): (r: real)
    requires i < |tiles| && TemposNonZero(tiles, bpm0)
    ensures r != 0.0
  {
    assert AllSpeedSafe(ActionsOf(tiles[i]));
    ApplySpeeds(CalculatedTiming(tiles, bpm0).bpmAtTiles[i], ActionsOf(tiles[i]))
  }

  /** Entries that belong to tiles `0 .. n - 1`, grouped in tile order. */
  predicate GroupedBelow(ev: seq<EventTime>, n: int)
  {
    (forall a :: 0 <= a < |ev| ==> 0 <= ev[a].tileIndex < n)
    && (forall a, b :: 0 <= a <= b < |ev| ==> ev[a].tileIndex <= ev[b].tileIndex)
  }

  /** Appending the entries of tile `n` to entries of earlier tiles keeps
      them grouped in tile order. */
  lemma GroupsAppendOrder(prev: seq<EventTime>, added: seq<EventTime>, n: int)
    requires n >= 0 && GroupedBelow(prev, n)
    requires forall a :: 0 <= a < |added| ==> added[a].tileIndex == n
    ensures GroupedBelow(prev + added, n + 1)
  {
  }

  /** Tile `n`'s group is what was appended, and earlier groups are kept. */
  lemma GroupsAppendFilter(prev: seq<EventTime>, added: seq<EventTime>, n: int, i: int)
    requires forall a :: 0 <= a < |prev| ==> 0 <= prev[a].tileIndex < n
    requires forall a :: 0 <= a < |added| ==> added[a].tileIndex == n
    requires 0 <= i <= n
    ensures Filter(prev + added, OnTile(i)) == if i == n then added else Filter(prev, OnTile(i))
  {
    FilterConcat(prev, added, OnTile(i));
    if i == n {
      FilterNonePass(prev, OnTile(n));
      FilterAllPass(added, OnTile(n));
    } else {
      FilterNonePass(added, OnTile(i));
    }
  }

  /** The event entries after `k` tiles are grouped by tile in tile order,
      and tile `i`'s group is exactly its actions then its decorations. */
  lemma {:induction false} TimingRunEvents(tiles: seq<Tile>, bpm0: real, k: nat)
    requires k <= |tiles| && TemposNonZero(tiles, bpm0)
    ensures GroupedBelow(TimingRun(tiles, bpm0, k).info.eventTimes, k)
    ensures forall i :: 0 <= i < k ==>
      Filter(TimingRun(tiles, bpm0, k).info.eventTimes, OnTile(i)) == TileGroup(tiles, bpm0, i)
  {
    if k > 0 {
      TimingRunEvents(tiles, bpm0, k - 1);
      var prev := TimingRun(tiles, bpm0, k - 1);
      var cur := TimingRun(tiles, bpm0, k);
      var added := TileGroup(tiles, bpm0, k - 1);
      TimingRunAppends(tiles, bpm0, k);
      GroupsAppendOrder(prev.info.eventTimes, added, k - 1);
      forall i | 0 <= i < k
        ensures Filter(cur.info.eventTimes, OnTile(i)) == TileGroup(tiles, bpm0, i)
      {
        GroupsAppendFilter(prev.info.eventTimes, added, k - 1, i);
      }
    }
  }

  /** Tile `k - 1` appends exactly its own group to the entries. */
  lemma TimingRunAppends(tiles: seq<Tile>, bpm0: real, k: nat)
    requires 0 < k <= |tiles| && TemposNonZero(tiles, bpm0)
    ensures TimingRun(tiles, bpm0, k).info.eventTimes
      == TimingRun(tiles, bpm0, k - 1).info.eventTimes + TileGroup(tiles, bpm0, k - 1)
  {
    var prev := TimingRun(tiles, bpm0, k - 1);
    var t := tiles[k - 1];
    assert AllSpeedSafe(ActionsOf(t));
    var hit := prev.time + TravelTime(t.angle, prev.bpm);
    var bpm := ApplySpeeds(prev.bpm, ActionsOf(t));
    var cur := TimingRun(tiles, bpm0, k);
    assert cur == TimingStep(prev, tiles, k - 1);
    assert cur.info.tileTimes[k - 1] == hit && cur.bpm == bpm;
  }

  /** The entries tile `i` contributes, as the pass computes them. */
  function TileGroup(tiles: seq<Tile>, bpm0: real, i: nat): (r: seq<EventTime>)
    requires i < |tiles| && TemposNonZero(tiles, bpm0)
    ensures forall a :: 0 <= a < |r| ==> r[a].tileIndex == i
  {
    var st := TimingRun(tiles, bpm0, i + 1);
    TileEvents(tiles[i], i, st.info.tileTimes[i], st.bpm)
  }

  /** `calculateTiming`'s event entries: grouped by tile in tile order; each
      tile contributes its actions, timed at its hit time plus each action's
      `angleOffset` travelled at the post-SetSpeed tempo, then its
      decorations, timed at the hit time itself. */
  lemma TimingEvents(tiles: seq<Tile>, bpm0: real)
    requires TemposNonZero(tiles, bpm0)
    ensures GroupedBelow(CalculatedTiming(tiles, bpm0).eventTimes, |tiles|)
    ensures forall i :: 0 <= i < |tiles| ==>
      Filter(CalculatedTiming(tiles, bpm0).eventTimes, OnTile(i))
        == TileEvents(tiles[i], i, CalculatedTiming(tiles, bpm0).tileTimes[i], BpmAfter(tiles, bpm0, i))
  {
    TimingRunEvents(tiles, bpm0, |tiles|);
    forall i | 0 <= i < |tiles|
      ensures TimingRun(tiles, bpm0, i + 1).info.tileTimes[i] == CalculatedTiming(tiles, bpm0).tileTimes[i]
      ensures TimingRun(tiles, bpm0, i + 1).bpm == BpmAfter(tiles, bpm0, i)
    {
      TimingEntry(tiles, bpm0, i);
      TimingStable(tiles, bpm0, i, |tiles|);
    }
  }

  /** Tile `i`'s entries in `calculateTiming`'s result. */
  lemma TimingEventsOf(tiles: seq<Tile>, bpm0: real, i: nat)
    requires i < |tiles| && TemposNonZero(tiles, bpm0)
    ensures Filter(CalculatedTiming(tiles, bpm0).eventTimes, OnTile(i))
      == TileEvents(tiles[i], i, CalculatedTiming(tiles, bpm0).tileTimes[i], BpmAfter(tiles, bpm0, i))
  {
    TimingRunEvents(tiles, bpm0, |tiles|);
    TimingEntry(tiles, bpm0, i);
    TimingStable(tiles, bpm0, i, |tiles|);
  }

  /** A decoration is timed at its tile's hit time; an action at the hit
      time plus its offset's travel at the post-SetSpeed tempo. */
  lemma TimingEventTime(tiles: seq<Tile>, bpm0: real, i: nat, k: nat)
    requires i < |tiles| && TemposNonZero(tiles, bpm0)
    ensures var info := CalculatedTiming(tiles, bpm0);
      var group := Filter(info.eventTimes, OnTile(i));
      var acts := ActionsOf(tiles[i]);
      |group| == |acts| + |DecorationsOf(tiles[i])|
      && (k < |acts| ==> group[k] == EventTime(i, acts[k],
            info.tileTimes[i] + TravelTime(OrZero(acts[k].angleOffset), BpmAfter(tiles, bpm0, i)), false))
      && (|acts| <= k < |group| ==> group[k] == EventTime(i, DecorationsOf(tiles[i])[k - |acts|], info.tileTimes[i], true))
  {
    TimingEventsOf(tiles, bpm0, i);
    var info := CalculatedTiming(tiles, bpm0);
    TileEventsAt(tiles[i], i, info.tileTimes[i], BpmAfter(tiles, bpm0, i), k);
  }

  /** Entry `k` of a tile's entries: an action first, then a decoration. */
  lemma TileEventsAt(t: Tile, index: int, hit: real, bpm: real, k: nat)
    requires bpm != 0.0
    ensures var group := TileEvents(t, index, hit, bpm);
      var acts := ActionsOf(t);
      |group| == |acts| + |DecorationsOf(t)|
      && (k < |acts| ==> group[k] == EventTime(index, acts[k], hit + TravelTime(OrZero(acts[k].angleOffset), bpm), false))
      && (|acts| <= k < |group| ==> group[k] == EventTime(index, DecorationsOf(t)[k - |acts|], hit, true))
  {
    var a := ActionTimes(ActionsOf(t), index, hit, bpm);
    var d := DecorationTimes(DecorationsOf(t), index, hit);
    if k < |a| {
      assert (a + d)[k] == a[k];
    } else if k < |a| + |d| {
      assert (a + d)[k] == d[k - |a|];
    }
  }

  /** Every non-decoration entry carries an action, so no entry of the pass
      sets the tempo to zero. */
  predicate ActionsSafe(ev: seq<EventTime>)
  {
    forall a :: 0 <= a < |ev| && !ev[a].isDecoration ==> SpeedSafe(ev[a].event)
  }

  lemma {:induction false} TimingRunActionsSafe(tiles: seq<Tile>, bpm0: real, k: nat)
    requires k <= |tiles| && TemposNonZero(tiles, bpm0)
    ensures ActionsSafe(TimingRun(tiles, bpm0, k).info.eventTimes)
  {
    if k > 0 {
      TimingRunActionsSafe(tiles, bpm0, k - 1);
      var prev := TimingRun(tiles, bpm0, k - 1);
      var t := tiles[k - 1];
      assert AllSpeedSafe(ActionsOf(t));
      var hit := prev.time + TravelTime(t.angle, prev.bpm);
      var bpm := ApplySpeeds(prev.bpm, ActionsOf(t));
      assert TimingRun(tiles, bpm0, k).info.eventTimes == prev.info.eventTimes + TileEvents(t, k - 1, hit, bpm);
      TileEventsSafe(t, k - 1, hit, bpm);
      ActionsSafeConcat(prev.info.eventTimes, TileEvents(t, k - 1, hit, bpm));
    }
  }

  lemma TileEventsSafe(t: Tile, index: int, hit: real, bpm: real)
    requires bpm != 0.0 && AllSpeedSafe(ActionsOf(t))
    ensures ActionsSafe(TileEvents(t, index, hit, bpm))
  {
    var a := ActionTimes(ActionsOf(t), index, hit, bpm);
    var d := DecorationTimes(DecorationsOf(t), index, hit);
    assert forall k :: 0 <= k < |a| ==> a[k].event == ActionsOf(t)[k];
    assert forall k :: 0 <= k < |d| ==> d[k].isDecoration;
    ActionsSafeConcat(a, d);
  }

  lemma ActionsSafeConcat(a: seq<EventTime>, b: seq<EventTime>)
    requires ActionsSafe(a) && ActionsSafe(b)
    ensures ActionsSafe(a + b)
  {
    forall k | 0 <= k < |a + b| && !(a + b)[k].isDecoration
      ensures SpeedSafe((a + b)[k].event)
    {
      if k >= |a| {
        assert (a + b)[k] == b[k - |a|];
      }
    }
  }

  /** The actions `calculateTiming` reports keep the tempo non-zero. */
  lemma TimingActionsSafe(tiles: seq<Tile>, bpm0: real)
    requires TemposNonZero(tiles, bpm0)
    ensures ActionsSafe(CalculatedTiming(tiles, bpm0).eventTimes)
  {
    TimingRunActionsSafe(tiles, bpm0, |tiles|);
  }

  // ---------------------------------------------------------------------
  // The source's loops

  /** The SetSpeed `forEach` of `calculateTiming` and of `initTileState`. */
  method ApplySetSpeeds(acts: seq<Event>, bpm0: real) returns (bpm: real)
    ensures bpm == ApplySpeeds(bpm0, acts)
  {
    bpm := bpm0;
    for k := 0 to |acts|
      invariant bpm == ApplySpeeds(bpm0, acts[..k])
    {
      assert acts[..k + 1][..k] == acts[..k];
      var a := acts[k];
      if a.eventType == "SetSpeed" {
        if a.speedType == Bpm {
          bpm := a.beatsPerMinute;
        } else if a.speedType == Multiplier {
          bpm := bpm * a.bpmMultiplier;
        }
      }
    }
    assert acts[..|acts|] == acts;
  }

  /** The Pause `forEach` of `calculateTiming` and of `initTileState`. */
  method SumPauses(acts: seq<Event>, bpm: real) returns (delay: real)
    requires bpm != 0.0
    ensures delay == PauseSum(acts, bpm)
  {
    delay := 0.0;
    for k := 0 to |acts|
      invariant delay == PauseSum(acts[..k], bpm)
    {
      assert acts[..k + 1][..k] == acts[..k];
      if acts[k].eventType == "Pause" {
        delay := delay + (OrZero(acts[k].duration) * 60.0) / bpm;
      }
    }
    assert acts[..|acts|] == acts;
  }

  /** `getTilePauseDelay` */
  method GetTilePauseDelay(tile: Tile, currentBpm: real) returns (delay: real, finalBpm: real)
    requires currentBpm != 0.0 && AllSpeedSafe(ActionsOf(tile))
    ensures (delay, finalBpm) == InterleavedDelay(ActionsOf(tile), currentBpm)
  {
    delay := 0.0;
    var bpm := currentBpm;
    var acts := ActionsOf(tile);
    for k := 0 to |acts|
      invariant (delay, bpm) == InterleavedDelay(acts[..k], currentBpm)
    {
      InterleavedPrefix(acts, currentBpm, k);
      delay, bpm := PauseDelayStep(acts[k], delay, bpm);
    }
    assert acts[..|acts|] == acts;
    finalBpm := bpm;
  }

  /** One iteration of `getTilePauseDelay`'s loop: a SetSpeed changes the
      tempo, a Pause adds its duration at the current tempo. */
  method PauseDelayStep(a: Event, delay0: real, bpm0: real) returns (delay: real, bpm: real)
    requires bpm0 != 0.0
    ensures delay == delay0 + PauseTime(a, bpm0) && bpm == SpeedStep(bpm0, a)
  {
    delay, bpm := delay0, bpm0;
    if a.eventType == "SetSpeed" {
      if a.speedType == Bpm {
        bpm := a.beatsPerMinute;
      } else if a.speedType == Multiplier {
        bpm := bpm * a.bpmMultiplier;
      }
    } else if a.eventType == "Pause" {
      delay := delay + (OrZero(a.duration) * 60.0) / bpm;
    }
  }

  /** The interleaved fold over one more action. */
  lemma InterleavedPrefix(acts: seq<Event>, bpm: real, k: nat)
    requires bpm != 0.0 && AllSpeedSafe(acts) && k < |acts|
    ensures AllSpeedSafe(acts[..k]) && InterleavedDelay(acts[..k], bpm).1 != 0.0
    ensures var p := InterleavedDelay(acts[..k], bpm);
      InterleavedDelay(acts[..k + 1], bpm) == (p.0 + PauseTime(acts[k], p.1), SpeedStep(p.1, acts[k]))
  {
    assert acts[..k + 1][..k] == acts[..k];
    assert AllSpeedSafe(acts[..k + 1]);
  }

  /** The action `forEach` of `calculateTiming`: pushes one entry per action. */
  method PushActionTimes(eventTimes: seq<EventTime>, acts: seq<Event>, index: int, currentTime: real, currentBpm: real)
    returns (r: seq<EventTime>)
    requires currentBpm != 0.0
    ensures r == eventTimes + ActionTimes(acts, index, currentTime, currentBpm)
  {
    r := eventTimes;
    for k := 0 to |acts|
      invariant r == eventTimes + ActionTimes(acts[..k], index, currentTime, currentBpm)
    {
      var angleOffset := OrZero(acts[k].angleOffset);
      var eventTime := currentTime + TravelTime(angleOffset, currentBpm);
      r := r + [EventTime(index, acts[k], eventTime, false)];
      assert ActionTimes(acts[..k + 1], index, currentTime, currentBpm)
          == ActionTimes(acts[..k], index, currentTime, currentBpm) + [EventTime(index, acts[k], eventTime, false)];
    }
    assert acts[..|acts|] == acts;
  }

  /** The decoration `forEach` of `calculateTiming`. */
  method PushDecorationTimes(eventTimes: seq<EventTime>, decos: seq<Event>, index: int, currentTime: real)
    returns (r: seq<EventTime>)
    ensures r == eventTimes + DecorationTimes(decos, index, currentTime)
  {
    r := eventTimes;
    for k := 0 to |decos|
      invariant r == eventTimes + DecorationTimes(decos[..k], index, currentTime)
    {
      r := r + [EventTime(index, decos[k], currentTime, true)];
      assert DecorationTimes(decos[..k + 1], index, currentTime)
          == DecorationTimes(decos[..k], index, currentTime) + [EventTime(index, decos[k], currentTime, true)];
    }
    assert decos[..|decos|] == decos;
  }

  /** One iteration of `calculateTiming`'s loop, over tile `index`. */
  method TimeTile(tiles: seq<Tile>, index: nat, st: TimingState) returns (r: TimingState)
    requires index < |tiles| && st.bpm != 0.0 && AllSpeedSafe(ActionsOf(tiles[index]))
    ensures r == TimingStep(st, tiles, index)
  {
    var tile := tiles[index];
    var currentBpm := st.bpm;
    var travelTime := TravelTime(tile.angle, currentBpm);
    var currentTime := st.time + travelTime;
    var tileTimes := st.info.tileTimes + [currentTime];
    var bpmAtTiles := st.info.bpmAtTiles + [currentBpm];
    currentBpm := ApplySetSpeeds(ActionsOf(tile), currentBpm);
    var eventTimes := PushActionTimes(st.info.eventTimes, ActionsOf(tile), index, currentTime, currentBpm);
    eventTimes := PushDecorationTimes(eventTimes, DecorationsOf(tile), index, currentTime);
    var tilePauseDelay := SumPauses(ActionsOf(tile), currentBpm);
    currentTime := currentTime + tilePauseDelay;
    r := TimingState(TimingInfo(tileTimes, eventTimes, bpmAtTiles), currentBpm, currentTime);
  }

  /** `calculateTiming(level)` */
  method CalculateTiming(level: Levels.Level) returns (info: TimingInfo)
    requires TemposNonZero(level.tiles, level.settings.bpm)
    ensures info == CalculatedTiming(level.tiles, level.settings.bpm)
  {
    var tiles := level.tiles;
    var bpm0 := level.settings.bpm;
    var st := TimingState(TimingInfo([], [], []), bpm0, 0.0);
    for index := 0 to |tiles|
      invariant st == TimingRun(tiles, bpm0, index)
    {
      assert AllSpeedSafe(ActionsOf(tiles[index]));
      st := TimeTile(tiles, index, st);
    }
    info := st.info;
  }
}
