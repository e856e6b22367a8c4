/** `stitchLevels`: copies the events of a range of source tiles into a
    target level, keeping their absolute times. A cursor walks the target's
    tiles forward; each copied action gets the `angleOffset` that puts it at
    its original time, each decoration lands on the tile it falls on, and
    decoration tags that collide with the target's are renamed. */
module Stitcher {
  import opened Wrappers
  import opened Seqs
  import opened Structure
  import opened Timing
  import opened TagResolver
  import Levels

  /** The slack of the cursor search, in seconds. */
  const Eps: real := 0.000001

  datatype FilterMode = Whitelist | Blacklist

  // ---------------------------------------------------------------------
  // Selecting the events to copy

  function InRange(startIdx: int, endIdx: int): EventTime -> bool
  {
    (et: EventTime) => startIdx <= et.tileIndex <= endIdx
  }

  function TypeSelected(selectedEvents: seq<string>, mode: FilterMode): EventTime -> bool
  {
    (et: EventTime) =>
      if mode == Whitelist then et.event.eventType in selectedEvents else et.event.eventType !in selectedEvents
  }

  function Selected(startIdx: int, endIdx: int, selectedEvents: seq<string>, mode: FilterMode): EventTime -> bool
  {
    (et: EventTime) => InRange(startIdx, endIdx)(et) && TypeSelected(selectedEvents, mode)(et)
  }

  /** The source entries to copy: the tile range first, then the type list. */
  function SelectEvents(eventTimes: seq<EventTime>, startIdx: int, endIdx: int, selectedEvents: seq<string>, mode: FilterMode)
    : (r: seq<EventTime>)
    ensures |r| <= |eventTimes|
  {
    Filter(Filter(eventTimes, InRange(startIdx, endIdx)), TypeSelected(selectedEvents, mode))
  }

  /** The copied entries are, in their original order, exactly the entries
      of tiles `startIdx ..= endIdx` whose type is on the list (whitelist) or
      off it (blacklist). */
  lemma SelectEventsExactly(eventTimes: seq<EventTime>, startIdx: int, endIdx: int, selectedEvents: seq<string>, mode: FilterMode)
    ensures SelectEvents(eventTimes, startIdx, endIdx, selectedEvents, mode)
      == Filter(eventTimes, Selected(startIdx, endIdx, selectedEvents, mode))
    ensures forall et :: et in SelectEvents(eventTimes, startIdx, endIdx, selectedEvents, mode) <==>
      et in eventTimes && startIdx <= et.tileIndex <= endIdx
      && (mode == Whitelist <==> et.event.eventType in selectedEvents)
  {
    var p := Selected(startIdx, endIdx, selectedEvents, mode);
    FilterAnd(eventTimes, InRange(startIdx, endIdx), TypeSelected(selectedEvents, mode), p);
    var r := Filter(eventTimes, p);
    forall et | et in eventTimes && p(et)
      ensures et in r
    {
      var k :| 0 <= k < |eventTimes| && eventTimes[k] == et;
    }
    forall et | et in r
      ensures et in eventTimes && p(et)
    {
      var k :| 0 <= k < |r| && r[k] == et;
    }
  }

  /** Entries lifted from a forward pass carry safe actions, and selecting
      keeps that. */
  lemma SelectEventsSafe(eventTimes: seq<EventTime>, startIdx: int, endIdx: int, selectedEvents: seq<string>, mode: FilterMode)
    requires ActionsSafe(eventTimes)
    ensures ActionsSafe(SelectEvents(eventTimes, startIdx, endIdx, selectedEvents, mode))
  {
    var a := Filter(eventTimes, InRange(startIdx, endIdx));
    var r := Filter(a, TypeSelected(selectedEvents, mode));
    forall k | 0 <= k < |a| && !a[k].isDecoration
      ensures SpeedSafe(a[k].event)
    {
      var j :| 0 <= j < |eventTimes| && eventTimes[j] == a[k];
    }
    forall k | 0 <= k < |r| && !r[k].isDecoration
      ensures SpeedSafe(r[k].event)
    {
      var j :| 0 <= j < |a| && a[j] == r[k];
    }
  }

  // ---------------------------------------------------------------------
  // The cursor over the target

  /** `currentTargetTileIdx`, `tileHitTime`, `currentTargetBpm` and
      `tilePauseDelay`. */
  datatype Cursor = Cursor(idx: nat, hit: real, bpm: real, pause: real)

  /** The target tiles with their entry tempos: the table from the target's
      forward pass, one non-zero entry per tile, and actions that never set
      the tempo to zero. */
  predicate Ready(tiles: seq<Tile>, entry: seq<real>)
  {
    |entry| == |tiles|
    && (forall i :: 0 <= i < |entry| ==> entry[i] != 0.0)
    && (forall i :: 0 <= i < |tiles| ==> AllSpeedSafe(ActionsOf(tiles[i])))
  }

  predicate CursorOk(tiles: seq<Tile>, c: Cursor)
  {
    c.idx < |tiles| && c.bpm != 0.0
  }

  /** `initTileState()` on tile `idx` hit at `hit`: the entry tempo is read
      back from the table, the tile's current SetSpeeds are applied, and its
      current Pauses are summed at the resulting tempo. */
  function InitTileState(tiles: seq<Tile>, entry: seq<real>, idx: nat, hit: real): (c: Cursor)
    requires Ready(tiles, entry) && idx < |tiles|
    ensures CursorOk(tiles, c) && c.idx == idx && c.hit == hit
  {
    assert AllSpeedSafe(ActionsOf(tiles[idx]));
    var bpm := ApplySpeeds(entry[idx], ActionsOf(tiles[idx]));
    Cursor(idx, hit, bpm, PauseSum(ActionsOf(tiles[idx]), bpm))
  }

  /** On a tile the target's own pass timed, and before anything was added
      to it, the cursor holds exactly that pass's post-SetSpeed tempo and
      pause. */
  lemma InitMatchesTiming(tiles: seq<Tile>, bpm0: real, i: nat)
    requires TemposNonZero(tiles, bpm0) && i < |tiles|
    ensures Ready(tiles, CalculatedTiming(tiles, bpm0).bpmAtTiles)
    ensures var c := InitTileState(tiles, CalculatedTiming(tiles, bpm0).bpmAtTiles, i, CalculatedTiming(tiles, bpm0).tileTimes[i]);
      c.bpm == BpmAfter(tiles, bpm0, i) && c.pause == PauseSum(ActionsOf(tiles[i]), BpmAfter(tiles, bpm0, i))
  {
  }

  /** `nextTileArrivalTime`: the current hit time, the current tile's pause
      and the travel into the next tile at the current tempo. */
  function NextArrival(tiles: seq<Tile>, c: Cursor): real
    requires CursorOk(tiles, c) && c.idx + 1 < |tiles|
  {
    c.hit + c.pause + TravelTime(tiles[c.idx + 1].angle, c.bpm)
  }

  /** The search loop: move on while the next tile is reached no later than
      `desired + Eps`. */
  function Locate(tiles: seq<Tile>, entry: seq<real>, c: Cursor, desired: real): (r: Cursor)
    requires Ready(tiles, entry) && CursorOk(tiles, c)
    ensures CursorOk(tiles, r) && c.idx <= r.idx
    ensures r.idx == |tiles| - 1 || NextArrival(tiles, r) > desired + Eps
    ensures r.idx != c.idx ==> r.hit <= desired + Eps && r == InitTileState(tiles, entry, r.idx, r.hit)
    decreases |tiles| - c.idx
  {
    if c.idx < |tiles| - 1 then
      var arrival := NextArrival(tiles, c);
      if arrival > desired + Eps then c
      else Locate(tiles, entry, InitTileState(tiles, entry, c.idx + 1, arrival), desired)
    else c
  }

  /** A cursor already past the desired time does not move. */
  lemma LocateStays(tiles: seq<Tile>, entry: seq<real>, c: Cursor, desired: real)
    requires Ready(tiles, entry) && CursorOk(tiles, c)
    requires c.idx == |tiles| - 1 || NextArrival(tiles, c) > desired + Eps
    ensures Locate(tiles, entry, c, desired) == c
  {
  }

  /** When the next tile is reached in time, the search moves onto it,
      re-initialised at its arrival time, and goes on from there. */
  lemma LocateStep(tiles: seq<Tile>, entry: seq<real>, c: Cursor, desired: real)
    requires Ready(tiles, entry) && CursorOk(tiles, c) && c.idx + 1 < |tiles|
    requires NextArrival(tiles, c) <= desired + Eps
    ensures Locate(tiles, entry, c, desired)
      == Locate(tiles, entry, InitTileState(tiles, entry, c.idx + 1, NextArrival(tiles, c)), desired)
  {
  }

  /** The tile-0 rule: unless the source entry is on tile 0, an entry that
      would land on tile 0 of a target with more than one tile goes to tile 1,
      reached by travelling tile 0's angle at tile 0's entry tempo. */
  function Redirect(tiles: seq<Tile>, entry: seq<real>, c: Cursor, sourceTileIndex: int): (r: Cursor)
    requires Ready(tiles, entry) && CursorOk(tiles, c)
    ensures CursorOk(tiles, r)
    ensures r.idx != c.idx <==> c.idx == 0 && sourceTileIndex != 0 && |tiles| > 1
    ensures r.idx != c.idx ==> r.idx == 1
  {
    if c.idx == 0 && sourceTileIndex != 0 && |tiles| > 1 then
      InitTileState(tiles, entry, 1, c.hit + TravelTime(tiles[0].angle, entry[0]))
    else c
  }

  /** The redirect skips tile 0's pause and travels tile 0's own angle: on a
      target whose tile 0 has no SetSpeed, with the cursor initialised on
      tile 0 at its hit time, the redirected hit time falls short of the
      forward pass's hit time of tile 1 by exactly tile 0's pause plus the
      travel of tile 1's angle, less the travel of tile 0's angle. */
  lemma RedirectVersusTiming(tiles: seq<Tile>, bpm0: real, sourceTileIndex: int)
    requires TemposNonZero(tiles, bpm0) && |tiles| > 1 && sourceTileIndex != 0
    requires forall k :: 0 <= k < |ActionsOf(tiles[0])| ==> ActionsOf(tiles[0])[k].eventType != "SetSpeed"
    ensures Ready(tiles, CalculatedTiming(tiles, bpm0).bpmAtTiles)
    ensures var info := CalculatedTiming(tiles, bpm0);
      var c := InitTileState(tiles, info.bpmAtTiles, 0, info.tileTimes[0]);
      var r := Redirect(tiles, info.bpmAtTiles, c, sourceTileIndex);
      r.idx == 1
      && r.hit + PauseSum(ActionsOf(tiles[0]), bpm0) + TravelTime(tiles[1].angle, bpm0)
         == info.tileTimes[1] + TravelTime(tiles[0].angle, bpm0)
  {
    TimingFirstTile(tiles, bpm0);
    TimingRecurrence(tiles, bpm0, 1);
    ApplySpeedsNoSetSpeed(bpm0, ActionsOf(tiles[0]));
  }

  // ---------------------------------------------------------------------
  // Placing one event

  /** `t2` is `t` with `e` pushed onto its decorations (`deco`) or its
      actions, the list created when absent, and nothing else changed. */
  predicate PushedOnto(t: Tile, t2: Tile, deco: bool, e: Event)
  {
    t2.direction == t.direction && t2.angle == t.angle && t2.lastDir == t.lastDir && t2.twirl == t.twirl
    && (deco ==> t2.actions == t.actions && t2.addDecorations == Some(DecorationsOf(t) + [e]))
    && (!deco ==> t2.addDecorations == t.addDecorations && t2.actions == Some(ActionsOf(t) + [e]))
  }

  /** The copy that is pushed: a decoration as it is, an action with the
      `angleOffset` that puts it `desired - hit` seconds into the tile. */
  function Placed(c: Cursor, e: Event, deco: bool, desired: real): (r: Event)
    requires c.bpm != 0.0
    ensures deco ==> r == e
    ensures !deco ==>
      (r == e.(angleOffset := r.angleOffset) && r.angleOffset.Some? && TravelTime(r.angleOffset.value, c.bpm) == desired - c.hit)
  {
    if deco then e
    else
      AngleOffsetRoundTrip(desired - c.hit, c.bpm);
      e.(angleOffset := Some(AngleOffsetFor(desired - c.hit, c.bpm)))
  }

  /** Pushing the copy onto the cursor's tile. A copied SetSpeed changes the
      cursor's tempo and a copied Pause adds to its pause, at once. */
  function Place(tiles: seq<Tile>, c: Cursor, e: Event, deco: bool, desired: real): (r: (seq<Tile>, Cursor))
    requires CursorOk(tiles, c)
    ensures |r.0| == |tiles| && r.1.idx == c.idx && r.1.hit == c.hit
    ensures forall j :: 0 <= j < |tiles| && j != c.idx ==> r.0[j] == tiles[j]
    ensures PushedOnto(tiles[c.idx], r.0[c.idx], deco, Placed(c, e, deco, desired))
    ensures deco ==> r.1 == c
    ensures !deco ==> r.1.bpm == SpeedStep(c.bpm, e) && r.1.pause == c.pause + PauseTime(e, c.bpm)
  {
    var t := tiles[c.idx];
    var p := Placed(c, e, deco, desired);
    if deco then (tiles[c.idx := t.(addDecorations := Some(DecorationsOf(t) + [p]))], c)
    else (tiles[c.idx := t.(actions := Some(ActionsOf(t) + [p]))],
          c.(bpm := SpeedStep(c.bpm, p), pause := c.pause + PauseTime(p, c.bpm)))
  }

  /** After a copied Pause, or any copied event that is not a SetSpeed, the
      cursor agrees with re-initialising it on the grown tile. */
  lemma PlaceMatchesInit(tiles: seq<Tile>, entry: seq<real>, c: Cursor, e: Event, desired: real)
    requires Ready(tiles, entry) && CursorOk(tiles, c) && c == InitTileState(tiles, entry, c.idx, c.hit)
    requires e.eventType != "SetSpeed"
    ensures Ready(Place(tiles, c, e, false, desired).0, entry)
    ensures var r := Place(tiles, c, e, false, desired);
      r.1 == InitTileState(r.0, entry, c.idx, c.hit)
  {
    var r := Place(tiles, c, e, false, desired);
    var p := Placed(c, e, false, desired);
    var acts := ActionsOf(tiles[c.idx]);
    assert ActionsOf(r.0[c.idx]) == acts + [p];
    assert (acts + [p])[..|acts|] == acts;
    assert SpeedSafe(p);
    assert Ready(r.0, entry);
    assert ApplySpeeds(entry[c.idx], acts + [p]) == c.bpm;
  }

  // ---------------------------------------------------------------------
  // The whole pass

  /** The target tiles, the cursor, and the reserved tags and map. */
  datatype StitchState = StitchState(tiles: seq<Tile>, cur: Cursor, tags: TagState)

  predicate StateOk(st: StitchState, entry: seq<real>)
  {
    Ready(st.tiles, entry) && CursorOk(st.tiles, st.cur)
  }

  /** Where a source entry should land: as far after the target's start tile
      as it was after the source's start tile. */
  function DesiredTime(et: EventTime, sourceStartTime: real, targetStartTime: real): real
  {
    targetStartTime + (et.absoluteTime - sourceStartTime)
  }

  /** The copying of one source entry: search, the tile-0 rule, the tags,
      the push. */
  function StitchStep(st: StitchState, entry: seq<real>, et: EventTime, sourceStartTime: real, targetStartTime: real)
    : (r: StitchState)
    requires StateOk(st, entry) && (!et.isDecoration ==> SpeedSafe(et.event))
    ensures StateOk(r, entry)
    ensures |r.tiles| == |st.tiles| && st.cur.idx <= r.cur.idx
    ensures forall j :: 0 <= j < |st.tiles| && j != r.cur.idx ==> r.tiles[j] == st.tiles[j]
    ensures r.tags == ResolveTag(st.tags, et.event).1
  {
    var desired := DesiredTime(et, sourceStartTime, targetStartTime);
    var c1 := Locate(st.tiles, entry, st.cur, desired);
    var c2 := Redirect(st.tiles, entry, c1, et.tileIndex);
    var (e, tags) := ResolveTag(st.tags, et.event);
    var (tiles, c3) := Place(st.tiles, c2, e, et.isDecoration, desired);
    assert !et.isDecoration ==> SpeedSafe(e);
    assert forall j :: 0 <= j < |tiles| && j != c2.idx ==> ActionsOf(tiles[j]) == ActionsOf(st.tiles[j]);
    assert !et.isDecoration ==> ActionsOf(tiles[c2.idx]) == ActionsOf(st.tiles[c2.idx]) + [Placed(c2, e, false, desired)];
    assert et.isDecoration ==> ActionsOf(tiles[c2.idx]) == ActionsOf(st.tiles[c2.idx]);
    StitchState(tiles, c3, tags)
  }

  /** The tag state after resolving the first `k` entries' tags in order. */
  function TagRun(tags: TagState, events: seq<EventTime>, k: nat): TagState
    requires k <= |events|
  {
    if k == 0 then tags else ResolveTag(TagRun(tags, events, k - 1), events[k - 1].event).1
  }

  /** The pass after the first `k` selected entries. */
  function StitchRun(init: StitchState, entry: seq<real>, events: seq<EventTime>, k: nat, sourceStartTime: real, targetStartTime: real)
    : (r: StitchState)
    requires StateOk(init, entry) && ActionsSafe(events) && k <= |events|
    ensures StateOk(r, entry)
    ensures r.tags == TagRun(init.tags, events, k)
  {
    if k == 0 then init
    else StitchStep(StitchRun(init, entry, events, k - 1, sourceStartTime, targetStartTime), entry, events[k - 1], sourceStartTime, targetStartTime)
  }

  /** The state before the first entry: the cursor initialised on the start
      tile at its hit time, every target tag reserved, no mapping. */
  function InitialState(tiles: seq<Tile>, timing: TimingInfo, targetStartIndex: nat): (r: StitchState)
    requires Ready(tiles, timing.bpmAtTiles) && targetStartIndex < |tiles| && |timing.tileTimes| == |tiles|
    ensures StateOk(r, timing.bpmAtTiles) && r.cur.idx == targetStartIndex && r.tiles == tiles
  {
    StitchState(tiles, InitTileState(tiles, timing.bpmAtTiles, targetStartIndex, timing.tileTimes[targetStartIndex]),
      TagState(TargetTags(tiles), map[]))
  }

  /** `sourceTiming.tileTimes[startIdx]`. Past the last source tile the
      source reads `undefined`; no entry is selected then (see
      `StitchedPastEnd`), so the value is never used and the model reads 0. */
  function SourceStartTime(tileTimes: seq<real>, startIdx: nat): real
  {
    if startIdx < |tileTimes| then tileTimes[startIdx] else 0.0
  }

  /** The target tiles `stitchLevels` leaves. */
  function Stitched(sourceTiles: seq<Tile>, sourceBpm: real, sourceRange: (int, int), targetTiles: seq<Tile>, targetBpm: real,
                    targetStartIndex: nat, selectedEvents: seq<string>, mode: FilterMode): (r: seq<Tile>)
    requires TemposNonZero(sourceTiles, sourceBpm) && TemposNonZero(targetTiles, targetBpm)
    requires 0 <= sourceRange.0 && targetStartIndex < |targetTiles|
    ensures |r| == |targetTiles|
  {
    var src := CalculatedTiming(sourceTiles, sourceBpm);
    var tgt := CalculatedTiming(targetTiles, targetBpm);
    var events := SelectEvents(src.eventTimes, sourceRange.0, sourceRange.1, selectedEvents, mode);
    TimingActionsSafe(sourceTiles, sourceBpm);
    SelectEventsSafe(src.eventTimes, sourceRange.0, sourceRange.1, selectedEvents, mode);
    assert Ready(targetTiles, tgt.bpmAtTiles);
    var init := InitialState(targetTiles, tgt, targetStartIndex);
    var fin := StitchRun(init, tgt.bpmAtTiles, events, |events|, SourceStartTime(src.tileTimes, sourceRange.0),
                         tgt.tileTimes[targetStartIndex]);
    fin.tiles
  }

  /** A source start at or past the source's last tile selects no entry,
      since every entry belongs to a source tile, so the target tiles come
      back unchanged. */
  lemma StitchedPastEnd(sourceTiles: seq<Tile>, sourceBpm: real, sourceRange: (int, int), targetTiles: seq<Tile>,
                        targetBpm: real, targetStartIndex: nat, selectedEvents: seq<string>, mode: FilterMode)
    requires TemposNonZero(sourceTiles, sourceBpm) && TemposNonZero(targetTiles, targetBpm)
    requires sourceRange.0 >= |sourceTiles| && targetStartIndex < |targetTiles|
    ensures Stitched(sourceTiles, sourceBpm, sourceRange, targetTiles, targetBpm, targetStartIndex, selectedEvents, mode)
      == targetTiles
  {
    var src := CalculatedTiming(sourceTiles, sourceBpm);
    TimingEvents(sourceTiles, sourceBpm);
    var inRange := InRange(sourceRange.0, sourceRange.1);
    FilterNonePass(src.eventTimes, inRange);
    assert Filter([], TypeSelected(selectedEvents, mode)) == [];
    assert SelectEvents(src.eventTimes, sourceRange.0, sourceRange.1, selectedEvents, mode) == [];
  }

  /** The number of events on a list of tiles, actions and decorations. */
  function EventCount(tiles: seq<Tile>): nat
  {
    if |tiles| == 0 then 0
    else EventCount(tiles[..|tiles| - 1]) + |ActionsOf(tiles[|tiles| - 1])| + |DecorationsOf(tiles[|tiles| - 1])|
  }

  lemma {:induction false} EventCountUpdate(tiles: seq<Tile>, j: int, t: Tile)
    requires 0 <= j < |tiles|
    ensures EventCount(tiles[j := t]) + |ActionsOf(tiles[j])| + |DecorationsOf(tiles[j])|
      == EventCount(tiles) + |ActionsOf(t)| + |DecorationsOf(t)|
  {
    var n := |tiles|;
    if j < n - 1 {
      EventCountUpdate(tiles[..n - 1], j, t);
      assert tiles[j := t][..n - 1] == tiles[..n - 1][j := t];
    } else {
      assert tiles[j := t][..n - 1] == tiles[..n - 1];
    }
  }

  /** A step pushes the copy of the entry, its tag resolved, onto the tile
      the search and the tile-0 rule chose, and changes that tile in no
      other way. */
  lemma StitchStepPushes(st: StitchState, entry: seq<real>, et: EventTime, sourceStartTime: real, targetStartTime: real)
    requires StateOk(st, entry) && (!et.isDecoration ==> SpeedSafe(et.event))
    ensures var desired := DesiredTime(et, sourceStartTime, targetStartTime);
      var c := Redirect(st.tiles, entry, Locate(st.tiles, entry, st.cur, desired), et.tileIndex);
      var r := StitchStep(st, entry, et, sourceStartTime, targetStartTime);
      r.cur.idx == c.idx
      && PushedOnto(st.tiles[c.idx], r.tiles[c.idx], et.isDecoration, Placed(c, ResolveTag(st.tags, et.event).0, et.isDecoration, desired))
  {
  }

  /** Every step pushes exactly one event. */
  lemma StitchStepCount(st: StitchState, entry: seq<real>, et: EventTime, sourceStartTime: real, targetStartTime: real)
    requires StateOk(st, entry) && (!et.isDecoration ==> SpeedSafe(et.event))
    ensures EventCount(StitchStep(st, entry, et, sourceStartTime, targetStartTime).tiles) == EventCount(st.tiles) + 1
  {
    var r := StitchStep(st, entry, et, sourceStartTime, targetStartTime);
    var j := r.cur.idx;
    assert r.tiles == st.tiles[j := r.tiles[j]];
    EventCountUpdate(st.tiles, j, r.tiles[j]);
  }

  /** Over the whole pass the tile count is kept, one event is pushed per
      selected entry, and the cursor never falls behind the start tile. */
  lemma {:induction false} StitchRunCount(init: StitchState, entry: seq<real>, events: seq<EventTime>, k: nat,
                                          sourceStartTime: real, targetStartTime: real)
    requires StateOk(init, entry) && ActionsSafe(events) && k <= |events|
    ensures var r := StitchRun(init, entry, events, k, sourceStartTime, targetStartTime);
      |r.tiles| == |init.tiles| && EventCount(r.tiles) == EventCount(init.tiles) + k
      && init.cur.idx <= r.cur.idx
  {
    if k > 0 {
      StitchRunCount(init, entry, events, k - 1, sourceStartTime, targetStartTime);
      var prev := StitchRun(init, entry, events, k - 1, sourceStartTime, targetStartTime);
      assert StitchRun(init, entry, events, k, sourceStartTime, targetStartTime)
        == StitchStep(prev, entry, events[k - 1], sourceStartTime, targetStartTime);
      StitchStepCount(prev, entry, events[k - 1], sourceStartTime, targetStartTime);
    }
  }

  /** Along the tag fold the tag state stays valid, reserved tags are never
      released, and a mapping once made never changes. */
  lemma {:induction false} TagRunValid(tags: TagState, events: seq<EventTime>, k: nat)
    requires k <= |events| && TagStateValid(tags)
    ensures var r := TagRun(tags, events, k);
      TagStateValid(r) && tags.reserved <= r.reserved
      && (forall t :: t in tags.mapping ==> t in r.mapping && r.mapping[t] == tags.mapping[t])
  {
    if k > 0 {
      TagRunValid(tags, events, k - 1);
      ResolveTagValid(TagRun(tags, events, k - 1), events[k - 1].event);
    }
  }

  /** A copied action is placed so that travelling its new `angleOffset` at
      the cursor's tempo takes exactly the time from the tile's hit time to
      the entry's desired time. */
  lemma CopiedActionKeepsTime(st: StitchState, entry: seq<real>, et: EventTime, sourceStartTime: real, targetStartTime: real)
    requires StateOk(st, entry) && !et.isDecoration && SpeedSafe(et.event)
    ensures var desired := DesiredTime(et, sourceStartTime, targetStartTime);
      var c := Redirect(st.tiles, entry, Locate(st.tiles, entry, st.cur, desired), et.tileIndex);
      var r := StitchStep(st, entry, et, sourceStartTime, targetStartTime);
      var pushed := ActionsOf(r.tiles[r.cur.idx]);
      |pushed| > 0 && pushed[|pushed| - 1].angleOffset.Some?
      && TravelTime(pushed[|pushed| - 1].angleOffset.value, c.bpm) == desired - c.hit
  {
  }

  // ---------------------------------------------------------------------
  // The source's loops

  /** `initTileState()` */
  method InitTileStateM(tiles: seq<Tile>, entry: seq<real>, idx: nat, hit: real) returns (c: Cursor)
    requires Ready(tiles, entry) && idx < |tiles|
    ensures c == InitTileState(tiles, entry, idx, hit)
  {
    var bpm := ApplySetSpeeds(ActionsOf(tiles[idx]), entry[idx]);
    assert AllSpeedSafe(ActionsOf(tiles[idx]));
    var tilePauseDelay := SumPauses(ActionsOf(tiles[idx]), bpm);
    c := Cursor(idx, hit, bpm, tilePauseDelay);
  }

  /** The search `while` loop. */
  method LocateM(tiles: seq<Tile>, entry: seq<real>, c0: Cursor, desired: real) returns (c: Cursor)
    requires Ready(tiles, entry) && CursorOk(tiles, c0)
    ensures c == Locate(tiles, entry, c0, desired)
  {
    c := c0;
    while c.idx < |tiles| - 1
      invariant CursorOk(tiles, c)
      invariant Locate(tiles, entry, c, desired) == Locate(tiles, entry, c0, desired)
      decreases |tiles| - c.idx
    {
      var nextTile := tiles[c.idx + 1];
      var travelToNext := TravelTime(nextTile.angle, c.bpm);
      var nextTileArrivalTime := c.hit + c.pause + travelToNext;
      assert nextTileArrivalTime == NextArrival(tiles, c);
      if nextTileArrivalTime > desired + Eps {
        LocateStays(tiles, entry, c, desired);
        break;
      }
      LocateStep(tiles, entry, c, desired);
      c := InitTileStateM(tiles, entry, c.idx + 1, nextTileArrivalTime);
    }
  }

  /** The tag branch, on the local `targetTags` and `tagMapping`. */
  method ResolveTagM(targetTags: set<string>, tagMapping: map<string, string>, e0: Event)
    returns (e: Event, tags: set<string>, mapping: map<string, string>)
    ensures (e, TagState(tags, mapping)) == ResolveTag(TagState(targetTags, tagMapping), e0)
  {
    e, tags, mapping := e0, targetTags, tagMapping;
    if HasTag(e0) {
      var originalTag := e0.tag.value;
      if e0.eventType in DeclarationTypes {
        if originalTag in targetTags && originalTag !in tagMapping {
          var newTag;
          newTag, tags := GetUniqueTag(targetTags, originalTag);
          mapping := tagMapping[originalTag := newTag];
          e := e.(tag := Some(newTag));
        } else if originalTag in tagMapping {
          e := e.(tag := Some(tagMapping[originalTag]));
        } else {
          tags := targetTags + {originalTag};
        }
      } else {
        e := e.(tag := Some(ReplaceTagsInString(tagMapping, originalTag)));
      }
    }
  }

  /** The push onto the cursor's tile and the immediate tempo and pause
      update. */
  method PlaceM(target: Levels.Level, c0: Cursor, e0: Event, deco: bool, desired: real) returns (c: Cursor)
    requires CursorOk(target.tiles, c0)
    modifies target`tiles
    ensures (target.tiles, c) == Place(old(target.tiles), c0, e0, deco, desired)
  {
    c := c0;
    var tile := target.tiles[c.idx];
    if deco {
      target.tiles := target.tiles[c.idx := tile.(addDecorations := Some(DecorationsOf(tile) + [e0]))];
    } else {
      var timeInTile := desired - c.hit;
      var angleOffset := (timeInTile / (60.0 / c.bpm)) * 180.0;
      var e := e0.(angleOffset := Some(angleOffset));
      target.tiles := target.tiles[c.idx := tile.(actions := Some(ActionsOf(tile) + [e]))];
      assert e == Placed(c0, e0, false, desired);
      if e.eventType == "SetSpeed" {
        if e.speedType == Bpm {
          c := c.(bpm := e.beatsPerMinute);
        } else if e.speedType == Multiplier {
          c := c.(bpm := c.bpm * e.bpmMultiplier);
        }
      } else if e.eventType == "Pause" {
        var duration := OrZero(e.duration);
        c := c.(pause := c.pause + (duration * 60.0) / c.bpm);
      }
      assert c.bpm == SpeedStep(c0.bpm, e);
      assert c.pause == c0.pause + PauseTime(e, c0.bpm);
      assert c == c0.(bpm := SpeedStep(c0.bpm, e), pause := c0.pause + PauseTime(e, c0.bpm));
    }
  }

  /** The body of the `forEach` over the selected entries. */
  method TransferEvent(target: Levels.Level, entry: seq<real>, et: EventTime, sourceStartTime: real, targetStartTime: real,
                       c0: Cursor, targetTags0: set<string>, tagMapping0: map<string, string>)
    returns (c: Cursor, targetTags: set<string>, tagMapping: map<string, string>)
    requires StateOk(StitchState(target.tiles, c0, TagState(targetTags0, tagMapping0)), entry)
    requires !et.isDecoration ==> SpeedSafe(et.event)
    modifies target`tiles
    ensures StitchState(target.tiles, c, TagState(targetTags, tagMapping))
         == StitchStep(StitchState(old(target.tiles), c0, TagState(targetTags0, tagMapping0)), entry, et, sourceStartTime, targetStartTime)
  {
    var relativeTime := et.absoluteTime - sourceStartTime;
    var desiredTargetTime := targetStartTime + relativeTime;
    assert desiredTargetTime == DesiredTime(et, sourceStartTime, targetStartTime);
    c := LocateM(target.tiles, entry, c0, desiredTargetTime);
    ghost var c1 := c;
    if c.idx == 0 && et.tileIndex != 0 && |target.tiles| > 1 {
      var currentTile := target.tiles[0];
      var travelTime := TravelTime(currentTile.angle, entry[0]);
      var nextTileArrivalTime := c.hit + travelTime;
      c := InitTileStateM(target.tiles, entry, 1, nextTileArrivalTime);
    }
    assert c == Redirect(target.tiles, entry, c1, et.tileIndex);
    var e;
    e, targetTags, tagMapping := ResolveTagM(targetTags0, tagMapping0, et.event);
    ghost var c2 := c;
    c := PlaceM(target, c, e, et.isDecoration, desiredTargetTime);
    StitchStepUnfold(StitchState(old(target.tiles), c0, TagState(targetTags0, tagMapping0)), entry, et, sourceStartTime, targetStartTime, c2, e, TagState(targetTags, tagMapping));
  }

  /** StitchStep from its intermediate results: the redirected cursor and
      the resolved event and tag state. */
  lemma StitchStepUnfold(st: StitchState, entry: seq<real>, et: EventTime, sourceStartTime: real, targetStartTime: real,
                         c2: Cursor, e: Event, tags: TagState)
    requires StateOk(st, entry) && (!et.isDecoration ==> SpeedSafe(et.event))
    requires c2 == Redirect(st.tiles, entry, Locate(st.tiles, entry, st.cur, DesiredTime(et, sourceStartTime, targetStartTime)), et.tileIndex)
    requires (e, tags) == ResolveTag(st.tags, et.event)
    ensures var p := Place(st.tiles, c2, e, et.isDecoration, DesiredTime(et, sourceStartTime, targetStartTime));
      StitchStep(st, entry, et, sourceStartTime, targetStartTime) == StitchState(p.0, p.1, tags)
  {
  }

  /** `stitchLevels(sourceLevel, sourceRange, targetLevel, targetStartIndex,
      selectedEvents, filterMode)`: returns the target itself, whose tiles
      are now the stitched tiles. */
  method StitchLevels(sourceLevel: Levels.Level, sourceRange: (int, int), targetLevel: Levels.Level, targetStartIndex: nat,
                      selectedEvents: seq<string>, filterMode: FilterMode) returns (r: Levels.Level)
    requires TemposNonZero(sourceLevel.tiles, sourceLevel.settings.bpm)
    requires TemposNonZero(targetLevel.tiles, targetLevel.settings.bpm)
    requires 0 <= sourceRange.0 && targetStartIndex < |targetLevel.tiles|
    modifies targetLevel`tiles
    ensures r == targetLevel
    ensures targetLevel.tiles == Stitched(old(sourceLevel.tiles), old(sourceLevel.settings.bpm), sourceRange,
      old(targetLevel.tiles), targetLevel.settings.bpm, targetStartIndex, selectedEvents, filterMode)
  {
    ghost var tiles0 := targetLevel.tiles;
    var sourceTiming := Timing.CalculateTiming(sourceLevel);
    var targetTiming := Timing.CalculateTiming(targetLevel);
    var sourceStartTime := SourceStartTime(sourceTiming.tileTimes, sourceRange.0);
    TimingActionsSafe(sourceLevel.tiles, sourceLevel.settings.bpm);
    SelectEventsSafe(sourceTiming.eventTimes, sourceRange.0, sourceRange.1, selectedEvents, filterMode);
    var eventsToTransfer := SelectEvents(sourceTiming.eventTimes, sourceRange.0, sourceRange.1, selectedEvents, filterMode);
    var targetStartTime := targetTiming.tileTimes[targetStartIndex];
    var targetTags := CollectTargetTags(targetLevel.tiles);
    var tagMapping: map<string, string> := map[];
    var entry := targetTiming.bpmAtTiles;
    assert Ready(targetLevel.tiles, entry);
    var c := InitTileStateM(targetLevel.tiles, entry, targetStartIndex, targetStartTime);
    ghost var init := InitialState(tiles0, targetTiming, targetStartIndex);
    for k := 0 to |eventsToTransfer|
      invariant StitchState(targetLevel.tiles, c, TagState(targetTags, tagMapping))
             == StitchRun(init, entry, eventsToTransfer, k, sourceStartTime, targetStartTime)
    {
      c, targetTags, tagMapping := TransferEvent(targetLevel, entry, eventsToTransfer[k], sourceStartTime, targetStartTime,
                                                 c, targetTags, tagMapping);
    }
    r := targetLevel;
  }
}
