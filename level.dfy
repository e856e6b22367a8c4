/** The tile model of a level: loading splits the flat event lists per
    floor and resolves every tile's angle from the raw directions, a heading
    and a twirl counter; floor operations edit the tile list and recompute
    the angles; export flattens the tiles back into lists. */
module Levels {
  import opened Wrappers
  import opened Seqs
  import opened Structure
  import EffectProcessor

  // ---------------------------------------------------------------------
  // JavaScript numbers

  /** `Math.trunc` */
  function Trunc(x: real): int
  {
    if x >= 0.0 then x.Floor else -((-x).Floor)
  }

  /** JavaScript's `x % 360` on numbers: the remainder of division
      truncated toward zero, whose sign follows the dividend. */
  function Rem360(x: real): (r: real)
    ensures -360.0 < r < 360.0
    ensures x >= 0.0 ==> r >= 0.0
    ensures x <= 0.0 ==> r <= 0.0
  {
    x - 360.0 * (Trunc(x / 360.0) as real)
  }

  /** On non-negative dividends the truncated remainder is the floor
      remainder, and it is an odd function of the dividend. */
  lemma Rem360Characterized(x: real)
    ensures x >= 0.0 ==> Rem360(x) == x - 360.0 * ((x / 360.0).Floor as real)
    ensures Rem360(-x) == -Rem360(x)
  {
    assert (-x) / 360.0 == -(x / 360.0);
  }

  // ---------------------------------------------------------------------
  // Angle resolution

  /** The raw direction meaning "midspin": no travel, the heading is taken
      from the previous direction. */
  const Midspin: real := 999.0

  /** The turn between the heading and a raw direction: the remainder of
      their difference, mirrored when the twirl parity is odd, with 0 read
      as a full turn. */
  function TurnAngle(heading: real, raw: real, even: bool): (r: real)
    ensures r != 0.0
    ensures even ==> -360.0 < r <= 360.0
    ensures !even ==> 0.0 < r < 720.0
  {
    var rem := Rem360(heading - raw);
    var p := if even then rem else 360.0 - rem;
    if p == 0.0 then 360.0 else p
  }

  /** Mirroring: the odd-parity turn is the full turn minus the even one,
      except that both read a zero remainder as 360. */
  lemma TurnAngleMirror(heading: real, raw: real)
    ensures var e := TurnAngle(heading, raw, true);
      var o := TurnAngle(heading, raw, false);
      (e == 360.0 && o == 360.0) || e + o == 360.0
  {
  }

  /** `_parseAngle(agd, i, isTwirl)`: the angle of tile `i` and the new
      heading, given the heading left by tile `i - 1`. Tile 0 starts from
      heading 180; a midspin at tile 0 reads `agd[-1]`, which is not a
      number, so the heading falls back to 0. */
  function ParseAngleResult(heading: real, agd: seq<real>, i: nat, isTwirl: nat): (real, real)
    requires i < |agd|
  {
    var h := if i == 0 then 180.0 else heading;
    if agd[i] == Midspin then (0.0, if i == 0 then 0.0 else agd[i - 1])
    else (TurnAngle(h, agd[i], isTwirl == 0), agd[i] + 180.0)
  }

  /** `_parsechangedAngle(agd, i, isTwirl, lstagd)`: the same rule, with the
      previous direction passed in instead of read from the list. */
  function ChangedAngleResult(heading: real, agd: real, i: nat, isTwirl: nat, lstagd: real): (real, real)
  {
    var h := if i == 0 then 180.0 else heading;
    if agd == Midspin then (0.0, lstagd)
    else (TurnAngle(h, agd, isTwirl == 0), agd + 180.0)
  }

  /** A midspin has no angle and hands on the previous raw direction (0 when
      there is none); any other direction yields a non-zero turn and leaves
      the heading opposite itself. */
  lemma ParseAngleCases(heading: real, agd: seq<real>, i: nat, isTwirl: nat)
    requires i < |agd|
    ensures var r := ParseAngleResult(heading, agd, i, isTwirl);
      (agd[i] == Midspin ==> r.0 == 0.0 && r.1 == (if i == 0 then 0.0 else agd[i - 1]))
      && (agd[i] != Midspin ==>
            r.0 != 0.0 && r.1 == agd[i] + 180.0
            && (isTwirl == 0 ==> -360.0 < r.0 <= 360.0)
            && (isTwirl != 0 ==> 0.0 < r.0 < 720.0))
  {
  }

  /** The truncated remainder makes even-parity angles negative when the
      direction exceeds the heading: directions 0 then 270 give -90. */
  lemma NegativeAngleExample()
    ensures ParseAngleResult(180.0, [0.0, 270.0], 1, 0).0 == -90.0
  {
    assert Trunc(-90.0 / 360.0) == 0;
  }

  // ---------------------------------------------------------------------
  // Splitting the flat event lists per floor

  function OnFloor(i: int): Event -> bool
  {
    (e: Event) => e.floor == Some(i)
  }

  predicate IsTwirl(e: Event)
  {
    e.eventType == "Twirl"
  }

  /** `({ floor, ...rest }) => rest` */
  function StripFloor(e: Event): Event
  {
    e.(floor := None)
  }

  /** The events of floor `i`, in order, without their `floor` property:
      what `_filterByFloor` and `_filterByFloorwithDeco` return. */
  function FloorEvents(arr: seq<Event>, i: int): (r: seq<Event>)
    ensures |r| <= |arr|
    ensures forall k :: 0 <= k < |r| ==> r[k].floor.None?
  {
    if |arr| == 0 then []
    else (if arr[0].floor == Some(i) then [StripFloor(arr[0])] else []) + FloorEvents(arr[1..], i)
  }

  /** The per-floor selection is the source's filter-then-strip pipeline. */
  lemma {:induction false} FloorEventsAsFilter(arr: seq<Event>, i: int)
    ensures FloorEvents(arr, i) == Map(StripFloor, Filter(arr, OnFloor(i)))
  {
    if |arr| > 0 {
      FloorEventsAsFilter(arr[1..], i);
      var head := if OnFloor(i)(arr[0]) then [arr[0]] else [];
      MapConcat(StripFloor, head, Filter(arr[1..], OnFloor(i)));
    }
  }

  /** An event is selected for floor `i` exactly when it comes, stripped,
      from an event of the list whose `floor` is `i`. */
  lemma FloorEventsMember(arr: seq<Event>, i: int, x: Event)
    ensures x in FloorEvents(arr, i) <==> exists e :: e in arr && e.floor == Some(i) && x == StripFloor(e)
  {
    FloorEventsAsFilter(arr, i);
    var onFloor := Filter(arr, OnFloor(i));
    if x in FloorEvents(arr, i) {
      var k :| 0 <= k < |onFloor| && FloorEvents(arr, i)[k] == x;
      assert onFloor[k] in arr && onFloor[k].floor == Some(i);
    }
    if exists e :: e in arr && e.floor == Some(i) && x == StripFloor(e) {
      var e :| e in arr && e.floor == Some(i) && x == StripFloor(e);
      var j :| 0 <= j < |arr| && arr[j] == e;
      assert OnFloor(i)(arr[j]);
      var k := IndexOf(onFloor, e);
      assert FloorEvents(arr, i)[k] == x;
    }
  }

  function IndexOf<T(==)>(s: seq<T>, x: T): (k: nat)
    requires x in s
    ensures k < |s| && s[k] == x
  {
    if s[0] == x then 0 else 1 + IndexOf(s[1..], x)
  }

  /** The number of Twirl events on floor `i`. */
  function TwirlsOnFloor(arr: seq<Event>, i: int): (n: nat)
    ensures n <= |arr|
  {
    if |arr| == 0 then 0
    else (if arr[0].floor == Some(i) && IsTwirl(arr[0]) then 1 else 0) + TwirlsOnFloor(arr[1..], i)
  }

  /** The count is the length of the source's filter of the floor's
      events by type. */
  lemma {:induction false} TwirlsOnFloorAsFilter(arr: seq<Event>, i: int)
    ensures TwirlsOnFloor(arr, i) == |Filter(Filter(arr, OnFloor(i)), IsTwirl)|
  {
    if |arr| > 0 {
      TwirlsOnFloorAsFilter(arr[1..], i);
      var head := if OnFloor(i)(arr[0]) then [arr[0]] else [];
      FilterConcat(head, Filter(arr[1..], OnFloor(i)), IsTwirl);
    }
  }

  /** The number of Twirl events on floors `0 .. n - 1`. */
  function TwirlsBelow(arr: seq<Event>, n: nat): nat
  {
    if n == 0 then 0 else TwirlsBelow(arr, n - 1) + TwirlsOnFloor(arr, n - 1)
  }

  lemma {:induction false} TwirlsBelowMonotone(arr: seq<Event>, a: nat, b: nat)
    requires a <= b
    ensures TwirlsBelow(arr, a) <= TwirlsBelow(arr, b)
    decreases b - a
  {
    if a < b {
      TwirlsBelowMonotone(arr, a, b - 1);
    }
  }

  // ---------------------------------------------------------------------
  // Loading

  /** The loader's running state: the tiles built so far, `_angleDir` and
      `_twirlCount`. */
  datatype LoadState = LoadState(tiles: seq<Tile>, heading: real, twirls: nat)

  /** `_createArray` after `k` tiles. Each tile's fields are evaluated in
      order, so its action list (which counts the floor's Twirl events) is
      built before its angle and its twirl count are read. */
  function LoadRun(agd: seq<real>, acts: seq<Event>, decos: seq<Event>, k: nat, h0: real, t0: nat): (st: LoadState)
    requires k <= |agd|
    ensures |st.tiles| == k
  {
    if k == 0 then LoadState([], h0, t0)
    else LoadStep(LoadRun(agd, acts, decos, k - 1, h0, t0), agd, acts, decos, k - 1)
  }

  /** One iteration of `_createArray`, building tile `i`. */
  function LoadStep(prev: LoadState, agd: seq<real>, acts: seq<Event>, decos: seq<Event>, i: nat): (st: LoadState)
    requires i < |agd|
    ensures |st.tiles| == |prev.tiles| + 1
  {
    var tw := prev.twirls + TwirlsOnFloor(acts, i);
    var pa := ParseAngleResult(prev.heading, agd, i, tw % 2);
    var tile := Tile(agd[i], pa.0, Some(FloorEvents(acts, i)), Some(FloorEvents(decos, i)),
                     if i == 0 then 0.0 else agd[i - 1], tw);
    LoadState(prev.tiles + [tile], pa.1, tw)
  }

  /** The heading a tile leaves behind, from the raw directions alone. */
  function HeadingAfter(agd: seq<real>, j: nat): real
    requires j < |agd|
  {
    if agd[j] == Midspin then (if j == 0 then 0.0 else agd[j - 1]) else agd[j] + 180.0
  }

  /** The angle the loader gives tile `i` with running twirl count `tw`. */
  function LoadAngle(agd: seq<real>, i: nat, tw: nat): real
    requires i < |agd|
  {
    ParseAngleResult(if i == 0 then 180.0 else HeadingAfter(agd, i - 1), agd, i, tw % 2).0
  }

  /** The tile the loader builds at index `i` when the running twirl count
      has reached `tw`. */
  function LoadedTile(agd: seq<real>, acts: seq<Event>, decos: seq<Event>, i: nat, tw: nat): Tile
    requires i < |agd|
  {
    Tile(agd[i], LoadAngle(agd, i, tw), Some(FloorEvents(acts, i)), Some(FloorEvents(decos, i)),
         if i == 0 then 0.0 else agd[i - 1], tw)
  }

  /** The loader's counters after `k` tiles: the twirl count adds up every
      Twirl event of floors `0 .. k - 1`, and the heading is the one the last
      tile leaves. */
  lemma {:induction false} LoadRunCounters(agd: seq<real>, acts: seq<Event>, decos: seq<Event>, k: nat, h0: real, t0: nat)
    requires k <= |agd|
    ensures var st := LoadRun(agd, acts, decos, k, h0, t0);
      st.twirls == t0 + TwirlsBelow(acts, k) && (k > 0 ==> st.heading == HeadingAfter(agd, k - 1))
  {
    if k > 0 {
      LoadRunCounters(agd, acts, decos, k - 1, h0, t0);
    }
  }

  /** Loading, in closed form: tile `i` carries direction `agd[i]`, the
      previous direction (0 for the first), the events of floor `i`, the
      Twirl count of floors `0 .. i` (its own included), and an angle that
      depends only on directions `i - 2 .. i` and that count's parity. */
  lemma {:induction false} LoadRunClosedForm(agd: seq<real>, acts: seq<Event>, decos: seq<Event>, k: nat, h0: real, t0: nat)
    requires k <= |agd|
    ensures var ts := LoadRun(agd, acts, decos, k, h0, t0).tiles;
      forall i :: 0 <= i < k ==> ts[i] == LoadedTile(agd, acts, decos, i, t0 + TwirlsBelow(acts, i + 1))
  {
    if k > 0 {
      LoadRunClosedForm(agd, acts, decos, k - 1, h0, t0);
      LoadRunCounters(agd, acts, decos, k - 1, h0, t0);
      var prev := LoadRun(agd, acts, decos, k - 1, h0, t0);
      var ts := LoadRun(agd, acts, decos, k, h0, t0).tiles;
      assert ts == prev.tiles + [LoadedTile(agd, acts, decos, k - 1, t0 + TwirlsBelow(acts, k))];
    }
  }

  /** The closed form of one loaded tile, field by field. */
  lemma LoadedFields(agd: seq<real>, acts: seq<Event>, decos: seq<Event>, i: nat)
    requires i < |agd|
    ensures var t := LoadRun(agd, acts, decos, |agd|, -180.0, 0).tiles[i];
      var tw := TwirlsBelow(acts, i + 1);
      t.direction == agd[i] && t.lastDir == (if i == 0 then 0.0 else agd[i - 1])
      && t.twirl == tw && t.angle == LoadAngle(agd, i, tw)
      && t.actions == Some(FloorEvents(acts, i)) && t.addDecorations == Some(FloorEvents(decos, i))
  {
    LoadRunClosedForm(agd, acts, decos, |agd|, -180.0, 0);
    assert LoadRun(agd, acts, decos, |agd|, -180.0, 0).tiles[i] == LoadedTile(agd, acts, decos, i, TwirlsBelow(acts, i + 1));
  }

  /** Stored twirl counts never decrease along the tiles. */
  lemma LoadTwirlsMonotone(agd: seq<real>, acts: seq<Event>, decos: seq<Event>, i: nat, j: nat)
    requires i <= j < |agd|
    ensures var ts := LoadRun(agd, acts, decos, |agd|, -180.0, 0).tiles;
      ts[i].twirl <= ts[j].twirl
  {
    LoadRunClosedForm(agd, acts, decos, |agd|, -180.0, 0);
    TwirlsBelowMonotone(acts, i + 1, j + 1);
  }

  /** Decorations without a `floor` land on no tile: when none of them has
      one, every tile is loaded with an empty decoration list. */
  lemma FloorlessDecorationsDropped(agd: seq<real>, acts: seq<Event>, decos: seq<Event>, i: nat)
    requires forall k :: 0 <= k < |decos| ==> decos[k].floor.None?
    requires i < |agd|
    ensures LoadRun(agd, acts, decos, |agd|, -180.0, 0).tiles[i].addDecorations == Some([])
  {
    LoadedFields(agd, acts, decos, i);
    FloorEventsAsFilter(decos, i);
    FilterNonePass(decos, OnFloor(i));
  }

  // ---------------------------------------------------------------------
  // Recomputing angles after an edit

  /** The heading a tile leaves behind during recomputation. */
  function HeadingAfterTile(t: Tile): real
  {
    if t.direction == Midspin then t.lastDir else t.direction + 180.0
  }

  /** `_changeAngle` after `k` tiles: positions are passed 1-based, so the
      reset to heading 180 never happens and tile 0 starts from whatever
      heading the previous run left; the parity test reads the stored twirl
      count itself rather than its parity. */
  function RecomputeRun(ts: seq<Tile>, h0: real, k: nat): (r: (seq<Tile>, real))
    requires k <= |ts|
    ensures |r.0| == k
  {
    if k == 0 then ([], h0)
    else
      var prev := RecomputeRun(ts, h0, k - 1);
      var t := ts[k - 1];
      var ca := ChangedAngleResult(prev.1, t.direction, k, t.twirl, t.lastDir);
      (prev.0 + [t.(angle := ca.0)], ca.1)
  }

  function Recompute(ts: seq<Tile>, h0: real): (r: (seq<Tile>, real))
  {
    RecomputeRun(ts, h0, |ts|)
  }

  /** The angle recomputation gives tile `i`. */
  function RecomputedAngle(ts: seq<Tile>, h0: real, i: nat): real
    requires i < |ts|
  {
    var h := if i == 0 then h0 else HeadingAfterTile(ts[i - 1]);
    if ts[i].direction == Midspin then 0.0 else TurnAngle(h, ts[i].direction, ts[i].twirl == 0)
  }

  /** Recomputation, in closed form: only angles change; tile `i > 0` gets a
      turn from tile `i - 1`'s heading, tile 0 one from the inherited heading,
      and the heading left is the last tile's. */
  lemma {:induction false} RecomputeClosedForm(ts: seq<Tile>, h0: real, k: nat)
    requires k <= |ts|
    ensures var r := RecomputeRun(ts, h0, k);
      (k > 0 ==> r.1 == HeadingAfterTile(ts[k - 1]))
      && forall i :: 0 <= i < k ==> r.0[i] == ts[i].(angle := RecomputedAngle(ts, h0, i))
  {
    if k > 0 {
      RecomputeHeading(ts, h0, k);
    }
    forall i | 0 <= i < k
      ensures RecomputeRun(ts, h0, k).0[i] == ts[i].(angle := RecomputedAngle(ts, h0, i))
    {
      RecomputeTileAt(ts, h0, k, i);
    }
  }

  /** The heading a run of recomputation leaves is its last tile's. */
  lemma RecomputeHeading(ts: seq<Tile>, h0: real, k: nat)
    requires 0 < k <= |ts|
    ensures RecomputeRun(ts, h0, k).1 == HeadingAfterTile(ts[k - 1])
  {
  }

  /** Tile `i` once recomputation has passed it. */
  lemma {:induction false} RecomputeTileAt(ts: seq<Tile>, h0: real, k: nat, i: nat)
    requires i < k <= |ts|
    ensures RecomputeRun(ts, h0, k).0[i] == ts[i].(angle := RecomputedAngle(ts, h0, i))
  {
    var prev := RecomputeRun(ts, h0, k - 1);
    if i < k - 1 {
      RecomputeTileAt(ts, h0, k - 1, i);
      assert RecomputeRun(ts, h0, k).0[i] == prev.0[i];
    } else if k > 1 {
      RecomputeHeading(ts, h0, k - 1);
    }
  }

  /** The closed form of one recomputed tile. */
  lemma RecomputedFields(ts: seq<Tile>, h0: real, i: nat)
    requires i < |ts|
    ensures Recompute(ts, h0).0[i] == ts[i].(angle := RecomputedAngle(ts, h0, i))
  {
    RecomputeClosedForm(ts, h0, |ts|);
  }

  /** Recomputation changes nothing but angles, and recomputing again from
      the heading it leaves is a fixed point after one more pass: the
      angles of tiles 1 onwards never depend on the inherited heading. */
  lemma RecomputeSettles(ts: seq<Tile>, h0: real)
    requires |ts| > 0
    ensures var r1 := Recompute(ts, h0);
      var r2 := Recompute(r1.0, r1.1);
      (forall i :: 0 <= i < |ts| ==> r1.0[i] == ts[i].(angle := r1.0[i].angle))
      && r2.1 == r1.1
      && (forall i :: 1 <= i < |ts| ==> r2.0[i] == r1.0[i])
      && Recompute(r2.0, r2.1) == r2
  {
    var r1 := Recompute(ts, h0);
    RecomputeClosedForm(ts, h0, |ts|);
    var r2 := Recompute(r1.0, r1.1);
    RecomputeClosedForm(r1.0, r1.1, |ts|);
    var r3 := Recompute(r2.0, r2.1);
    RecomputeClosedForm(r2.0, r2.1, |ts|);
    assert r3.0 == r2.0;
  }

  /** Load and recomputation agree on tiles after the first as long as the
      twirl count is 0 or 1: both then take the same parity branch from the
      same heading. */
  lemma LoadRecomputeAgree(agd: seq<real>, acts: seq<Event>, decos: seq<Event>, h: real, i: nat)
    requires 1 <= i < |agd|
    requires TwirlsBelow(acts, i + 1) <= 1
    ensures var ts := LoadRun(agd, acts, decos, |agd|, -180.0, 0).tiles;
      Recompute(ts, h).0[i].angle == ts[i].angle
  {
    var ts := LoadRun(agd, acts, decos, |agd|, -180.0, 0).tiles;
    LoadedFields(agd, acts, decos, i);
    LoadedFields(agd, acts, decos, i - 1);
    AgreeCore(ts, h, i, HeadingAfter(agd, i - 1));
  }

  lemma AgreeCore(ts: seq<Tile>, h: real, i: nat, heading: real)
    requires 1 <= i < |ts| && HeadingAfterTile(ts[i - 1]) == heading && ts[i].twirl <= 1
    requires ts[i].angle == if ts[i].direction == Midspin then 0.0 else TurnAngle(heading, ts[i].direction, ts[i].twirl % 2 == 0)
    ensures Recompute(ts, h).0[i].angle == ts[i].angle
  {
    RecomputedFields(ts, h, i);
    assert (ts[i].twirl == 0) == (ts[i].twirl % 2 == 0);
  }

  /** With an even twirl count of 2 or more, recomputation takes the odd
      branch where loading took the even one, so it mirrors the loaded angle. */
  lemma RecomputeMirrorsEvenTwirls(agd: seq<real>, acts: seq<Event>, decos: seq<Event>, h: real, i: nat)
    requires 1 <= i < |agd| && agd[i] != Midspin
    requires var tw := TwirlsBelow(acts, i + 1); tw >= 2 && tw % 2 == 0
    ensures var ts := LoadRun(agd, acts, decos, |agd|, -180.0, 0).tiles;
      var a := Recompute(ts, h).0[i].angle;
      (a == 360.0 && ts[i].angle == 360.0) || a + ts[i].angle == 360.0
  {
    var ts := LoadRun(agd, acts, decos, |agd|, -180.0, 0).tiles;
    LoadedFields(agd, acts, decos, i);
    LoadedFields(agd, acts, decos, i - 1);
    var heading := HeadingAfter(agd, i - 1);
    var tw := TwirlsBelow(acts, i + 1);
    assert LoadAngle(agd, i, tw) == TurnAngle(heading, agd[i], true) by {
      assert ParseAngleResult(heading, agd, i, tw % 2) == (TurnAngle(heading, agd[i], true), agd[i] + 180.0);
    }
    MirrorCore(ts, h, i, heading);
  }

  lemma MirrorCore(ts: seq<Tile>, h: real, i: nat, heading: real)
    requires 1 <= i < |ts| && HeadingAfterTile(ts[i - 1]) == heading && ts[i].direction != Midspin
    requires ts[i].twirl != 0 && ts[i].angle == TurnAngle(heading, ts[i].direction, true)
    ensures var a := Recompute(ts, h).0[i].angle;
      (a == 360.0 && ts[i].angle == 360.0) || a + ts[i].angle == 360.0
  {
    RecomputedFields(ts, h, i);
    TurnAngleMirror(heading, ts[i].direction);
  }

  /** Tile 0 is recomputed from the stale heading. Directions 0 and 90
      without twirls load with tile 0 at 180 and leave heading 270;
      recomputing after appending a tile turns tile 0 into 270. */
  lemma StaleHeadingExample(agd: seq<real>, acts: seq<Event>, decos: seq<Event>, d: real)
    requires agd == [0.0, 90.0] && TwirlsBelow(acts, 2) == 0
    ensures var st := LoadRun(agd, acts, decos, |agd|, -180.0, 0);
      st.tiles[0].angle == 180.0
      && Recompute(AppendTile(st.tiles, d), st.heading).0[0].angle == 270.0
  {
    var st := LoadRun(agd, acts, decos, |agd|, -180.0, 0);
    LoadedFields(agd, acts, decos, 0);
    LoadRunCounters(agd, acts, decos, |agd|, -180.0, 0);
    TwirlsBelowMonotone(acts, 1, 2);
    assert Trunc(180.0 / 360.0) == 0;
    assert LoadAngle(agd, 0, 0) == 180.0;
    var ts := AppendTile(st.tiles, d);
    StaleCore(ts, st.heading);
  }

  lemma StaleCore(ts: seq<Tile>, h: real)
    requires |ts| > 0 && ts[0].direction == 0.0 && ts[0].twirl == 0 && h == 270.0
    ensures Recompute(ts, h).0[0].angle == 270.0
  {
    RecomputedFields(ts, h, 0);
    assert Trunc(270.0 / 360.0) == 0;
  }

  // ---------------------------------------------------------------------
  // Floor operations

  /** The tile `appendFloor` and `insert` create after `pred`. */
  function NewTileAfter(pred: Tile, direction: real): Tile
  {
    Tile(direction, 0.0, Some([]), Some([]), pred.direction, pred.twirl)
  }

  /** `tiles.push(...)` of `appendFloor`. */
  function AppendTile(ts: seq<Tile>, direction: real): (r: seq<Tile>)
    requires |ts| > 0
    ensures |r| == |ts| + 1 && r[..|ts|] == ts
    ensures r[|ts|].angle == 0.0 && r[|ts|].actions == Some([]) && r[|ts|].addDecorations == Some([])
    ensures r[|ts|].lastDir == ts[|ts| - 1].direction && r[|ts|].twirl == ts[|ts| - 1].twirl
  {
    ts + [NewTileAfter(ts[|ts| - 1], direction)]
  }

  /** `tiles.splice(id, 0, ...)` of `insert`, for an id the source accepts. */
  function InsertTile(ts: seq<Tile>, id: int, direction: real): (r: seq<Tile>)
    requires 1 <= id <= |ts|
    ensures |r| == |ts| + 1 && r[..id] == ts[..id] && r[id + 1..] == ts[id..]
    ensures r[id].angle == 0.0 && r[id].actions == Some([]) && r[id].addDecorations == Some([])
    ensures r[id].lastDir == ts[id - 1].direction && r[id].twirl == ts[id - 1].twirl
  {
    ts[..id] + [NewTileAfter(ts[id - 1], direction)] + ts[id..]
  }

  /** Where `splice(id, ...)` starts: a negative id counts from the end, and
      the start is clamped into `0 .. len`. */
  function SpliceStart(id: int, len: nat): (s: nat)
    ensures s <= len
    ensures 0 <= id <= len ==> s == id
    ensures -(len as int) <= id < 0 ==> s == len + id
  {
    if id < 0 then (if len + id < 0 then 0 else len + id) else if id > len then len else id
  }

  /** `tiles.splice(id, 1)` of `delete`. */
  function DeleteTile(ts: seq<Tile>, id: int): (r: seq<Tile>)
    ensures var s := SpliceStart(id, |ts|);
      if s < |ts| then |r| == |ts| - 1 && r == ts[..s] + ts[s + 1..] else r == ts
  {
    var s := SpliceStart(id, |ts|);
    if s < |ts| then ts[..s] + ts[s + 1..] else ts
  }

  /** A floor operation request; `id` may be absent. */
  datatype FloorOp = Append(direction: real) | Insert(direction: real, id: Option<int>) | Delete(id: Option<int>)

  /** Whether the source completes the operation rather than throwing: an
      append or insert reads the predecessor tile, which must exist. */
  predicate FloorOpSucceeds(ts: seq<Tile>, info: FloorOp)
  {
    match info
    case Append(_) => |ts| > 0
    case Insert(_, id) => id.None? || 1 <= id.value <= |ts|
    case Delete(_) => true
  }

  /** The tiles and heading after a successful `floorOperation`. An append
      recomputes twice: once inside `appendFloor`, once after the switch. */
  function FloorOpResult(ts: seq<Tile>, h: real, info: FloorOp): (r: (seq<Tile>, real))
    requires FloorOpSucceeds(ts, info)
    ensures info.Append? ==>
      var once := Recompute(AppendTile(ts, info.direction), h);
      |r.0| == |ts| + 1 && r.1 == once.1
      && (forall i :: 1 <= i < |r.0| ==> r.0[i] == once.0[i])
      && Recompute(r.0, r.1) == r
  {
    match info
    case Append(d) =>
      var once := Recompute(AppendTile(ts, d), h);
      RecomputeSettles(AppendTile(ts, d), h);
      Recompute(once.0, once.1)
    case Insert(d, id) =>
      Recompute(if id.None? then ts else InsertTile(ts, id.value, d), h)
    case Delete(id) =>
      Recompute(if id.None? then ts else DeleteTile(ts, id.value), h)
  }

  /** Append and insert add exactly one tile and delete removes at most one;
      apart from the new tile and the angles, every tile is kept in order. */
  lemma FloorOpShape(ts: seq<Tile>, h: real, info: FloorOp)
    requires FloorOpSucceeds(ts, info)
    ensures var r := FloorOpResult(ts, h, info).0;
      match info
      case Append(d) =>
        |r| == |ts| + 1 && forall i :: 0 <= i < |r| ==> r[i] == AppendTile(ts, d)[i].(angle := r[i].angle)
      case Insert(d, id) =>
        var e := if id.None? then ts else InsertTile(ts, id.value, d);
        |r| == |e| && forall i :: 0 <= i < |r| ==> r[i] == e[i].(angle := r[i].angle)
      case Delete(id) =>
        var e := if id.None? then ts else DeleteTile(ts, id.value);
        |r| == |e| && |e| >= |ts| - 1 && forall i :: 0 <= i < |r| ==> r[i] == e[i].(angle := r[i].angle)
  {
    match info
    case Append(d) =>
      var e := AppendTile(ts, d);
      var once := Recompute(e, h);
      RecomputeClosedForm(e, h, |e|);
      RecomputeClosedForm(once.0, once.1, |e|);
    case Insert(d, id) =>
      var e := if id.None? then ts else InsertTile(ts, id.value, d);
      RecomputeClosedForm(e, h, |e|);
    case Delete(id) =>
      var e := if id.None? then ts else DeleteTile(ts, id.value);
      RecomputeClosedForm(e, h, |e|);
  }

  // ---------------------------------------------------------------------
  // Export

  /** A pair of a tile index and one of its actions. */
  datatype IndexedAction = IndexedAction(index: int, action: Event)

  /** `_flattenAngleDatas` */
  function FlattenAngleData(ts: seq<Tile>): (r: seq<real>)
    ensures |r| == |ts| && forall i :: 0 <= i < |ts| ==> r[i] == ts[i].direction
  {
    seq(|ts|, i requires 0 <= i < |ts| => ts[i].direction)
  }

  /** Tile `i`'s actions, each given `floor: i`. */
  function ActionsWithFloor(t: Tile, i: int): (r: seq<Event>)
    ensures forall e :: e in r ==> e.floor == Some(i)
  {
    Map((e: Event) => e.(floor := Some(i)), ActionsOf(t))
  }

  /** `_flattenActionsWithFloor`: every tile's actions, each carrying the
      index of its tile as `floor`. */
  function FlattenActionsWithFloor(ts: seq<Tile>): (r: seq<Event>)
    ensures forall e :: e in r ==> e.floor.Some? && 0 <= e.floor.value < |ts|
  {
    var ss := seq(|ts|, i requires 0 <= i < |ts| => ActionsWithFloor(ts[i], i));
    FlattenMembers(ss);
    Flatten(ss)
  }

  /** One tile's contribution to `map(addDecorations).flat()`: its list, or a
      single `undefined` entry when it has none. */
  function DecorationEntries(t: Tile): (r: seq<Option<Event>>)
    ensures t.addDecorations.None? ==> r == [None]
    ensures t.addDecorations.Some? ==>
      |r| == |t.addDecorations.value| && forall j :: 0 <= j < |r| ==> r[j] == Some(t.addDecorations.value[j])
  {
    match t.addDecorations
    case None => [None]
    case Some(ds) => Map((e: Event) => Some(e), ds)
  }

  /** `_flattenDecorationsWithFloor`: despite its name it does not put the
      `floor` back. */
  function FlattenDecorations(ts: seq<Tile>): (r: seq<Option<Event>>)
    ensures forall x :: x in r <==> exists k :: 0 <= k < |ts| && x in DecorationEntries(ts[k])
  {
    var ss := seq(|ts|, i requires 0 <= i < |ts| => DecorationEntries(ts[i]));
    assert forall x :: x in Flatten(ss) <==> exists k :: 0 <= k < |ts| && x in DecorationEntries(ts[k]) by {
      forall x
        ensures x in Flatten(ss) <==> exists k :: 0 <= k < |ts| && x in DecorationEntries(ts[k])
      {
        FlattenMember(ss, x);
        if x in Flatten(ss) {
          var k :| 0 <= k < |ss| && x in ss[k];
          assert ss[k] == DecorationEntries(ts[k]);
        }
        if exists k :: 0 <= k < |ts| && x in DecorationEntries(ts[k]) {
          var k :| 0 <= k < |ts| && x in DecorationEntries(ts[k]);
          assert x in ss[k];
        }
      }
    }
    Flatten(ss)
  }

  /** The flattened decorations are tile `k`'s entries between those of the
      tiles before it and those of the tiles after it: every tile's list in
      tile order, with one `None` for a tile without a list. */
  lemma FlattenDecorationsAt(ts: seq<Tile>, k: int)
    requires 0 <= k < |ts|
    ensures FlattenDecorations(ts) == FlattenDecorations(ts[..k]) + DecorationEntries(ts[k]) + FlattenDecorations(ts[k + 1..])
  {
    var ss := seq(|ts|, i requires 0 <= i < |ts| => DecorationEntries(ts[i]));
    FlattenSplit(ss, k);
    var pre, post := ts[..k], ts[k + 1..];
    var sPre := seq(|pre|, i requires 0 <= i < |pre| => DecorationEntries(pre[i]));
    var sPost := seq(|post|, i requires 0 <= i < |post| => DecorationEntries(post[i]));
    assert |ss[..k]| == |sPre| && forall i :: 0 <= i < k ==> ss[..k][i] == sPre[i];
    assert ss[..k] == sPre;
    assert |ss[k + 1..]| == |sPost| && forall i :: 0 <= i < |post| ==> ss[k + 1..][i] == sPost[i];
    assert ss[k + 1..] == sPost;
  }

  /** The object branch of `export`. */
  datatype LevelObject = LevelObject(angleData: seq<real>, settings: Settings, actions: seq<Event>, decorations: seq<Option<Event>>)

  /** Split/flatten round trip: taking floor `i` of the exported action list
      gives tile `i`'s actions, in order, without their `floor`. */
  lemma ExportActionsRoundTrip(ts: seq<Tile>, i: int)
    requires 0 <= i < |ts|
    ensures FloorEvents(FlattenActionsWithFloor(ts), i) == Map(StripFloor, ActionsOf(ts[i]))
  {
    FloorEventsAsFilter(FlattenActionsWithFloor(ts), i);
    var ss := seq(|ts|, k requires 0 <= k < |ts| => ActionsWithFloor(ts[k], k));
    FilterFlatten(ss, OnFloor(i));
    var fs := seq(|ss|, k requires 0 <= k < |ss| => Filter(ss[k], OnFloor(i)));
    forall k | 0 <= k < |ss|
      ensures fs[k] == if k == i then ss[i] else []
    {
      if k == i {
        FilterAllPass(ss[k], OnFloor(i));
      } else {
        FilterNonePass(ss[k], OnFloor(i));
      }
    }
    FlattenSingle(fs, i);
  }

  /** Decorations come back in tile order without `floor`, so a level that
      is exported and loaded again keeps none of them on any tile. */
  lemma ExportedDecorationsHaveNoFloor(agd: seq<real>, acts: seq<Event>, decos: seq<Event>)
    ensures var ts := LoadRun(agd, acts, decos, |agd|, -180.0, 0).tiles;
      forall x :: x in FlattenDecorations(ts) ==> x.Some? && x.value.floor.None?
  {
    var ts := LoadRun(agd, acts, decos, |agd|, -180.0, 0).tiles;
    forall k | 0 <= k < |ts|
      ensures FloorlessDecorations(ts[k])
    {
      LoadedFields(agd, acts, decos, k);
    }
    FlattenFloorless(ts);
  }

  /** A tile whose decoration list exists and holds no `floor`. */
  predicate FloorlessDecorations(t: Tile)
  {
    t.addDecorations.Some? && forall j :: 0 <= j < |t.addDecorations.value| ==> t.addDecorations.value[j].floor.None?
  }

  lemma FlattenFloorless(ts: seq<Tile>)
    requires forall k :: 0 <= k < |ts| ==> FloorlessDecorations(ts[k])
    ensures forall x :: x in FlattenDecorations(ts) ==> x.Some? && x.value.floor.None?
  {
    var ss := seq(|ts|, i requires 0 <= i < |ts| => DecorationEntries(ts[i]));
    forall x | x in FlattenDecorations(ts)
      ensures x.Some? && x.value.floor.None?
    {
      FlattenMember(ss, x);
      var k :| 0 <= k < |ss| && x in ss[k];
      var j :| 0 <= j < |ss[k]| && ss[k][j] == x;
      assert FloorlessDecorations(ts[k]);
    }
  }

  /** The indexed actions of every tile, in tile order then stored order. */
  function IndexedActions(ts: seq<Tile>): seq<IndexedAction>
  {
    Flatten(seq(|ts|, i requires 0 <= i < |ts| => Map((e: Event) => IndexedAction(i, e), ActionsOf(ts[i]))))
  }

  function HasType(en: string): IndexedAction -> bool
  {
    (p: IndexedAction) => p.action.eventType == en
  }

  function AtIndex(index: int): IndexedAction -> bool
  {
    (p: IndexedAction) => p.index == index
  }

  function EventHasType(en: string): Event -> bool
  {
    (e: Event) => e.eventType == en
  }

  function ActionOf(p: IndexedAction): Event
  {
    p.action
  }

  /** The result of `getActionsByIndex`. */
  datatype ActionMatches = ActionMatches(count: nat, actions: seq<Event>)

  lemma IndexedActionsMember(ts: seq<Tile>, p: IndexedAction)
    ensures p in IndexedActions(ts) <==> 0 <= p.index < |ts| && p.action in ActionsOf(ts[p.index])
  {
    var ss := seq(|ts|, i requires 0 <= i < |ts| => Map((e: Event) => IndexedAction(i, e), ActionsOf(ts[i])));
    FlattenMember(ss, p);
    if p in IndexedActions(ts) {
      var k :| 0 <= k < |ss| && p in ss[k];
      var j :| 0 <= j < |ss[k]| && ss[k][j] == p;
    }
    if 0 <= p.index < |ts| && p.action in ActionsOf(ts[p.index]) {
      var j :| 0 <= j < |ActionsOf(ts[p.index])| && ActionsOf(ts[p.index])[j] == p.action;
      assert ss[p.index][j] == p;
    }
  }

  /** Pairs whose indexes never decrease. */
  predicate IndexSorted(s: seq<IndexedAction>)
  {
    forall a, b :: 0 <= a < b < |s| ==> s[a].index <= s[b].index
  }

  /** Flattening groups whose `k`-th group holds only index `k` lists the
      pairs by ascending index. */
  lemma {:induction false} FlattenGroupsSorted(ss: seq<seq<IndexedAction>>)
    requires forall k, j :: 0 <= k < |ss| && 0 <= j < |ss[k]| ==> ss[k][j].index == k
    ensures forall a :: 0 <= a < |Flatten(ss)| ==> 0 <= Flatten(ss)[a].index < |ss|
    ensures IndexSorted(Flatten(ss))
  {
    if |ss| > 0 {
      var init := ss[..|ss| - 1];
      FlattenGroupsSorted(init);
      var f: seq<IndexedAction> := Flatten(init);
      var last: seq<IndexedAction> := ss[|ss| - 1];
      assert Flatten(ss) == f + last;
      forall a | 0 <= a < |f + last|
        ensures (f + last)[a].index == if a < |f| then f[a].index else |ss| - 1
      {
        if a >= |f| {
          assert (f + last)[a] == last[a - |f|];
        }
      }
    }
  }

  /** Filtering keeps pairs sorted by index, and above any lower bound of
      the input's indexes. */
  lemma {:induction false} FilterKeepsIndexSorted(s: seq<IndexedAction>, p: IndexedAction -> bool, lo: int)
    requires IndexSorted(s) && forall a :: 0 <= a < |s| ==> lo <= s[a].index
    ensures IndexSorted(Filter(s, p))
    ensures forall a :: 0 <= a < |Filter(s, p)| ==> lo <= Filter(s, p)[a].index
  {
    if |s| > 0 {
      var tail := s[1..];
      assert forall a :: 0 <= a < |tail| ==> tail[a] == s[a + 1];
      FilterKeepsIndexSorted(tail, p, s[0].index);
      var rest := Filter(tail, p);
      var head := if p(s[0]) then [s[0]] else [];
      assert Filter(s, p) == head + rest;
      SortedCons(head, rest, s[0].index, lo);
    }
  }

  /** At most one pair at index `m` before sorted pairs at or above `m`. */
  lemma SortedCons(head: seq<IndexedAction>, rest: seq<IndexedAction>, m: int, lo: int)
    requires |head| <= 1 && forall a :: 0 <= a < |head| ==> head[a].index == m
    requires lo <= m && IndexSorted(rest) && forall a :: 0 <= a < |rest| ==> m <= rest[a].index
    ensures IndexSorted(head + rest) && forall a :: 0 <= a < |head + rest| ==> lo <= (head + rest)[a].index
  {
    forall a | 0 <= a < |head + rest|
      ensures (head + rest)[a] == if a < |head| then head[a] else rest[a - |head|]
    {
    }
  }

  /** The flattened pairs are listed in tile order. */
  lemma IndexedActionsSorted(ts: seq<Tile>)
    ensures IndexSorted(IndexedActions(ts))
  {
    var ss := seq(|ts|, i requires 0 <= i < |ts| => Map((e: Event) => IndexedAction(i, e), ActionsOf(ts[i])));
    FlattenGroupsSorted(ss);
  }

  lemma {:induction false} ActionsOfPairs(i: int, acts: seq<Event>, en: string)
    ensures Map(ActionOf, Filter(Map((e: Event) => IndexedAction(i, e), acts), HasType(en))) == Filter(acts, EventHasType(en))
  {
    if |acts| > 0 {
      ActionsOfPairs(i, acts[1..], en);
      var pairs := Map((e: Event) => IndexedAction(i, e), acts);
      assert pairs[1..] == Map((e: Event) => IndexedAction(i, e), acts[1..]);
      assert pairs[0] == IndexedAction(i, acts[0]);
      var head := if HasType(en)(pairs[0]) then [pairs[0]] else [];
      var rest := Filter(pairs[1..], HasType(en));
      assert Filter(pairs, HasType(en)) == head + rest;
      MapConcat(ActionOf, head, rest);
      assert Map(ActionOf, head) == if EventHasType(en)(acts[0]) then [acts[0]] else [];
    }
  }

  /** A preset for `clearEvent`: include keeps the listed event types,
      exclude removes them, any other type does nothing. */
  datatype PresetType = Include | Exclude | Special
  datatype Preset = Preset(presetType: PresetType, events: seq<string>)

  // ---------------------------------------------------------------------
  // The level object

  class Level {
    var angleData: seq<real>
    var actions: seq<Event>
    var settings: Settings
    var decorations: seq<Event>
    var tiles: seq<Tile>
    var angleDir: real
    var twirlCount: nat

    /** The synchronous part of `load` for options given as an object with an
        angle list: missing action and decoration lists become empty, the
        heading starts at -180 and the twirl count at 0, then the tiles are
        built. */
    constructor Load(angleData0: seq<real>, actions0: Option<seq<Event>>, settings0: Settings, decorations0: Option<seq<Event>>)
      ensures angleData == angleData0 && settings == settings0
      ensures actions == actions0.GetOr([]) && decorations == decorations0.GetOr([])
      ensures LoadState(tiles, angleDir, twirlCount) == LoadRun(angleData, actions, decorations, |angleData|, -180.0, 0)
    {
      angleData := angleData0;
      actions := actions0.GetOr([]);
      settings := settings0;
      decorations := decorations0.GetOr([]);
      tiles := [];
      angleDir := -180.0;
      twirlCount := 0;
      new;
      var m := CreateArray(angleData, actions, decorations);
      tiles := m;
    }

    /** `_filterByFloor`: the events of floor `i` without `floor`, counting
        their Twirl events into the twirl counter. */
    method FilterByFloor(arr: seq<Event>, i: int) returns (r: seq<Event>)
      modifies this`twirlCount
      ensures r == FloorEvents(arr, i)
      ensures twirlCount == old(twirlCount) + TwirlsOnFloor(arr, i)
    {
      var actionT := Filter(arr, OnFloor(i));
      twirlCount := twirlCount + |Filter(actionT, IsTwirl)|;
      r := Map(StripFloor, actionT);
      FloorEventsAsFilter(arr, i);
      TwirlsOnFloorAsFilter(arr, i);
    }

    /** `_filterByFloorwithDeco`: the same selection, counting nothing. */
    function FilterByFloorWithDeco(arr: seq<Event>, i: int): (r: seq<Event>)
      ensures r == FloorEvents(arr, i)
    {
      FloorEventsAsFilter(arr, i);
      Map(StripFloor, Filter(arr, OnFloor(i)))
    }

    /** `_parseAngle`, updating the heading. */
    method ParseAngle(agd: seq<real>, i: nat, isTwirl: nat) returns (prev: real)
      requires i < |agd|
      modifies this`angleDir
      ensures (prev, angleDir) == ParseAngleResult(old(angleDir), agd, i, isTwirl)
    {
      prev := 0.0;
      if i == 0 {
        angleDir := 180.0;
      }
      if agd[i] == Midspin {
        // agd[-1] is undefined, and the NaN guard turns it into 0
        angleDir := if i == 0 then 0.0 else agd[i - 1];
        prev := 0.0;
      } else {
        if isTwirl == 0 {
          prev := Rem360(angleDir - agd[i]);
        } else {
          prev := 360.0 - Rem360(angleDir - agd[i]);
        }
        if prev == 0.0 {
          prev := 360.0;
        }
        angleDir := agd[i] + 180.0;
      }
    }

    /** `_parsechangedAngle`, updating the heading. */
    method ParseChangedAngle(agd: real, i: nat, isTwirl: nat, lstagd: real) returns (prev: real)
      modifies this`angleDir
      ensures (prev, angleDir) == ChangedAngleResult(old(angleDir), agd, i, isTwirl, lstagd)
    {
      prev := 0.0;
      if i == 0 {
        angleDir := 180.0;
      }
      if agd == Midspin {
        angleDir := lstagd;
        prev := 0.0;
      } else {
        if isTwirl == 0 {
          prev := Rem360(angleDir - agd);
        } else {
          prev := 360.0 - Rem360(angleDir - agd);
        }
        if prev == 0.0 {
          prev := 360.0;
        }
        angleDir := agd + 180.0;
      }
    }

    /** `_createArray`: builds one tile per direction, evaluating the
        tile's fields in source order. */
    method CreateArray(agd: seq<real>, acts: seq<Event>, decos: seq<Event>) returns (m: seq<Tile>)
      modifies this`angleDir, this`twirlCount
      ensures LoadState(m, angleDir, twirlCount) == LoadRun(agd, acts, decos, |agd|, old(angleDir), old(twirlCount))
    {
      m := [];
      for i := 0 to |agd|
        invariant LoadState(m, angleDir, twirlCount) == LoadRun(agd, acts, decos, i, old(angleDir), old(twirlCount))
      {
        ghost var prev := LoadState(m, angleDir, twirlCount);
        var direction := agd[i];
        var lastdir := if i == 0 then 0.0 else agd[i - 1];
        var tileActions := FilterByFloor(acts, i);
        var angle := ParseAngle(agd, i, twirlCount % 2);
        var addDecorations := FilterByFloorWithDeco(decos, i);
        var twirl := twirlCount;
        m := m + [Tile(direction, angle, Some(tileActions), Some(addDecorations), lastdir, twirl)];
        assert LoadState(m, angleDir, twirlCount) == LoadStep(prev, agd, acts, decos, i);
      }
    }

    /** `_changeAngle`: recomputes every tile's angle in place, passing
        1-based positions. */
    method ChangeAngle()
      modifies this`tiles, this`angleDir
      ensures (tiles, angleDir) == Recompute(old(tiles), old(angleDir))
    {
      var y := 0;
      var m: seq<Tile> := [];
      while y < |tiles|
        invariant 0 <= y <= |tiles|
        invariant tiles == old(tiles)
        invariant (m, angleDir) == RecomputeRun(tiles, old(angleDir), y)
      {
        var t := tiles[y];
        y := y + 1;
        var a := ParseChangedAngle(t.direction, y, t.twirl, t.lastDir);
        m := m + [t.(angle := a)];
      }
      tiles := m;
    }

    /** `appendFloor`: pushes a tile after the last one and recomputes the
        angles. Reading the last tile of an empty list throws, which is
        reported as `false` with nothing changed. */
    method AppendFloor(direction: real) returns (ok: bool)
      modifies this`tiles, this`angleDir
      ensures ok == (|old(tiles)| > 0)
      ensures ok ==> (tiles, angleDir) == Recompute(AppendTile(old(tiles), direction), old(angleDir))
      ensures !ok ==> tiles == old(tiles) && angleDir == old(angleDir)
    {
      if |tiles| == 0 {
        return false;
      }
      tiles := tiles + [Tile(direction, 0.0, Some([]), Some([]), tiles[|tiles| - 1].direction, tiles[|tiles| - 1].twirl)];
      ChangeAngle();
      return true;
    }

    /** `floorOperation`: append, insert or delete, then recompute. An
        insert whose predecessor does not exist throws before changing
        anything, which is reported as `false`. */
    method FloorOperation(info: FloorOp) returns (ok: bool)
      modifies this`tiles, this`angleDir
      ensures ok == FloorOpSucceeds(old(tiles), info)
      ensures ok ==> (tiles, angleDir) == FloorOpResult(old(tiles), old(angleDir), info)
      ensures !ok ==> tiles == old(tiles) && angleDir == old(angleDir)
    {
      match info {
        case Append(d) =>
          ok := AppendFloor(d);
          if !ok {
            return;
          }
        case Insert(d, id) =>
          if id.Some? {
            if !(1 <= id.value <= |tiles|) {
              return false;
            }
            tiles := tiles[..id.value] + [Tile(d, 0.0, Some([]), Some([]), tiles[id.value - 1].direction, tiles[id.value - 1].twirl)] + tiles[id.value..];
          }
          ok := true;
        case Delete(id) =>
          if id.Some? {
            var s := SpliceStart(id.value, |tiles|);
            if s < |tiles| {
              tiles := tiles[..s] + tiles[s + 1..];
            }
          }
          ok := true;
      }
      ChangeAngle();
    }

    /** `clearDeco` */
    method ClearDeco() returns (r: bool)
      modifies this`tiles
      ensures r && tiles == EffectProcessor.ClearDecorations(old(tiles))
    {
      tiles := EffectProcessor.ClearDecorations(tiles);
      return true;
    }

    /** `clearEvent` */
    method ClearEvent(preset: Preset)
      modifies this`tiles
      ensures preset.presetType == Include ==> tiles == EffectProcessor.KeepEvents(preset.events, old(tiles))
      ensures preset.presetType == Exclude ==> tiles == EffectProcessor.ClearEvents(preset.events, old(tiles))
      ensures preset.presetType == Special ==> tiles == old(tiles)
    {
      if preset.presetType == Include {
        tiles := EffectProcessor.KeepEvents(preset.events, tiles);
      } else if preset.presetType == Exclude {
        tiles := EffectProcessor.ClearEvents(preset.events, tiles);
      }
    }

    /** `filterActionsByEventType(en)`: every (tile index, action) pair whose
        action has type `en`, in tile order then stored order. */
    function FilterActionsByEventType(en: string): (r: seq<IndexedAction>)
      reads this
      ensures forall p :: p in r <==>
        0 <= p.index < |tiles| && p.action in ActionsOf(tiles[p.index]) && p.action.eventType == en
      ensures IndexSorted(r)
      ensures forall i :: 0 <= i < |tiles| ==>
        Map(ActionOf, Filter(r, AtIndex(i))) == Filter(ActionsOf(tiles[i]), EventHasType(en))
    {
      var all := IndexedActions(tiles);
      assert forall p :: p in all <==> 0 <= p.index < |tiles| && p.action in ActionsOf(tiles[p.index]) by {
        forall p {
          IndexedActionsMember(tiles, p);
        }
      }
      IndexedActionsSorted(tiles);
      FilterKeepsIndexSorted(all, HasType(en), 0);
      assert forall i :: 0 <= i < |tiles| ==>
        Map(ActionOf, Filter(Filter(all, HasType(en)), AtIndex(i))) == Filter(ActionsOf(tiles[i]), EventHasType(en)) by {
        forall i | 0 <= i < |tiles| {
          GetActionsByIndexCorrect(tiles, en, i);
        }
      }
      Filter(all, HasType(en))
    }

    /** `getActionsByIndex(en, index)`: tile `index`'s actions of type `en`,
        in stored order, and how many there are; none when there is no such
        tile. */
    function GetActionsByIndex(en: string, index: int): (r: ActionMatches)
      reads this
      ensures r.count == |r.actions|
      ensures 0 <= index < |tiles| ==> r.actions == Filter(ActionsOf(tiles[index]), EventHasType(en))
      ensures !(0 <= index < |tiles|) ==> r.actions == []
    {
      var matches := Filter(FilterActionsByEventType(en), AtIndex(index));
      GetActionsByIndexCorrect(tiles, en, index);
      ActionMatches(|matches|, Map(ActionOf, matches))
    }

    /** The object branch of `export`: the directions, the settings, every
        action tagged with its tile index, and the decorations. */
    function ExportObject(): (r: LevelObject)
      reads this
      ensures |r.angleData| == |tiles| && forall i :: 0 <= i < |tiles| ==> r.angleData[i] == tiles[i].direction
      ensures r.settings == settings
      ensures forall i :: 0 <= i < |tiles| ==> FloorEvents(r.actions, i) == Map(StripFloor, ActionsOf(tiles[i]))
      ensures forall e :: e in r.actions ==> e.floor.Some? && 0 <= e.floor.value < |tiles|
      ensures r.decorations == FlattenDecorations(tiles)
    {
      var r := LevelObject(FlattenAngleData(tiles), settings, FlattenActionsWithFloor(tiles), FlattenDecorations(tiles));
      assert forall i :: 0 <= i < |tiles| ==> FloorEvents(r.actions, i) == Map(StripFloor, ActionsOf(tiles[i])) by {
        forall i | 0 <= i < |tiles| {
          ExportActionsRoundTrip(tiles, i);
        }
      }
      r
    }
  }

  lemma GetActionsByIndexCorrect(ts: seq<Tile>, en: string, index: int)
    ensures var m := Filter(Filter(IndexedActions(ts), HasType(en)), AtIndex(index));
      Map(ActionOf, m) == if 0 <= index < |ts| then Filter(ActionsOf(ts[index]), EventHasType(en)) else []
  {
    var ss := seq(|ts|, i requires 0 <= i < |ts| => Map((e: Event) => IndexedAction(i, e), ActionsOf(ts[i])));
    FilterCommute(IndexedActions(ts), HasType(en), AtIndex(index));
    FilterFlatten(ss, AtIndex(index));
    var fs := seq(|ss|, k requires 0 <= k < |ss| => Filter(ss[k], AtIndex(index)));
    forall k | 0 <= k < |ss|
      ensures fs[k] == if k == index then ss[k] else []
    {
      if k == index {
        FilterAllPass(ss[k], AtIndex(index));
      } else {
        FilterNonePass(ss[k], AtIndex(index));
      }
    }
    if 0 <= index < |ts| {
      FlattenSingle(fs, index);
      ActionsOfPairs(index, ActionsOf(ts[index]), en);
    } else {
      assert forall k :: 0 <= k < |fs| ==> fs[k] == [];
      if |fs| > 0 {
        FlattenSingle(fs, 0);
      }
    }
  }
}
