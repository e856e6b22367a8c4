/** The event filters of the effect processor: each maps a tile list to a
    new tile list in which every tile's action list has been filtered. */
module EffectProcessor {
  import opened Wrappers
  import opened Seqs
  import opened Structure

  /** The `preset_inner_no_deco` event list: the decoration-driving actions. */
  const InnerNoDeco: seq<string> := ["MoveDecorations", "SetText", "SetObject", "SetDefaultText"]

  /** Keeps an action whose type is not listed. */
  function NotListed(types: seq<string>): Event -> bool
  {
    (e: Event) => e.eventType !in types
  }

  /** Keeps an action whose type is listed. */
  function Listed(types: seq<string>): Event -> bool
  {
    (e: Event) => e.eventType in types
  }

  /** Filters an optional action list; an absent list stays absent. */
  function FilterActions(actions: Option<seq<Event>>, p: Event -> bool): (r: Option<seq<Event>>)
    ensures r.Some? <==> actions.Some?
    ensures actions.Some? ==> forall e :: e in r.value <==> e in actions.value && p(e)
  {
    match actions
    case None => None
    case Some(evs) => Some(Filter(evs, p))
  }

  function ClearDecorationsTile(t: Tile): Tile
  {
    t.(addDecorations := if t.addDecorations.Some? then Some([]) else None,
       actions := FilterActions(t.actions, NotListed(InnerNoDeco)))
  }

  /** `clearDecorations`: every tile that has a decoration list gets an empty
      one (no tile gains one) and loses its decoration-driving actions. */
  function ClearDecorations(tiles: seq<Tile>): (r: seq<Tile>)
    ensures |r| == |tiles|
    ensures forall i :: 0 <= i < |r| ==>
      r[i] == tiles[i].(actions := r[i].actions, addDecorations := r[i].addDecorations)
    ensures forall i :: 0 <= i < |r| ==>
      (r[i].addDecorations.Some? <==> tiles[i].addDecorations.Some?) && DecorationsOf(r[i]) == []
    ensures forall i :: 0 <= i < |r| ==> (r[i].actions.Some? <==> tiles[i].actions.Some?)
    ensures forall i, e :: 0 <= i < |r| && tiles[i].actions.Some? ==>
      (e in ActionsOf(r[i]) <==> e in ActionsOf(tiles[i]) && e.eventType !in InnerNoDeco)
  {
    seq(|tiles|, i requires 0 <= i < |tiles| => ClearDecorationsTile(tiles[i]))
  }

  function ClearEventsTile(types: seq<string>, t: Tile): Tile
  {
    t.(actions := FilterActions(t.actions, NotListed(types)))
  }

  /** `clearEvents`: every tile keeps exactly the actions whose type is not listed. */
  function ClearEvents(types: seq<string>, tiles: seq<Tile>): (r: seq<Tile>)
    ensures |r| == |tiles|
    ensures forall i :: 0 <= i < |r| ==> r[i] == tiles[i].(actions := r[i].actions)
    ensures forall i :: 0 <= i < |r| ==> (r[i].actions.Some? <==> tiles[i].actions.Some?)
    ensures forall i, e :: 0 <= i < |r| && tiles[i].actions.Some? ==>
      (e in ActionsOf(r[i]) <==> e in ActionsOf(tiles[i]) && e.eventType !in types)
  {
    seq(|tiles|, i requires 0 <= i < |tiles| => ClearEventsTile(types, tiles[i]))
  }

  function KeepEventsTile(types: seq<string>, t: Tile): Tile
  {
    t.(actions := FilterActions(t.actions, Listed(types)))
  }

  /** `keepEvents`: every tile keeps exactly the actions whose type is listed. */
  function KeepEvents(types: seq<string>, tiles: seq<Tile>): (r: seq<Tile>)
    ensures |r| == |tiles|
    ensures forall i :: 0 <= i < |r| ==> r[i] == tiles[i].(actions := r[i].actions)
    ensures forall i :: 0 <= i < |r| ==> (r[i].actions.Some? <==> tiles[i].actions.Some?)
    ensures forall i, e :: 0 <= i < |r| && tiles[i].actions.Some? ==>
      (e in ActionsOf(r[i]) <==> e in ActionsOf(tiles[i]) && e.eventType in types)
  {
    seq(|tiles|, i requires 0 <= i < |tiles| => KeepEventsTile(types, tiles[i]))
  }

  /** The surviving actions keep their relative order: on a tile whose list
      is the concatenation of two parts, the result is the concatenation of
      the two parts filtered separately. */
  lemma ClearEventsKeepsOrder(types: seq<string>, t: Tile, a: seq<Event>, b: seq<Event>)
    requires t.actions == Some(a + b)
    ensures ActionsOf(ClearEvents(types, [t])[0])
         == ActionsOf(ClearEvents(types, [t.(actions := Some(a))])[0])
          + ActionsOf(ClearEvents(types, [t.(actions := Some(b))])[0])
  {
    FilterConcat(a, b, NotListed(types));
  }

  /** The kept actions keep their relative order, in the same sense. */
  lemma KeepEventsKeepsOrder(types: seq<string>, t: Tile, a: seq<Event>, b: seq<Event>)
    requires t.actions == Some(a + b)
    ensures ActionsOf(KeepEvents(types, [t])[0])
         == ActionsOf(KeepEvents(types, [t.(actions := Some(a))])[0])
          + ActionsOf(KeepEvents(types, [t.(actions := Some(b))])[0])
  {
    FilterConcat(a, b, Listed(types));
  }

  /** With the same type list, `keepEvents` and `clearEvents` split every
      tile's actions between them: each action lands in exactly one of the
      two results, as often as it occurs. */
  lemma KeepClearPartition(types: seq<string>, tiles: seq<Tile>, i: int)
    requires 0 <= i < |tiles|
    ensures multiset(ActionsOf(KeepEvents(types, tiles)[i])) + multiset(ActionsOf(ClearEvents(types, tiles)[i]))
         == multiset(ActionsOf(tiles[i]))
    ensures |ActionsOf(KeepEvents(types, tiles)[i])| + |ActionsOf(ClearEvents(types, tiles)[i])|
         == |ActionsOf(tiles[i])|
  {
    if tiles[i].actions.Some? {
      FilterComplement(tiles[i].actions.value, Listed(types), NotListed(types));
    }
  }

  /** Applying `clearEvents` twice with the same list equals applying it once. */
  lemma ClearEventsIdempotent(types: seq<string>, tiles: seq<Tile>)
    ensures ClearEvents(types, ClearEvents(types, tiles)) == ClearEvents(types, tiles)
  {
    var once := ClearEvents(types, tiles);
    forall i | 0 <= i < |tiles|
      ensures ClearEventsTile(types, once[i]) == once[i]
    {
      if tiles[i].actions.Some? {
        FilterIdempotent(tiles[i].actions.value, NotListed(types));
      }
    }
  }

  /** Applying `keepEvents` twice with the same list equals applying it once. */
  lemma KeepEventsIdempotent(types: seq<string>, tiles: seq<Tile>)
    ensures KeepEvents(types, KeepEvents(types, tiles)) == KeepEvents(types, tiles)
  {
    var once := KeepEvents(types, tiles);
    forall i | 0 <= i < |tiles|
      ensures KeepEventsTile(types, once[i]) == once[i]
    {
      if tiles[i].actions.Some? {
        FilterIdempotent(tiles[i].actions.value, Listed(types));
      }
    }
  }

  /** Applying `clearDecorations` twice equals applying it once. */
  lemma ClearDecorationsIdempotent(tiles: seq<Tile>)
    ensures ClearDecorations(ClearDecorations(tiles)) == ClearDecorations(tiles)
  {
    var once := ClearDecorations(tiles);
    forall i | 0 <= i < |tiles|
      ensures ClearDecorationsTile(once[i]) == once[i]
    {
      if tiles[i].actions.Some? {
        FilterIdempotent(tiles[i].actions.value, NotListed(InnerNoDeco));
      }
    }
  }

  /** `clearDecorations` removes the same actions as `clearEvents` given the
      `preset_inner_no_deco` list. */
  lemma ClearDecorationsActionsAsClearEvents(tiles: seq<Tile>)
    ensures forall i :: 0 <= i < |tiles| ==>
      ClearDecorations(tiles)[i].actions == ClearEvents(InnerNoDeco, tiles)[i].actions
  {
  }
}
