/** The level entities shared by the loader, the filters and the stitcher:
    events (actions and decorations), tiles and level settings. */
module Structure {
  import opened Wrappers
  import opened JsonValues

  /** The `speedType` of a SetSpeed event. */
  datatype SpeedType = Bpm | Multiplier | OtherSpeed

  /** An event object. The fields the core reads are explicit; every other
      property travels untouched in `rest`. `floor` is present on the flat
      event lists of a level file and absent once an event sits on a tile.
      `beatsPerMinute` and `bpmMultiplier` are only meaningful on SetSpeed. */
  datatype Event = Event(
    eventType: string,
    floor: Option<int>,
    angleOffset: Option<real>,
    tag: Option<string>,
    speedType: SpeedType,
    beatsPerMinute: real,
    bpmMultiplier: real,
    duration: Option<real>,
    rest: seq<(string, Json)>)

  /** A tile: its raw direction, resolved angle, events, the previous raw
      direction and the running twirl count. A `None` event list is a
      property that is absent (or not an array). */
  datatype Tile = Tile(
    direction: real,
    angle: real,
    actions: Option<seq<Event>>,
    addDecorations: Option<seq<Event>>,
    lastDir: real,
    twirl: nat)

  /** Level settings; only the initial tempo is read by the core. */
  datatype Settings = Settings(bpm: real, rest: seq<(string, Json)>)

  /** `tile.actions || []` */
  function ActionsOf(t: Tile): seq<Event>
  {
    t.actions.GetOr([])
  }

  /** `tile.addDecorations || []` */
  function DecorationsOf(t: Tile): seq<Event>
  {
    t.addDecorations.GetOr([])
  }

  /** `x || 0` on an optional number. */
  function OrZero(x: Option<real>): real
  {
    x.GetOr(0.0)
  }

  /** A truthy `tag` property: present and not the empty string. */
  predicate HasTag(e: Event)
  {
    e.tag.Some? && e.tag.value != ""
  }
}
