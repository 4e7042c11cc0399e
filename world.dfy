/** The world: a registry of dimensions keyed by identifier and kept in
    registration order, the tick driver that ticks each dimension once per
    world tick in that order, and the world-wide broadcasts of chat text and
    of a player's full ability and attribute state. */
module WorldModel {
  import opened Common

  datatype DimensionType = Overworld | Nether | End

  /** One attribute component of a player, as `getAttributes()` lists it. */
  datatype AttributeComponent = AttributeComponent(
    identifier: string, effectiveMin: real, effectiveMax: real, currentValue: real, defaultValue: real)

  /** One ability component of a player, as `getAbilities()` lists it. */
  datatype AbilityComponent = AbilityComponent(flag: int, currentValue: bool)

  /** What the world reads of a player. */
  datatype Player = Player(
    uniqueId: int, runtimeId: int, abilities: seq<AbilityComponent>, attributes: seq<AttributeComponent>)

  /** One entry of an attribute-sync message. The modifier list is always
      sent empty. */
  datatype AttributeRecord = AttributeRecord(
    name: string, min: real, max: real, current: real, default: real, modifiers: seq<string>)

  /** One entry of an ability-sync message. */
  datatype AbilityFlag = AbilityFlag(flag: int, value: bool)

  datatype AbilityLayerType = Base

  datatype AbilityLayer = AbilityLayer(layerType: AbilityLayerType, flags: seq<AbilityFlag>)

  datatype ChatType = Raw

  /** The messages the world broadcasts to every session. */
  datatype Packet =
    | Text(chatType: ChatType, needsTranslation: bool, source: Option<string>, message: string,
           parameters: Option<seq<string>>, xuid: string, platformChatId: string)
    | UpdateAbilities(entityUniqueId: int, permissionLevel: int, commandPermissionLevel: int,
                      layers: seq<AbilityLayer>)
    | UpdateAttributes(runtimeEntityId: int, attributes: seq<AttributeRecord>, tick: int)

  /** The attribute-sync entry for one component, copied field by field. */
  function AttributeRecordOf(c: AttributeComponent): AttributeRecord {
    AttributeRecord(c.identifier, c.effectiveMin, c.effectiveMax, c.currentValue, c.defaultValue, [])
  }

  /** `getAttributes().map(...)`: one record per component, in order. */
  function AttributeRecords(cs: seq<AttributeComponent>): (r: seq<AttributeRecord>)
    ensures |r| == |cs|
    ensures forall i :: 0 <= i < |cs| ==>
      r[i].name == cs[i].identifier && r[i].min == cs[i].effectiveMin && r[i].max == cs[i].effectiveMax
      && r[i].current == cs[i].currentValue && r[i].default == cs[i].defaultValue && r[i].modifiers == []
  {
    if cs == [] then [] else [AttributeRecordOf(cs[0])] + AttributeRecords(cs[1..])
  }

  /** `getAbilities().map(...)`: one flag per component, in order, with the
      flag's value taken from the component's current value. */
  function AbilityFlags(cs: seq<AbilityComponent>): (r: seq<AbilityFlag>)
    ensures |r| == |cs|
    ensures forall i :: 0 <= i < |cs| ==> r[i].flag == cs[i].flag && r[i].value == cs[i].currentValue
  {
    if cs == [] then [] else [AbilityFlag(cs[0].flag, cs[0].currentValue)] + AbilityFlags(cs[1..])
  }

  /** The attribute mapping is order preserving: mapping a concatenation
      maps each part in place. */
  lemma {:induction false} AttributeRecordsAppend(xs: seq<AttributeComponent>, ys: seq<AttributeComponent>)
    ensures AttributeRecords(xs + ys) == AttributeRecords(xs) + AttributeRecords(ys)
  {
    if xs != [] {
      assert (xs + ys)[1..] == xs[1..] + ys;
      AttributeRecordsAppend(xs[1..], ys);
    }
  }

  /** The ability mapping is order preserving in the same way. */
  lemma {:induction false} AbilityFlagsAppend(xs: seq<AbilityComponent>, ys: seq<AbilityComponent>)
    ensures AbilityFlags(xs + ys) == AbilityFlags(xs) + AbilityFlags(ys)
  {
    if xs != [] {
      assert (xs + ys)[1..] == xs[1..] + ys;
      AbilityFlagsAppend(xs[1..], ys);
    }
  }

  /** The chat message `sendMessage` broadcasts: raw, untranslated, with no
      source player. */
  function MessagePacket(message: string): (p: Packet)
    ensures p.Text? && p.message == message && p.chatType == Raw && !p.needsTranslation
    ensures p.source.None? && p.parameters.None? && p.xuid == "" && p.platformChatId == ""
  {
    Text(Raw, false, None, message, None, "", "")
  }

  /** The full ability state of a player: a single base layer whose flags
      mirror the player's ability components; both permission levels are 2. */
  function AbilitiesPacket(player: Player): (p: Packet)
    ensures p.UpdateAbilities? && p.entityUniqueId == player.uniqueId
    ensures p.permissionLevel == 2 && p.commandPermissionLevel == 2
    ensures |p.layers| == 1 && p.layers[0].layerType == Base
    ensures |p.layers[0].flags| == |player.abilities|
    ensures p.layers[0].flags == AbilityFlags(player.abilities)
  {
    UpdateAbilities(player.uniqueId, 2, 2, [AbilityLayer(Base, AbilityFlags(player.abilities))])
  }

  /** The full attribute state of a player, one record per attribute
      component, with the tick field left at 0. */
  function AttributesPacket(player: Player): (p: Packet)
    ensures p.UpdateAttributes? && p.runtimeEntityId == player.runtimeId && p.tick == 0
    ensures |p.attributes| == |player.attributes|
    ensures p.attributes == AttributeRecords(player.attributes)
  {
    UpdateAttributes(player.runtimeId, AttributeRecords(player.attributes), 0)
  }

  /** A dimension of the world. Its own tick (entities and their components)
      is abstracted to a counter of the ticks it has received; the players it
      holds are a plain list. */
  class Dimension {
    const identifier: string
    const dimensionType: DimensionType
    const generator: string
    var players: seq<Player>
    var tickCount: nat

    constructor (identifier: string, dimensionType: DimensionType, generator: string)
      ensures this.identifier == identifier && this.dimensionType == dimensionType
      ensures this.generator == generator
      ensures players == [] && tickCount == 0
    {
      this.identifier := identifier;
      this.dimensionType := dimensionType;
      this.generator := generator;
      players := [];
      tickCount := 0;
    }

    /** One tick of the dimension. */
    method Tick()
      modifies this`tickCount
      ensures tickCount == old(tickCount) + 1
    {
      tickCount := tickCount + 1;
    }
  }

  class World {
    const name: string
    /** The identifier of the default dimension (`properties.dimension`). */
    const defaultDimension: string
    /** The dimensions by identifier. */
    var dimensions: map<string, Dimension>
    /** The identifiers of `dimensions` in insertion order: the order in which
        JavaScript's `Map` iterates them. */
    var order: seq<string>
    /** Every packet handed to the network's `broadcast`, oldest first. */
    var outbox: seq<Packet>
    /** Every error the world's logger has reported, oldest first. */
    ghost var errors: seq<string>
    /** The identifier of every dimension ticked, in call order. */
    ghost var trace: seq<string>

    /** The insertion order lists each registered identifier exactly once,
        and each dimension is stored under its own identifier. */
    ghost predicate Valid()
      reads this
    {
      && Distinct(order)
      && (forall id :: id in dimensions <==> id in order)
      && (forall id :: id in dimensions ==> dimensions[id].identifier == id)
    }

    constructor (name: string, defaultDimension: string)
      ensures Valid()
      ensures this.name == name && this.defaultDimension == defaultDimension
      ensures dimensions == map[] && order == [] && outbox == [] && errors == [] && trace == []
    {
      this.name := name;
      this.defaultDimension := defaultDimension;
      dimensions := map[];
      order := [];
      outbox := [];
      errors := [];
      trace := [];
    }

    /** The dimensions in iteration order. */
    function Dimensions(): (r: seq<Dimension>)
      reads this
      requires Valid()
      ensures |r| == |order|
      ensures forall i :: 0 <= i < |order| ==> r[i] == dimensions[order[i]] && r[i].identifier == order[i]
    {
      seq(|order|, i requires 0 <= i < |order| && order[i] in dimensions reads this => dimensions[order[i]])
    }

    /** Each dimension's player list, in iteration order. */
    function PlayerLists(): (r: seq<seq<Player>>)
      reads this, dimensions.Values
      requires Valid()
      ensures |r| == |order|
      ensures forall i :: 0 <= i < |order| ==> r[i] == dimensions[order[i]].players
    {
      var ds := Dimensions();
      seq(|ds|, i requires 0 <= i < |ds| reads ds => ds[i].players)
    }

    /** `getPlayers`: every dimension's players, concatenated in dimension
        order. */
    function GetPlayers(): (r: seq<Player>)
      reads this, dimensions.Values
      requires Valid()
      ensures |r| == TotalLength(PlayerLists())
      ensures r == Flatten(PlayerLists())
    {
      Flatten(PlayerLists())
    }

    /** `getDimension(name?)`: the dimension registered under `name`, or under
        the default dimension's identifier when no name is given; absent when
        nothing is registered there. */
    function GetDimension(name: Option<string>): (r: Option<Dimension>)
      reads this
      requires Valid()
      ensures r.Some? <==> name.GetOr(defaultDimension) in dimensions
      ensures r.Some? ==> r.value.identifier == name.GetOr(defaultDimension)
      ensures r.Some? ==> r.value == dimensions[name.GetOr(defaultDimension)]
    {
      var key := name.GetOr(defaultDimension);
      if key in dimensions then Some(dimensions[key]) else None
    }

    /** `registerDimension`: a new identifier gets a fresh dimension appended
        to the registry; an identifier already present is reported to the
        logger and its stored dimension is returned, with the registry left
        as it was. */
    method RegisterDimension(identifier: string, dimensionType: DimensionType, generator: string)
      returns (d: Dimension)
      requires Valid()
      modifies this`dimensions, this`order, this`errors
      ensures Valid()
      ensures identifier in old(dimensions) ==>
        && d == old(dimensions)[identifier]
        && dimensions == old(dimensions) && order == old(order)
        && errors == old(errors) + ["Failed to register dimension, dimension identifier [" + identifier + "] already exists!"]
      ensures identifier !in old(dimensions) ==>
        && fresh(d)
        && d.identifier == identifier && d.dimensionType == dimensionType && d.generator == generator
        && d.players == [] && d.tickCount == 0
        && dimensions == old(dimensions)[identifier := d]
        && order == old(order) + [identifier]
        && errors == old(errors)
    {
      if identifier in dimensions {
        errors := errors + ["Failed to register dimension, dimension identifier [" + identifier + "] already exists!"];
        return dimensions[identifier];
      }
      d := new Dimension(identifier, dimensionType, generator);
      dimensions := dimensions[identifier := d];
      order := order + [identifier];
    }

    /** `tick`: every registered dimension is ticked once, in registration
        order. */
    method Tick()
      requires Valid()
      modifies this`trace, dimensions.Values
      ensures Valid()
      ensures trace == old(trace) + order
      ensures forall id :: id in dimensions ==>
        dimensions[id].tickCount == old(dimensions[id].tickCount) + 1
      ensures forall id :: id in dimensions ==> dimensions[id].players == old(dimensions[id].players)
    {
      var i := 0;
      while i < |order|
        invariant 0 <= i <= |order|
        invariant trace == old(trace) + order[..i]
        invariant forall j :: 0 <= j < i ==>
          dimensions[order[j]].tickCount == old(dimensions[order[j]].tickCount) + 1
        invariant forall j :: i <= j < |order| ==>
          dimensions[order[j]].tickCount == old(dimensions[order[j]].tickCount)
        invariant forall id :: id in dimensions ==> dimensions[id].players == old(dimensions[id].players)
      {
        var d := dimensions[order[i]];
        d.Tick();
        trace := trace + [order[i]];
        i := i + 1;
      }
      forall id | id in dimensions
        ensures dimensions[id].tickCount == old(dimensions[id].tickCount) + 1
      {
        var j :| 0 <= j < |order| && order[j] == id;
      }
    }

    /** `sendMessage`: the chat message is broadcast to every session. */
    method SendMessage(message: string)
      modifies this`outbox
      ensures outbox == old(outbox) + [MessagePacket(message)]
    {
      outbox := outbox + [MessagePacket(message)];
    }

    /** `updateAbilities`: the player's full ability state is broadcast. */
    method UpdateAbilitiesOf(player: Player)
      modifies this`outbox
      ensures outbox == old(outbox) + [AbilitiesPacket(player)]
    {
      outbox := outbox + [AbilitiesPacket(player)];
    }

    /** `updateAttributes`: the player's full attribute state is broadcast. */
    method UpdateAttributesOf(player: Player)
      modifies this`outbox
      ensures outbox == old(outbox) + [AttributesPacket(player)]
    {
      outbox := outbox + [AttributesPacket(player)];
    }
  }

  /** Ticking the world visits every registered dimension exactly once and
      nothing else: each identifier occurs once in the iteration order. */
  lemma TickVisitsEachOnce(w: World, id: string)
    requires w.Valid()
    ensures Count(w.order, id) == (if id in w.dimensions then 1 else 0)
  {
    DistinctCountsOnce(w.order, id);
  }

  /** A player is among the world's players exactly when some registered
      dimension holds it. */
  lemma GetPlayersMembers(w: World, p: Player)
    requires w.Valid()
    ensures p in w.GetPlayers() <==> exists id :: id in w.dimensions && p in w.dimensions[id].players
  {
    var lists := w.PlayerLists();
    FlattenMembers(lists, p);
    if exists id :: id in w.dimensions && p in w.dimensions[id].players {
      var id :| id in w.dimensions && p in w.dimensions[id].players;
      var j :| 0 <= j < |w.order| && w.order[j] == id;
      assert p in lists[j];
    }
  }

  /** Asking for no dimension in particular is asking for the default one. */
  lemma DefaultDimensionLookup(w: World)
    requires w.Valid()
    ensures w.GetDimension(None) == w.GetDimension(Some(w.defaultDimension))
  {
  }
}
