/** The handler for a client's equipment (held item) packet. It resolves the
    session's player, reads the inventory slot the packet names, records that
    slot as selected, and then checks the client's item against the slot:
    a different network type or a different count disconnects the session
    as out of sync; otherwise a fresh equipment packet built from the
    server's own item is broadcast to the player's dimension, except to the
    player. An empty slot is accepted without any check. */
module MobEquipmentHandler {
  import opened Common

  /** An item as the protocol carries it: its network type id and, when the
      item is not the empty placeholder, its stack size. */
  datatype NetworkItem = NetworkItem(network: int, stackSize: Option<int>)

  datatype MobEquipmentPacket = MobEquipmentPacket(
    runtimeEntityId: int, item: NetworkItem, slot: int, selectedSlot: int, containerId: int)

  /** What the handler reads of an item stack in a slot: its type's network
      id and its amount. */
  datatype Item = Item(network: int, amount: int)

  datatype DisconnectReason = InvalidPlayer | BadPacket

  /** The two ways a reported item can disagree with the slot. */
  datatype Mismatch = RuntimeId | ItemCount

  /** What the handler does to the outside world: disconnect the session
      (with the message shown to the client, the reason code and the warning
      logged, if any), or broadcast a packet to a dimension except to one
      player. */
  datatype Outcome =
    | Disconnect(message: string, reason: DisconnectReason, warning: Option<string>)
    | BroadcastExcept(dimension: string, except: int, packet: MobEquipmentPacket)

  /** The serialised form of a slot's item; the empty slot is sent as the
      placeholder with network id 0. */
  function ToItemStack(item: Option<Item>): (r: NetworkItem)
    ensures item.None? ==> r.network == 0 && r.stackSize.None?
    ensures item.Some? ==> r.network == item.value.network && r.stackSize == Some(item.value.amount)
  {
    match item
    case None => NetworkItem(0, None)
    case Some(i) => NetworkItem(i.network, Some(i.amount))
  }

  /** The name of a mismatch in the disconnect message and the warning. */
  function MismatchText(kind: Mismatch): string {
    match kind
    case RuntimeId => "mismatch item runtimeid."
    case ItemCount => "mismatch item count."
  }

  const InvalidPlayerMessage := "Failed to connect due to an invalid player. Please try again."

  /** The disconnect for an inventory desync of the given kind. */
  function Desync(username: string, kind: Mismatch): Outcome {
    Disconnect("Inventory out of sync, " + MismatchText(kind), BadPacket,
               Some("Player " + username + " has been disconnected due to inventory out of sync, " + MismatchText(kind)))
  }

  /** The first check that fails, if any: the type is compared before the
      count, and an empty slot is never compared. */
  function Check(slotItem: Option<Item>, reported: NetworkItem): (r: Option<Mismatch>)
    ensures slotItem.None? ==> r.None?
    ensures r == Some(RuntimeId) <==> slotItem.Some? && slotItem.value.network != reported.network
    ensures r == Some(ItemCount) <==>
      slotItem.Some? && slotItem.value.network == reported.network
      && reported.stackSize != Some(slotItem.value.amount)
    ensures r.None? <==>
      slotItem.None?
      || (slotItem.value.network == reported.network && reported.stackSize == Some(slotItem.value.amount))
  {
    match slotItem
    case None => None
    case Some(item) =>
      if item.network != reported.network then Some(RuntimeId)
      else if Some(item.amount) != reported.stackSize then Some(ItemCount)
      else None
  }

  /** What a resolved player's packet leads to, given the item the
      server holds in the packet's selected slot. */
  function Reconcile(username: string, runtime: int, dimension: string, slotItem: Option<Item>,
                     packet: MobEquipmentPacket): Outcome
  {
    match Check(slotItem, packet.item)
    case Some(kind) => Desync(username, kind)
    case None =>
      BroadcastExcept(dimension, runtime,
        MobEquipmentPacket(runtime, ToItemStack(slotItem), packet.slot, packet.selectedSlot, packet.containerId))
  }

  /** The inventory's container: its slots, each empty or holding an item. */
  class Container {
    var slots: seq<Option<Item>>

    constructor (slots: seq<Option<Item>>)
      ensures this.slots == slots
    {
      this.slots := slots;
    }

    /** `getItem(slot)`: the item in the slot; empty for an empty slot and
        for an index outside the container. */
    function GetItem(slot: int): (r: Option<Item>)
      reads this
      ensures 0 <= slot < |slots| ==> r == slots[slot]
      ensures !(0 <= slot < |slots|) ==> r.None?
    {
      if 0 <= slot < |slots| then slots[slot] else None
    }
  }

  class Inventory {
    const container: Container
    var selectedSlot: int

    constructor (container: Container, selectedSlot: int)
      ensures this.container == container && this.selectedSlot == selectedSlot
    {
      this.container := container;
      this.selectedSlot := selectedSlot;
    }
  }

  /** What the handler reads of a player. */
  class Player {
    const username: string
    const runtime: int
    const dimension: string
    const inventory: Inventory

    constructor (username: string, runtime: int, dimension: string, inventory: Inventory)
      ensures this.username == username && this.runtime == runtime
      ensures this.dimension == dimension && this.inventory == inventory
    {
      this.username := username;
      this.runtime := runtime;
      this.dimension := dimension;
      this.inventory := inventory;
    }
  }

  /** `MobEquipment.handle`, with `player` the session's player (null when
      the session has none). Without a player the session is disconnected and
      nothing changes. Otherwise the selected slot becomes the packet's on
      every path, the rejected ones included; the slots never change; and the
      outcome is the reconciliation of the packet against the slot's item. */
  method Handle(packet: MobEquipmentPacket, player: Player?) returns (outcome: Outcome)
    modifies if player == null then {} else {player.inventory}
    ensures player == null ==> outcome == Disconnect(InvalidPlayerMessage, InvalidPlayer, None)
    ensures player != null ==>
      && player.inventory.selectedSlot == packet.selectedSlot
      && player.inventory.container.slots == old(player.inventory.container.slots)
      && outcome == Reconcile(player.username, player.runtime, player.dimension,
                              player.inventory.container.GetItem(packet.selectedSlot), packet)
  {
    if player == null {
      return Disconnect(InvalidPlayerMessage, InvalidPlayer, None);
    }
    var inventory := player.inventory;
    var item := inventory.container.GetItem(packet.selectedSlot);
    inventory.selectedSlot := packet.selectedSlot;
    if item.Some? && item.value.network != packet.item.network {
      return Desync(player.username, RuntimeId);
    } else if item.Some? && Some(item.value.amount) != packet.item.stackSize {
      return Desync(player.username, ItemCount);
    }
    var equipment := MobEquipmentPacket(
      player.runtime, ToItemStack(item), packet.slot, packet.selectedSlot, packet.containerId);
    outcome := BroadcastExcept(player.dimension, player.runtime, equipment);
  }

  /** A rejected packet disconnects with `BadPacket` and broadcasts nothing;
      the type mismatch is the one reported when both differ. */
  lemma RejectionIsBadPacket(username: string, runtime: int, dimension: string, slotItem: Option<Item>,
                             packet: MobEquipmentPacket)
    requires slotItem.Some?
    requires slotItem.value.network != packet.item.network || packet.item.stackSize != Some(slotItem.value.amount)
    ensures var r := Reconcile(username, runtime, dimension, slotItem, packet);
      && r.Disconnect? && r.reason == BadPacket
      && r.message == (if slotItem.value.network != packet.item.network
                       then "Inventory out of sync, mismatch item runtimeid."
                       else "Inventory out of sync, mismatch item count.")
  {
    var kind := if slotItem.value.network != packet.item.network then RuntimeId else ItemCount;
    assert Check(slotItem, packet.item) == Some(kind);
    if kind == RuntimeId {
      assert "Inventory out of sync, " + MismatchText(kind) == "Inventory out of sync, mismatch item runtimeid.";
    } else {
      assert "Inventory out of sync, " + MismatchText(kind) == "Inventory out of sync, mismatch item count.";
    }
  }

  /** A packet is accepted exactly when the slot is empty or holds an item of
      the reported type and count; the broadcast packet then names the
      player, carries the server's item, and copies slot, selected slot and
      container from the client's packet, and goes to the player's
      dimension without the player. */
  lemma AcceptedBroadcast(username: string, runtime: int, dimension: string, slotItem: Option<Item>,
                          packet: MobEquipmentPacket)
    ensures var r := Reconcile(username, runtime, dimension, slotItem, packet);
      && (r.BroadcastExcept? <==>
            slotItem.None?
            || (slotItem.value.network == packet.item.network && packet.item.stackSize == Some(slotItem.value.amount)))
      && (r.BroadcastExcept? ==>
            && r.dimension == dimension && r.except == runtime
            && r.packet.runtimeEntityId == runtime
            && r.packet.item == ToItemStack(slotItem)
            && r.packet.slot == packet.slot && r.packet.selectedSlot == packet.selectedSlot
            && r.packet.containerId == packet.containerId)
  {
  }

  /** An accepted packet's broadcast item agrees with what the client
      reported, except that an empty slot is always sent as the network-0
      placeholder whatever the client claimed. */
  lemma AcceptedItemMatchesReport(username: string, runtime: int, dimension: string, slotItem: Option<Item>,
                                  packet: MobEquipmentPacket)
    requires Reconcile(username, runtime, dimension, slotItem, packet).BroadcastExcept?
    ensures var sent := Reconcile(username, runtime, dimension, slotItem, packet).packet.item;
      && (slotItem.Some? ==> sent == NetworkItem(packet.item.network, packet.item.stackSize))
      && (slotItem.None? ==> sent == NetworkItem(0, None))
  {
  }
}
