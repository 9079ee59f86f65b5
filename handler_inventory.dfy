/** The inventory handler: commander and ship identity, the material and
    ship-locker snapshots, module purchases and the cargo list. */
module InventoryHandler {
  import opened PyText
  import opened PyJson
  import opened State
  import opened EngineBase

  /** The kinds this handler claims. */
  const Kinds: seq<string> := ["Commander", "LoadGame", "Materials", "ShipLocker", "ModuleBuy", "Cargo"]

  predicate Claims(name: Json) {
    name.JStr? && name.s in Kinds
  }

  /** The groups the handler may change, whether it claimed the event, and its notices. */
  datatype InventoryStep = InventoryStep(cmdr: CommanderInfo, inventory: Inventory, handled: bool, msgs: seq<string>)

  /** Commander and LoadGame: a field that is missing or falsy keeps the
      previous value; the ship id changes only to an int. */
  function Identify(c: CommanderInfo, ev: Obj, nameField: string): CommanderInfo {
    c.(commander := Or(Get(ev, nameField), c.commander), ship := Or(Get(ev, "Ship"), c.ship),
       shipId := IntOr(Get(ev, "ShipID"), c.shipId))
  }

  /** One material category: parsed into its count and display maps when
      the event's value is not None, otherwise the maps it had. */
  function Parsed(current: (map<string, int>, map<string, string>), v: Json): (r: (map<string, int>, map<string, string>))
    ensures v == JNull ==> r == current
    ensures v != JNull ==> r == MaterialsSpec(v)
  {
    if v != JNull then MaterialsSpec(v) else current
  }

  /** Materials: each category present is parsed; the other categories and
      `materials_localised` stay. */
  function Restock(inv: Inventory, ev: Obj): Inventory {
    var raw := Parsed((inv.materialsRaw, inv.materialsRawLoc), Get(ev, "Raw"));
    var man := Parsed((inv.materialsManufactured, inv.materialsManufacturedLoc), Get(ev, "Manufactured"));
    var enc := Parsed((inv.materialsEncoded, inv.materialsEncodedLoc), Get(ev, "Encoded"));
    inv.(materialsRaw := raw.0, materialsRawLoc := raw.1, materialsManufactured := man.0,
      materialsManufacturedLoc := man.1, materialsEncoded := enc.0, materialsEncodedLoc := enc.1)
  }

  /** The message for a module purchase with a non-blank name. */
  function BoughtMessages(mod: Json): (r: seq<string>)
    ensures |r| <= 1
    ensures r != [] <==> IsNonBlankStr(mod)
  {
    if IsNonBlankStr(mod) then ["Module bought: " + mod.s] else []
  }

  /** `inventory.handle` on values. */
  function InventorySpec(c: CommanderInfo, inv: Inventory, name: Json, ev: Obj): (r: InventoryStep)
    ensures r.handled <==> Claims(name)
  {
    if name == JStr("Commander") then InventoryStep(Identify(c, ev, "Name"), inv, true, [])
    else if name == JStr("LoadGame") then InventoryStep(Identify(c, ev, "Commander"), inv, true, [])
    else if name == JStr("Materials") then InventoryStep(c, Restock(inv, ev), true, [])
    else if name == JStr("ShipLocker") then
      var locker := Get(ev, "Items");
      InventoryStep(c, if locker != JNull then
        inv.(shiplockerItems := ShipLockerSpec(locker).0, shiplockerItemsLoc := ShipLockerSpec(locker).1) else inv,
        true, [])
    else if name == JStr("ModuleBuy") then InventoryStep(c, inv, true, BoughtMessages(Get(ev, "BuyItem")))
    else if name == JStr("Cargo") then
      var items := Get(ev, "Inventory");
      InventoryStep(if items.JList? then c.(cargoInventory := items.items) else c, inv, true, [])
    else InventoryStep(c, inv, false, [])
  }

  /** Commander and LoadGame keep the commander and ship when the event's
      field is missing or falsy, take it otherwise, and take the ship id only
      when it is an int; nothing else changes. */
  lemma IdentityKept(c: CommanderInfo, inv: Inventory, name: Json, ev: Obj)
    requires name == JStr("Commander") || name == JStr("LoadGame")
    ensures var r := InventorySpec(c, inv, name, ev);
      var field := if name == JStr("Commander") then "Name" else "Commander";
      (Truthy(Get(ev, field)) ==> r.cmdr.commander == Get(ev, field))
      && (!Truthy(Get(ev, field)) ==> r.cmdr.commander == c.commander)
      && (Truthy(Get(ev, "Ship")) ==> r.cmdr.ship == Get(ev, "Ship"))
      && (!Truthy(Get(ev, "Ship")) ==> r.cmdr.ship == c.ship)
      && (IsInt(Get(ev, "ShipID")) ==> r.cmdr.shipId == Get(ev, "ShipID"))
      && (!IsInt(Get(ev, "ShipID")) ==> r.cmdr.shipId == c.shipId)
      && r.cmdr.(commander := c.commander, ship := c.ship, shipId := c.shipId) == c
      && r.inventory == inv && r.msgs == []
  {
  }

  /** Materials replaces a category's counts and display names exactly when
      the category key holds a value (`Parsed`), and never touches
      `materials_localised`, the ship locker or the commander. */
  lemma MaterialsPerCategory(c: CommanderInfo, inv: Inventory, ev: Obj)
    ensures var r := InventorySpec(c, inv, JStr("Materials"), ev);
      r.cmdr == c && r.msgs == []
      && (r.inventory.materialsRaw, r.inventory.materialsRawLoc)
        == Parsed((inv.materialsRaw, inv.materialsRawLoc), Get(ev, "Raw"))
      && (r.inventory.materialsManufactured, r.inventory.materialsManufacturedLoc)
        == Parsed((inv.materialsManufactured, inv.materialsManufacturedLoc), Get(ev, "Manufactured"))
      && (r.inventory.materialsEncoded, r.inventory.materialsEncodedLoc)
        == Parsed((inv.materialsEncoded, inv.materialsEncodedLoc), Get(ev, "Encoded"))
      && r.inventory.(materialsRaw := inv.materialsRaw, materialsRawLoc := inv.materialsRawLoc,
        materialsManufactured := inv.materialsManufactured, materialsManufacturedLoc := inv.materialsManufacturedLoc,
        materialsEncoded := inv.materialsEncoded, materialsEncodedLoc := inv.materialsEncodedLoc) == inv
  {
  }

  /** ShipLocker replaces the locker counts and display names only when
      `Items` holds a value; Cargo replaces the cargo list only with a list;
      neither sends a notice. */
  lemma SnapshotsGuarded(c: CommanderInfo, inv: Inventory, ev: Obj)
    ensures var r := InventorySpec(c, inv, JStr("ShipLocker"), ev);
      r.cmdr == c && r.msgs == []
      && (Get(ev, "Items") == JNull ==> r.inventory == inv)
      && (Get(ev, "Items") != JNull ==> r.inventory == inv.(shiplockerItems := ShipLockerSpec(Get(ev, "Items")).0,
        shiplockerItemsLoc := ShipLockerSpec(Get(ev, "Items")).1))
    ensures var r := InventorySpec(c, inv, JStr("Cargo"), ev);
      r.inventory == inv && r.msgs == []
      && (Get(ev, "Inventory").JList? ==> r.cmdr == c.(cargoInventory := Get(ev, "Inventory").items))
      && (!Get(ev, "Inventory").JList? ==> r.cmdr == c)
  {
  }

  /** A kind the handler does not claim changes nothing and sends nothing. */
  lemma InventoryDeclines(c: CommanderInfo, inv: Inventory, name: Json, ev: Obj)
    requires !Claims(name)
    ensures InventorySpec(c, inv, name, ev) == InventoryStep(c, inv, false, [])
  {
  }

  /** `inventory.handle(engine, name, event, msgs)`; `msgs` are the notices it appends. */
  method Handle(e: EventEngine, name: Json, ev: Obj) returns (handled: bool, msgs: seq<string>)
    modifies e.state`cmdr, e.state`inventory
    ensures InventoryStep(e.state.cmdr, e.state.inventory, handled, msgs)
      == InventorySpec(old(e.state.cmdr), old(e.state.inventory), name, ev)
  {
    msgs := [];
    handled := true;
    if name == JStr("Commander") {
      e.state.cmdr := e.state.cmdr.(commander := Or(Get(ev, "Name"), e.state.cmdr.commander));
      e.state.cmdr := e.state.cmdr.(ship := Or(Get(ev, "Ship"), e.state.cmdr.ship));
      e.state.cmdr := e.state.cmdr.(shipId := IntOr(Get(ev, "ShipID"), e.state.cmdr.shipId));
    } else if name == JStr("LoadGame") {
      e.state.cmdr := e.state.cmdr.(commander := Or(Get(ev, "Commander"), e.state.cmdr.commander));
      e.state.cmdr := e.state.cmdr.(ship := Or(Get(ev, "Ship"), e.state.cmdr.ship));
      var sid := Get(ev, "ShipID");
      if IsInt(sid) {
        e.state.cmdr := e.state.cmdr.(shipId := sid);
      }
    } else if name == JStr("Materials") {
      var raw, man, enc := Get(ev, "Raw"), Get(ev, "Manufactured"), Get(ev, "Encoded");
      if raw != JNull {
        var counts, loc := ParseMaterialsCategory(raw);
        e.state.inventory := e.state.inventory.(materialsRaw := counts, materialsRawLoc := loc);
      }
      if man != JNull {
        var counts, loc := ParseMaterialsCategory(man);
        e.state.inventory := e.state.inventory.(materialsManufactured := counts, materialsManufacturedLoc := loc);
      }
      if enc != JNull {
        var counts, loc := ParseMaterialsCategory(enc);
        e.state.inventory := e.state.inventory.(materialsEncoded := counts, materialsEncodedLoc := loc);
      }
    } else if name == JStr("ShipLocker") {
      var locker := Get(ev, "Items");
      if locker != JNull {
        var counts, loc := ParseShipLockerItems(locker);
        e.state.inventory := e.state.inventory.(shiplockerItems := counts, shiplockerItemsLoc := loc);
      }
    } else if name == JStr("ModuleBuy") {
      var mod := Get(ev, "BuyItem");
      if mod.JStr? && Strip(mod.s) != [] {
        msgs := msgs + ["Module bought: " + mod.s];
      }
    } else if name == JStr("Cargo") {
      var items := Get(ev, "Inventory");
      if items.JList? {
        e.state.cmdr := e.state.cmdr.(cargoInventory := items.items);
      }
    } else {
      handled := false;
    }
  }
}
