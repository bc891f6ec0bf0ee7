/**
 * The host-server values the plugin reads and writes: item stacks, their
 * persistent data container (PDC) and their lore. Stacks are values here; a
 * nullable stack is an `Option<Item>`. An AIR stack carries no meta, as on
 * the server, where `getItemMeta` of air is null.
 */
module Items {
  import opened Wrappers
  import opened JavaText

  /** A typed PDC entry (STRING, INTEGER, LONG or BYTE). */
  datatype PdcValue = PStr(str: string) | PInt(i32: Int32) | PLong(i64: int) | PByte(b8: int)

  type Pdc = map<string, PdcValue>

  /** Item meta: the persistent data container and the (untranslated) lore lines. */
  datatype Meta = Meta(pdc: Pdc, lore: seq<string>)

  /** An item stack: material name, amount and meta (absent for AIR). */
  datatype Item = Item(material: string, amount: int, meta: Option<Meta>)

  const AIR: string := "AIR"

  /** The stack is null or of material AIR. */
  predicate IsNothing(s: Option<Item>) {
    s.None? || s.value.material == AIR
  }

  /** `Material.isAir()`: the three air materials. */
  predicate IsAirMaterial(m: string) {
    m in {AIR, "CAVE_AIR", "VOID_AIR"}
  }

  /** `new ItemStack(Material.AIR)`. */
  function AirStack(): Item {
    Item(AIR, 1, None)
  }

  /** A typed read: absent when the key is missing or holds another type. */
  function GetString(p: Pdc, key: string): Option<string> {
    if key in p && p[key].PStr? then Some(p[key].str) else None
  }

  function GetInt(p: Pdc, key: string): Option<int> {
    if key in p && p[key].PInt? then Some(p[key].i32) else None
  }

  /** The same read, keeping the value's Java `int` type. */
  function GetInt32(p: Pdc, key: string): (r: Option<Int32>)
    ensures r.Some? <==> GetInt(p, key).Some?
    ensures r.Some? ==> r.value == GetInt(p, key).value
  {
    if key in p && p[key].PInt? then Some(p[key].i32) else None
  }

  function GetLong(p: Pdc, key: string): Option<int> {
    if key in p && p[key].PLong? then Some(p[key].i64) else None
  }

  function GetByte(p: Pdc, key: string): Option<int> {
    if key in p && p[key].PByte? then Some(p[key].b8) else None
  }

  /** Paper's equipment slots. */
  datatype EquipmentSlot = HAND | OFF_HAND | HEAD | CHEST | LEGS | FEET

  predicate IsHelmetName(n: string) { EndsWith(n, "_HELMET") }
  predicate IsChestplateName(n: string) { EndsWith(n, "_CHESTPLATE") }
  predicate IsLeggingsName(n: string) { EndsWith(n, "_LEGGINGS") }
  predicate IsBootsName(n: string) { EndsWith(n, "_BOOTS") }

  /** The armour test shared by every listener: one of the four armour suffixes. */
  predicate IsArmorName(n: string) {
    IsHelmetName(n) || IsChestplateName(n) || IsLeggingsName(n) || IsBootsName(n)
  }

  /**
   * `armorSlot`: the slot named by the armour suffix, tested in the order
   * helmet, chestplate, leggings, boots; None for anything else.
   */
  function ArmorSlotOf(n: string): (r: Option<EquipmentSlot>)
    ensures r.Some? <==> IsArmorName(n)
    ensures r.Some? ==> r.value in {HEAD, CHEST, LEGS, FEET}
    ensures r == Some(HEAD) <==> IsHelmetName(n)
    ensures r == Some(FEET) ==> IsBootsName(n)
  {
    if IsHelmetName(n) then Some(HEAD)
    else if IsChestplateName(n) then Some(CHEST)
    else if IsLeggingsName(n) then Some(LEGS)
    else if IsBootsName(n) then Some(FEET)
    else None
  }

  /** The weapon test of the add-on listeners and the anvil: a sword, axe or spear, or the trident. */
  predicate IsWeaponName(n: string) {
    EndsWith(n, "_SWORD") || EndsWith(n, "_AXE") || EndsWith(n, "_SPEAR") || n == "TRIDENT"
  }

  /** A pickaxe, axe, shovel or hoe, or a weapon. */
  predicate IsToolOrWeaponName(n: string) {
    EndsWith(n, "_PICKAXE") || EndsWith(n, "_AXE") || EndsWith(n, "_SHOVEL") || EndsWith(n, "_HOE")
    || IsWeaponName(n)
  }

  /** The four worn armour pieces (`getHelmet`, `getChestplate`, `getLeggings`, `getBoots`). */
  datatype ArmorSet = ArmorSet(helmet: Option<Item>, chestplate: Option<Item>, leggings: Option<Item>, boots: Option<Item>)
}
