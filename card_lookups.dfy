/**
 * The pure lookups the card classes use while rendering: the shop's level
 * colour and the icon tables with their fallbacks.
 */
module CardLookups {
  import opened Wrappers

  /**
   * The colour a shop card shows for the player's current level of an
   * item. `None` stands for an absent level; it and `0` are JavaScript's
   * falsy levels.
   */
  function StatusColor(level: Option<int>): (color: string)
    ensures color == "#f00" <==> level == None || level == Some(0)
    ensures color == "#ff0" <==> level.Some? && level.value >= 5
    ensures color == "#0f0" <==> level.Some? && 3 <= level.value < 5
    ensures color == "#0ff" <==> level.Some? && level.value != 0 && level.value < 3
  {
    match level
    case None => "#f00"
    case Some(n) =>
      if n == 0 then "#f00"
      else if n >= 5 then "#ff0"
      else if n >= 3 then "#0f0"
      else "#0ff"
  }

  /** Hardware type to chip icon. */
  const HardwareIcons: map<string, string> :=
    map["CPU" := "img/chip_cpu.png",
        "Coprocessor" := "img/chip_coproc.png",
        "Attack FW" := "img/chip_attack.png",
        "Defense FW" := "img/chip_defense.png",
        "Stealth FW" := "img/chip_stealth.png",
        "Analysis FW" := "img/chip_analysis.png"]

  const GenericChipIcon := "img/chip_generic.png"

  /** A hardware card's icon: the table's entry, or the generic chip exactly when the type is unknown. */
  function HardwareIconPath(hardwareType: string): (path: string)
    ensures hardwareType in HardwareIcons ==> path == HardwareIcons[hardwareType]
    ensures path == GenericChipIcon <==> hardwareType !in HardwareIcons
  {
    if hardwareType in HardwareIcons then HardwareIcons[hardwareType] else GenericChipIcon
  }

  /** Shop item type to icon. */
  const ShopIcons: map<string, string> :=
    map["software" := "img/icon_software.png",
        "hardware" := "img/icon_hardware.png",
        "chip" := "img/icon_chip.png"]

  const GenericShopIcon := "img/icon_generic.png"

  /** A shop card's icon: the table's entry, or the generic icon exactly when the type is unknown. */
  function ShopIconPath(itemType: string): (path: string)
    ensures itemType in ShopIcons ==> path == ShopIcons[itemType]
    ensures path == GenericShopIcon <==> itemType !in ShopIcons
  {
    if itemType in ShopIcons then ShopIcons[itemType] else GenericShopIcon
  }

  /** Program class to the CSS background position of its icon in the sprite sheet. */
  const ProgramIconPositions: seq<string> :=
    ["0 0", "-40px 0", "-80px 0", "-120px 0", "-160px 0", "-200px 0", "-240px 0", "-280px 0",
     "0 -40px", "-40px -40px", "-80px -40px", "-120px -40px", "-160px -40px", "-200px -40px", "-240px -40px", "-280px -40px"]

  /**
   * A program card's icon position: the table's cell for a known class.
   * The fallback for any other class is the top-left cell, which class 0
   * also uses, so `"0 0"` shows exactly for class 0 and unknown classes.
   */
  function ProgramIconPosition(programClass: int): (position: string)
    ensures 0 <= programClass < |ProgramIconPositions| ==> position == ProgramIconPositions[programClass]
    ensures position == "0 0" <==> programClass == 0 || !(0 <= programClass < |ProgramIconPositions|)
  {
    if 0 <= programClass < |ProgramIconPositions| then ProgramIconPositions[programClass] else "0 0"
  }
}
