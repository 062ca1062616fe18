/**
 * The modifier half of the input translator: GDK's modifier bitmask is read
 * one flag at a time into Servo's set of key modifiers.
 */
module Modifiers {

  /** Servo's key modifiers (the flags of its `KeyModifiers`); `NONE` is the empty set. */
  datatype Modifier = Shift | Control | Alt | Super

  /** The GDK modifier flags the translator reads (`GdkModifierType`). */
  const SHIFT_MASK: bv32 := 0x0000_0001
  const CONTROL_MASK: bv32 := 0x0000_0004
  const SUPER_MASK: bv32 := 0x0400_0000
  const META_MASK: bv32 := 0x1000_0000

  /** `ModifierType::contains`: every bit of `flag` is set in `mask`. */
  predicate Contains(mask: bv32, flag: bv32) {
    mask & flag == flag
  }

  /** The GDK flag each Servo modifier is read from; Alt comes from the Meta flag. */
  function FlagOf(m: Modifier): bv32 {
    match m
    case Alt => META_MASK
    case Super => SUPER_MASK
    case Control => CONTROL_MASK
    case Shift => SHIFT_MASK
  }

  /**
   * `to_modifier`: starting from the empty set, four independent tests each
   * add one modifier. The result holds exactly the modifiers whose flag is
   * set, so the order of the tests does not matter.
   */
  function ToModifier(mask: bv32): (r: set<Modifier>)
    ensures forall m :: m in r <==> Contains(mask, FlagOf(m))
  {
    var mods: set<Modifier> := {};
    var mods := if Contains(mask, META_MASK) then mods + {Alt} else mods;
    var mods := if Contains(mask, SUPER_MASK) then mods + {Super} else mods;
    var mods := if Contains(mask, CONTROL_MASK) then mods + {Control} else mods;
    var mods := if Contains(mask, SHIFT_MASK) then mods + {Shift} else mods;
    mods
  }

  /** The empty mask gives no modifier. */
  lemma EmptyMask()
    ensures ToModifier(0) == {}
  {
  }

  /** Combining two masks combines their modifier sets. */
  lemma UnionOfMasks(a: bv32, b: bv32)
    ensures ToModifier(a | b) == ToModifier(a) + ToModifier(b)
  {
  }

  /** Only the four flags matter: any other bit of the mask is ignored. */
  lemma OtherFlagsIgnored(mask: bv32)
    ensures ToModifier(mask & (META_MASK | SUPER_MASK | CONTROL_MASK | SHIFT_MASK)) == ToModifier(mask)
  {
  }
}
