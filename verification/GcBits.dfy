/** The mark byte (lgc.h:46-85, lgc.c:32-35, 407-416): the bit operations on it are the operations on colours
    used elsewhere in this model. */
module GcBits {
  import opened GcHeap

  const WHITE0: bv8 := 1
  const WHITE1: bv8 := 2
  const WHITEBITS: bv8 := 3
  const BLACK: bv8 := 4
  const KEYWEAK: bv8 := 8
  const VALUEWEAK: bv8 := 16
  const FIXED: bv8 := 32

  function ColorBits(c: Color): bv8 {
    match c case White0 => WHITE0 case White1 => WHITE1 case Gray => 0 case Black => BLACK
  }

  /** The mark byte of an object. */
  function Marked(o: Object): bv8 {
    ColorBits(o.color) | (if o.weak.key then KEYWEAK else 0) | (if o.weak.val then VALUEWEAK else 0)
    | (if o.fixed then FIXED else 0)
  }

  /** `currentwhite` also has the bit of fixed objects (lstate.c:153). */
  function CurrentWhite(white: Color): bv8 { ColorBits(white) | FIXED }

  function OtherWhite(currentwhite: bv8): bv8 { currentwhite ^ WHITEBITS }

  function IsWhiteBits(m: bv8): bool { m & WHITEBITS != 0 }
  function IsBlackBits(m: bv8): bool { m & BLACK != 0 }
  function IsGrayBits(m: bv8): bool { !IsBlackBits(m) && !IsWhiteBits(m) }
  function IsDeadBits(m: bv8, currentwhite: bv8): bool { m & OtherWhite(currentwhite) & WHITEBITS != 0 }

  /** The test of sweeplist with `deadmask` as otherwhite(g). */
  function Survives(m: bv8, currentwhite: bv8): bool { (m ^ WHITEBITS) & OtherWhite(currentwhite) != 0 }

  /** makewhite (lgc.c:32-35) */
  function MakeWhite(m: bv8, currentwhite: bv8): bv8 { (m & !(BLACK | WHITEBITS)) | (currentwhite & WHITEBITS) }

  lemma ColorTests(o: Object)
    ensures IsWhiteBits(Marked(o)) == IsWhite(o.color)
    ensures IsBlackBits(Marked(o)) == (o.color == Black)
    ensures IsGrayBits(Marked(o)) == (o.color == Gray)
  {
    match o.color case White0 => case White1 => case Gray => case Black =>
  }

  /** An object is dead when it has the other white; sweeping also spares fixed ones. */
  lemma DeadTests(o: Object, white: Color)
    requires IsWhite(white)
    ensures IsDeadBits(Marked(o), CurrentWhite(white)) == (o.color == Other(white))
    ensures Survives(Marked(o), CurrentWhite(white)) == (o.fixed || o.color != Other(white))
    ensures OtherWhite(CurrentWhite(white)) == CurrentWhite(Other(white))
    ensures MakeWhite(Marked(o), CurrentWhite(white)) == Marked(o.(color := white))
  {
    match o.color case White0 => case White1 => case Gray => case Black =>
  }
}
