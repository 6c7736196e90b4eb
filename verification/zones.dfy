/**
 * Zone codes and table rows of the stroke table (Layout.java).
 *
 * A stroke starts in one zone of a key and ends in another. Inner zones
 * cover the key itself, outer zones mean the stroke left the key. The
 * geometry that classifies a touch into a zone is not part of this model:
 * zones arrive already resolved.
 */
module Zones {

  /** Each of the two zone dimensions of the table has this many slots. */
  const TableSide: int := 16

  /**
   * An index along one zone dimension of the table. Java raises an
   * array-bounds error for anything outside this range; here the type rules
   * such indices out.
   */
  type Zone = z: int | 0 <= z < TableSide

  // Inner zones: centre, top row, bottom row.
  const MC: Zone := 0x0
  const LT: Zone := 0x1
  const MT: Zone := 0x2
  const RT: Zone := 0x3
  const LB: Zone := 0x4
  const MB: Zone := 0x5
  const RB: Zone := 0x6

  // Outer zones: the stroke left the key through that side.
  const OT: Zone := 0xA
  const OR: Zone := 0xB
  const OB: Zone := 0xC
  const OL: Zone := 0xD

  /** Every named zone code, each in bounds and no two equal. */
  function NamedZones(): (zs: seq<int>)
    ensures |zs| == 11
    ensures forall i | 0 <= i < |zs| :: 0 <= zs[i] < TableSide
    ensures forall i, j | 0 <= i < j < |zs| :: zs[i] != zs[j]
  {
    [MC, LT, MT, RT, LB, MB, RB, OT, OR, OB, OL]
  }

  /**
   * The two rows of the table: Down (SHIFT_DOWN = 0) holds what a stroke
   * types without shift, Up (SHIFT_UP = 1) what it types with shift.
   */
  datatype Row = Down | Up {
    /** The row's index in the Java array. */
    function Index(): (i: nat)
      ensures i < 2
      ensures (i == 0) == (this == Down)
    {
      if this == Down then 0 else 1
    }
  }
}
