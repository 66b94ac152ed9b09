/**
 * The spot record, the cleanliness levels and the derived labels. The code
 * keeps `clean` and `free` as the strings "Yes"/"No" and `level` as one of
 * the strings in LEVELS; the model keeps the same representation.
 */
module Spots {

  /** A coordinate pair in decimal degrees. */
  datatype Position = Position(lat: real, lng: real)

  datatype Spot = Spot(
    id: int,
    name: string,
    category: string,
    address: string,
    pos: Position,
    level: string,
    clean: string,
    free: string,
    verified: bool)

  /** The cleanliness levels, in the order `randomLevel` indexes them. */
  const LEVELS: seq<string> := ["gold", "silver", "bronze"]

  /** A value returned by `Math.random()`. */
  type Random = r: real | 0.0 <= r < 1.0

  /** `LEVELS[Math.floor(Math.random() * LEVELS.length)]`, with the draw supplied. */
  function RandomLevel(r: Random): (level: string)
    ensures level in LEVELS
  {
    LEVELS[(r * |LEVELS| as real).Floor]
  }

  /** Each level is chosen by exactly one third of the unit interval. */
  lemma RandomLevelBands(r: Random, k: nat)
    requires k < |LEVELS|
    ensures RandomLevel(r) == LEVELS[k] <==> k as real <= 3.0 * r < (k + 1) as real
  {
    var j := (r * 3.0).Floor;
    assert j as real <= r * 3.0 < j as real + 1.0;
    assert 0 <= j < 3;
    assert RandomLevel(r) == LEVELS[j];
    assert LEVELS[j] == LEVELS[k] <==> j == k;
  }

  /** The stored `clean` label: "No" for bronze, "Yes" for any other level. */
  function CleanLabel(level: string): (tag: string)
    ensures tag == "No" <==> level == "bronze"
    ensures tag == "Yes" || tag == "No"
  {
    if level == "bronze" then "No" else "Yes"
  }

  /** The "Yes"/"No" string the code stores for a coin flip. */
  function YesNo(b: bool): (tag: string)
    ensures tag == "Yes" <==> b
    ensures tag == "Yes" || tag == "No"
  {
    if b then "Yes" else "No"
  }

  /** The record invariant every way of creating a spot establishes. */
  predicate WellFormed(s: Spot)
  {
    && s.level in LEVELS
    && s.clean == CleanLabel(s.level)
    && (s.free == "Yes" || s.free == "No")
  }

  predicate AllWellFormed(spots: seq<Spot>)
  {
    forall i :: 0 <= i < |spots| ==> WellFormed(spots[i])
  }

  /** No two spots of the collection share an id. */
  predicate UniqueIds(spots: seq<Spot>)
  {
    forall i, j :: 0 <= i < j < |spots| ==> spots[i].id != spots[j].id
  }

  /** Some spot of the collection carries `id`. */
  predicate HasId(spots: seq<Spot>, id: int)
  {
    exists i :: 0 <= i < |spots| && spots[i].id == id
  }
}
