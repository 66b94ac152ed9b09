/**
 * The 80 seed spots the directory starts with: the `BASE_SPOTS` loop that
 * pushes name/category/address records, and the `spotsData` mapping that
 * gives each one its id, grid position, random level and random flags.
 */
module Seed {
  import opened Text
  import opened Spots

  /** A record pushed by the `BASE_SPOTS` loop. */
  datatype BaseSpot = BaseSpot(name: string, category: string, address: string)

  const SeedCount: nat := 80

  /** The record the loop pushes when `BASE_SPOTS` holds `i` records. */
  function BaseSpotAt(i: nat): BaseSpot
  {
    BaseSpot("CleanPath Spot " + NatToString(i + 1), "Public Toilet", "Area " + NatToString(i + 1) + ", Parbhani")
  }

  function BaseSpots(): seq<BaseSpot>
  {
    seq(SeedCount, i requires 0 <= i < SeedCount => BaseSpotAt(i))
  }

  /** The `while (BASE_SPOTS.length < 80)` loop. */
  method BuildBaseSpots() returns (base: seq<BaseSpot>)
    ensures |base| == SeedCount
    ensures forall i :: 0 <= i < |base| ==> base[i] == BaseSpotAt(i)
    ensures base == BaseSpots()
  {
    base := [];
    while |base| < SeedCount
      invariant |base| <= SeedCount
      invariant forall i :: 0 <= i < |base| ==> base[i] == BaseSpotAt(i)
    {
      base := base + [BaseSpot(
        "CleanPath Spot " + NatToString(|base| + 1),
        "Public Toilet",
        "Area " + NatToString(|base| + 1) + ", Parbhani")];
    }
  }

  /** The grid position of seed `idx`: ten per row, 0.004 degrees apart. */
  function GridPosition(idx: nat): Position
  {
    Position(19.24 + (idx % 10) as real * 0.004, 76.74 + (idx / 10) as real * 0.004)
  }

  /** No two seeds share a grid position. */
  lemma GridPositionInjective(i: nat, j: nat)
    requires i != j
    ensures GridPosition(i) != GridPosition(j)
  {
    assert i == 10 * (i / 10) + i % 10;
    assert j == 10 * (j / 10) + j % 10;
  }

  /**
   * One step of `BASE_SPOTS.map((spot, idx) => ...)`: the three draws are the
   * `Math.random()` calls of `randomLevel`, of `free` and of `verified`, in that order.
   */
  function SeedSpot(b: BaseSpot, idx: nat, levelDraw: Random, freeDraw: Random, verifiedDraw: Random): (s: Spot)
    ensures s.id == idx + 1
    ensures s.name == b.name && s.category == b.category && s.address == b.address
    ensures s.level == RandomLevel(levelDraw) && WellFormed(s)
    ensures s.free == "Yes" <==> freeDraw > 0.5
    ensures s.verified <==> verifiedDraw > 0.5
  {
    var level := RandomLevel(levelDraw);
    Spot(
      idx + 1, b.name, b.category, b.address, GridPosition(idx),
      level, CleanLabel(level), YesNo(freeDraw > 0.5), verifiedDraw > 0.5)
  }

  /** `spotsData`, with `rand` the stream of `Math.random()` results it consumes. */
  function SpotsData(base: seq<BaseSpot>, rand: seq<Random>): (data: seq<Spot>)
    requires 3 * |base| <= |rand|
    ensures |data| == |base|
    ensures forall idx :: 0 <= idx < |data| ==> data[idx].id == idx + 1 && data[idx].pos == GridPosition(idx)
    ensures forall idx :: 0 <= idx < |data| ==>
      data[idx].name == base[idx].name && data[idx].category == base[idx].category && data[idx].address == base[idx].address
    ensures forall idx :: 0 <= idx < |data| ==> WellFormed(data[idx]) && data[idx].level == RandomLevel(rand[3 * idx])
    ensures forall idx :: 0 <= idx < |data| ==> (data[idx].free == "Yes" <==> rand[3 * idx + 1] > 0.5)
    ensures forall idx :: 0 <= idx < |data| ==> (data[idx].verified <==> rand[3 * idx + 2] > 0.5)
  {
    seq(|base|, idx requires 0 <= idx < |base| => SeedSpot(base[idx], idx, rand[3 * idx], rand[3 * idx + 1], rand[3 * idx + 2]))
  }

  /**
   * What the initial collection looks like for every outcome of the random
   * draws: 80 spots, ids 1..80 in order (hence distinct), every one a public
   * toilet with a level from LEVELS and `clean` derived from it.
   */
  lemma SeedFacts(rand: seq<Random>)
    requires 3 * SeedCount <= |rand|
    ensures var data := SpotsData(BaseSpots(), rand);
      && |data| == 80
      && (forall i :: 0 <= i < |data| ==> data[i].id == i + 1)
      && (forall i, j :: 0 <= i < j < |data| ==> data[i].id < data[j].id)
      && UniqueIds(data)
      && AllWellFormed(data)
      && (forall i :: 0 <= i < |data| ==> data[i].category == "Public Toilet")
      && (forall i :: 0 <= i < |data| ==> data[i].level in LEVELS && (data[i].clean == "No" <==> data[i].level == "bronze"))
  {
  }

  /** Seed names (and addresses) are pairwise distinct. */
  lemma SeedNamesDistinct(i: nat, j: nat)
    requires i != j
    ensures BaseSpotAt(i).name != BaseSpotAt(j).name
    ensures BaseSpotAt(i).address != BaseSpotAt(j).address
  {
    NatToStringInjective(i + 1, j + 1);
    FramedDistinct("CleanPath Spot ", NatToString(i + 1), NatToString(j + 1), "");
    FramedDistinct("Area ", NatToString(i + 1), NatToString(j + 1), ", Parbhani");
    assert "CleanPath Spot " + NatToString(i + 1) + "" == BaseSpotAt(i).name;
    assert "CleanPath Spot " + NatToString(j + 1) + "" == BaseSpotAt(j).name;
  }

  /** Different texts between the same prefix and suffix give different strings. */
  lemma FramedDistinct(p: string, a: string, b: string, q: string)
    requires a != b
    ensures p + a + q != p + b + q
  {
    assert (p + a + q)[|p|..|p| + |a|] == a;
    assert (p + b + q)[|p|..|p| + |b|] == b;
  }
}
