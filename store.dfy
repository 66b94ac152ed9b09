/**
 * The pure bodies of the three `setSpots` updates: the `prev.map` of
 * `toggleVerify`, the `prev.filter` of `deleteSpot` and the new record plus
 * spread of `handleAddSpot`. The component state that applies them is in App.
 */
module Store {
  import opened Wrappers
  import opened Seqs
  import opened Spots

  /** `prev.map(s => s.id === id ? { ...s, verified: !s.verified } : s)`. */
  function ToggleVerified(spots: seq<Spot>, id: int): (r: seq<Spot>)
    ensures |r| == |spots|
    ensures forall i :: 0 <= i < |r| ==> r[i].verified == (spots[i].verified != (spots[i].id == id))
    ensures forall i :: 0 <= i < |r| ==> r[i] == spots[i].(verified := r[i].verified)
  {
    seq(|spots|, i requires 0 <= i < |spots| =>
      if spots[i].id == id then spots[i].(verified := !spots[i].verified) else spots[i])
  }

  /** Toggling the same id twice restores the collection. */
  lemma ToggleTwice(spots: seq<Spot>, id: int)
    ensures ToggleVerified(ToggleVerified(spots, id), id) == spots
  {
  }

  /** Toggling an id no spot carries changes nothing. */
  lemma ToggleUnknownId(spots: seq<Spot>, id: int)
    requires !HasId(spots, id)
    ensures ToggleVerified(spots, id) == spots
  {
  }

  /** Toggling keeps every record well formed and every id where it was. */
  lemma TogglePreserves(spots: seq<Spot>, id: int)
    ensures AllWellFormed(spots) ==> AllWellFormed(ToggleVerified(spots, id))
    ensures UniqueIds(spots) ==> UniqueIds(ToggleVerified(spots, id))
  {
  }

  function IdIsNot(id: int): Spot -> bool
  {
    (s: Spot) => s.id != id
  }

  /** `prev.filter(s => s.id !== id)`. */
  function RemoveId(spots: seq<Spot>, id: int): seq<Spot>
  {
    Filter(spots, IdIsNot(id))
  }

  /**
   * Removal keeps exactly the spots whose id differs from `id`, every copy of
   * each, in their original relative order.
   */
  lemma RemoveIdSpec(spots: seq<Spot>, id: int)
    ensures forall s :: s in RemoveId(spots, id) <==> s in spots && s.id != id
    ensures forall s :: multiset(RemoveId(spots, id))[s] == if s.id != id then multiset(spots)[s] else 0
    ensures IsSubseq(RemoveId(spots, id), spots)
  {
    FilterCount(spots, IdIsNot(id));
    FilterIsSubseq(spots, IdIsNot(id));
    FilterMembers(spots, IdIsNot(id));
  }

  /** Removing an id no spot carries changes nothing. */
  lemma RemoveUnknownId(spots: seq<Spot>, id: int)
    requires !HasId(spots, id)
    ensures RemoveId(spots, id) == spots
  {
    FilterKeepsAll(spots, IdIsNot(id));
  }

  /** With unique ids, removing a present id removes exactly one spot. */
  lemma {:induction false} RemoveOne(spots: seq<Spot>, id: int)
    requires UniqueIds(spots) && HasId(spots, id)
    ensures |RemoveId(spots, id)| == |spots| - 1
  {
    var t := spots[1..];
    FilterCons(spots[0], t, IdIsNot(id));
    assert [spots[0]] + t == spots;
    if spots[0].id == id {
      assert !HasId(t, id) by {
        forall i | 0 <= i < |t| ensures t[i].id != id {
          assert spots[i + 1] == t[i];
        }
      }
      RemoveUnknownId(t, id);
    } else {
      var k :| 0 <= k < |spots| && spots[k].id == id;
      assert t[k - 1].id == id;
      assert UniqueIds(t) by {
        forall i, j | 0 <= i < j < |t| ensures t[i].id != t[j].id {
          assert t[i] == spots[i + 1] && t[j] == spots[j + 1];
        }
      }
      RemoveOne(t, id);
    }
  }

  /** Removal keeps every record well formed and the ids distinct. */
  lemma RemovePreserves(spots: seq<Spot>, id: int)
    ensures AllWellFormed(spots) ==> AllWellFormed(RemoveId(spots, id))
    ensures UniqueIds(spots) ==> UniqueIds(RemoveId(spots, id))
  {
    FilterKeepsProperties(spots, IdIsNot(id));
  }

  /** A filter keeps well-formedness and distinct ids. */
  lemma {:induction false} FilterKeepsProperties(spots: seq<Spot>, f: Spot -> bool)
    ensures AllWellFormed(spots) ==> AllWellFormed(Filter(spots, f))
    ensures UniqueIds(spots) ==> UniqueIds(Filter(spots, f))
  {
    FilterMembers(spots, f);
    var r := Filter(spots, f);
    forall i | 0 <= i < |r| ensures exists k :: 0 <= k < |spots| && spots[k] == r[i] {
      assert r[i] in spots;
    }
    if spots != [] {
      var t := spots[1..];
      FilterKeepsProperties(t, f);
      FilterCons(spots[0], t, f);
      assert [spots[0]] + t == spots;
      if UniqueIds(spots) {
        assert UniqueIds(t) by {
          forall i, j | 0 <= i < j < |t| ensures t[i].id != t[j].id {
            assert t[i] == spots[i + 1] && t[j] == spots[j + 1];
          }
        }
        var rt := Filter(t, f);
        FilterMembers(t, f);
        forall j | 0 <= j < |rt| ensures rt[j].id != spots[0].id {
          assert rt[j] in t;
          var k :| 0 <= k < |t| && t[k] == rt[j];
          assert spots[k + 1] == rt[j];
        }
      }
    }
  }

  /** The add-spot form (`newSpot`). */
  datatype Draft = Draft(name: string, address: string, category: string)

  /** The form as it starts and as a successful add leaves it. */
  const EmptyDraft: Draft := Draft("", "", "Public Toilet")

  /**
   * What `handleAddSpot` does: `MissingInfo` is the "Missing info" alert,
   * `NoLocation` the TypeError that `userLoc.lat` raises while the location is
   * still `null`, and `Added` carries the record to append.
   */
  datatype AddOutcome = MissingInfo | NoLocation | Added(spot: Spot)

  /** `Math.random() * 0.01 - 0.005`. */
  function Offset(r: Random): (d: real)
    ensures -0.005 <= d < 0.005
  {
    r * 0.01 - 0.005
  }

  /**
   * The outcome of submitting `form`. `id` stands for `Date.now()`; the two
   * draws are the `Math.random()` calls of the offset and of `randomLevel`.
   */
  function AddAttempt(form: Draft, userLoc: Option<Position>, id: int, offsetDraw: Random, levelDraw: Random): (o: AddOutcome)
    ensures o == MissingInfo <==> form.name == "" || form.address == ""
    ensures o == NoLocation <==> form.name != "" && form.address != "" && userLoc == None
    ensures o.Added? ==> userLoc.Some? && form.name != "" && form.address != ""
    ensures o.Added? ==> var s := o.spot;
      && s.id == id && s.name == form.name && s.address == form.address && s.category == form.category
      && s.verified && s.free == "Yes" && s.level in LEVELS && (s.clean == "No" <==> s.level == "bronze")
      && s.level == RandomLevel(levelDraw) && WellFormed(s)
      && s.pos.lat - userLoc.value.lat == s.pos.lng - userLoc.value.lng == Offset(offsetDraw)
  {
    if form.name == "" || form.address == "" then MissingInfo
    else
      var offset := Offset(offsetDraw);
      var level := RandomLevel(levelDraw);
      match userLoc
      case None => NoLocation
      case Some(loc) =>
        Added(Spot(
          id, form.name, form.category, form.address,
          Position(loc.lat + offset, loc.lng + offset),
          level, CleanLabel(level), "Yes", true))
  }

  /** The collection after an add attempt: one spot appended on success, unchanged otherwise. */
  function AfterAdd(spots: seq<Spot>, o: AddOutcome): (r: seq<Spot>)
    ensures o.Added? ==> |r| == |spots| + 1 && r[..|spots|] == spots && r[|spots|] == o.spot
    ensures !o.Added? ==> r == spots
  {
    if o.Added? then spots + [o.spot] else spots
  }

  /** An empty name or address leaves the collection as it was. */
  lemma AddMissingInfo(spots: seq<Spot>, form: Draft, userLoc: Option<Position>, id: int, offsetDraw: Random, levelDraw: Random)
    requires form.name == "" || form.address == ""
    ensures AfterAdd(spots, AddAttempt(form, userLoc, id, offsetDraw, levelDraw)) == spots
  {
  }

  /** Adding keeps every record well formed, and keeps ids distinct when the new id is fresh. */
  lemma AddPreserves(spots: seq<Spot>, form: Draft, userLoc: Option<Position>, id: int, offsetDraw: Random, levelDraw: Random)
    ensures var r := AfterAdd(spots, AddAttempt(form, userLoc, id, offsetDraw, levelDraw));
      && (AllWellFormed(spots) ==> AllWellFormed(r))
      && (UniqueIds(spots) && !HasId(spots, id) ==> UniqueIds(r))
  {
  }
}
