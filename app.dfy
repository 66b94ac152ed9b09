/**
 * The state of the `App` component: the `useState` hooks become fields, and
 * each handler that calls a setter becomes a method that changes exactly the
 * fields behind those setters.
 */
module App {
  import opened Wrappers
  import opened Spots
  import opened Seed
  import opened Store
  import View

  /** The PIN the admin prompt accepts. */
  const AdminPin: string := "1234"

  /** The location used when the browser refuses or fails to give one. */
  const FallbackLocation: Position := Position(19.27, 76.77)

  /**
   * The admin flag after one PIN prompt (`null` when the prompt is cancelled):
   * it is never cleared, and it is set only by the right PIN.
   */
  function AdminAfterLogin(isAdmin: bool, pin: Option<string>): (r: bool)
    ensures isAdmin ==> r
    ensures pin == Some(AdminPin) ==> r
    ensures r && !isAdmin ==> pin == Some(AdminPin)
  {
    isAdmin || pin == Some(AdminPin)
  }

  class Directory {
    var spots: seq<Spot>
    var query: string
    var filterClean: bool
    var filterFree: bool
    var userLoc: Option<Position>
    var isAdmin: bool
    var newSpot: Draft

    /** Every spot in the collection is well formed. */
    ghost predicate Valid()
      reads this
    {
      AllWellFormed(spots)
    }

    /** The initial state; `rand` is the stream of `Math.random()` results the seed data consumes. */
    constructor (rand: seq<Random>)
      requires 3 * SeedCount <= |rand|
      ensures Valid()
      ensures spots == SpotsData(BaseSpots(), rand)
      ensures query == "" && !filterClean && !filterFree
      ensures userLoc == None && !isAdmin && newSpot == EmptyDraft
    {
      var base := BuildBaseSpots();
      SeedFacts(rand);
      spots := SpotsData(base, rand);
      query := "";
      filterClean := false;
      filterFree := false;
      userLoc := None;
      isAdmin := false;
      newSpot := EmptyDraft;
    }

    /** The list the component renders; `dist` stands for `calcDistance`. */
    function Filtered(dist: (Position, Position) -> real): seq<View.Annotated>
      reads this
    {
      View.Compute(spots, query, filterClean, filterFree, userLoc, dist)
    }

    /** The geolocation callbacks: the reported position, or the fallback on error. */
    method ResolveLocation(fix: Option<Position>)
      modifies this`userLoc
      ensures userLoc == Some(if fix.Some? then fix.value else FallbackLocation)
    {
      match fix
      case Some(p) => userLoc := Some(p);
      case None => userLoc := Some(FallbackLocation);
    }

    /** `handleAdminLogin`; `accepted` is false exactly when the "Wrong PIN" alert shows. */
    method Login(pin: Option<string>) returns (accepted: bool)
      modifies this`isAdmin
      ensures accepted <==> pin == Some(AdminPin)
      ensures isAdmin == AdminAfterLogin(old(isAdmin), pin)
    {
      accepted := pin == Some(AdminPin);
      if accepted {
        isAdmin := true;
      }
    }

    /**
     * `handleAddSpot`, reachable only through the form that is rendered while
     * `isAdmin` holds. `id` stands for `Date.now()`; the draws are the two
     * `Math.random()` calls. On success one spot is appended and the form is
     * reset; otherwise nothing changes.
     */
    method AddSpot(id: int, offsetDraw: Random, levelDraw: Random) returns (outcome: AddOutcome)
      requires Valid() && isAdmin
      modifies this`spots, this`newSpot
      ensures Valid()
      ensures outcome == AddAttempt(old(newSpot), userLoc, id, offsetDraw, levelDraw)
      ensures spots == AfterAdd(old(spots), outcome)
      ensures newSpot == if outcome.Added? then EmptyDraft else old(newSpot)
    {
      outcome := AddAttempt(newSpot, userLoc, id, offsetDraw, levelDraw);
      AddPreserves(spots, newSpot, userLoc, id, offsetDraw, levelDraw);
      if outcome.Added? {
        spots := spots + [outcome.spot];
        newSpot := EmptyDraft;
      }
    }

    /** `toggleVerify` (an admin-only button): flips `verified` on the spots with this id. */
    method ToggleVerify(id: int)
      requires Valid() && isAdmin
      modifies this`spots
      ensures Valid()
      ensures spots == ToggleVerified(old(spots), id)
    {
      TogglePreserves(spots, id);
      spots := ToggleVerified(spots, id);
    }

    /** `deleteSpot` (an admin-only button); `confirmed` is the answer to the "Delete spot?" dialog. */
    method DeleteSpot(id: int, confirmed: bool)
      requires Valid() && isAdmin
      modifies this`spots
      ensures Valid()
      ensures spots == if confirmed then RemoveId(old(spots), id) else old(spots)
    {
      if confirmed {
        RemovePreserves(spots, id);
        spots := RemoveId(spots, id);
      }
    }

    /** The search box's `onChange`. */
    method SetQuery(text: string)
      modifies this`query
      ensures query == text
    {
      query := text;
    }

    /** The "Clean Only" button. */
    method ToggleFilterClean()
      modifies this`filterClean
      ensures filterClean == !old(filterClean)
    {
      filterClean := !filterClean;
    }

    /** The "Free Only" button. */
    method ToggleFilterFree()
      modifies this`filterFree
      ensures filterFree == !old(filterFree)
    {
      filterFree := !filterFree;
    }

    /** The admin form inputs' `onChange`: each replaces one field of the draft. */
    method EditName(text: string)
      requires isAdmin
      modifies this`newSpot
      ensures newSpot == old(newSpot).(name := text)
    {
      newSpot := newSpot.(name := text);
    }

    method EditAddress(text: string)
      requires isAdmin
      modifies this`newSpot
      ensures newSpot == old(newSpot).(address := text)
    {
      newSpot := newSpot.(address := text);
    }

    method EditCategory(text: string)
      requires isAdmin
      modifies this`newSpot
      ensures newSpot == old(newSpot).(category := text)
    {
      newSpot := newSpot.(category := text);
    }
  }
}
