/**
 Donation records of BloomNet: lookup by id, the claim update applied to the
 whole list, and the record built from the donor's upload form with its
 derived freshness status and safety score.
 */
module Food {
  import opened Scoring

  datatype Option<T> = None | Some(value: T)

  datatype Status = Fresh | ShareSoon

  /** One donation. `volunteer` is the scored volunteer bound by a claim, or null. */
  datatype FoodItem = FoodItem(
    id: int,
    name: string,
    kind: string,
    quantity: string,
    unit: string,
    expiry: int,
    status: Status,
    safetyScore: int,
    donor: string,
    location: string,
    packType: string,
    claimed: bool,
    volunteer: Option<Candidate>,
    lat: real,
    lon: real)

  /** A claimed donation has a volunteer, and only a claimed one. */
  predicate ClaimConsistent(item: FoodItem)
  {
    item.claimed <==> item.volunteer.Some?
  }

  predicate AllClaimConsistent(items: seq<FoodItem>)
  {
    forall i :: 0 <= i < |items| ==> ClaimConsistent(items[i])
  }

  /** The three donations the application starts with. */
  const SeedFood: seq<FoodItem> := [
    FoodItem(1, "Vegetable Biryani", "Cooked", "50", "Plates", 2, Fresh, 95,
      "Delhi Community Kitchen", "Connaught Place, Delhi", "Bulk Pack", false, None, 30.735, 76.775),
    FoodItem(2, "Fresh Bread Loaves", "Bakery", "30", "Packs", 6, Fresh, 90,
      "Sunrise Bakery", "Karol Bagh, Delhi", "Family Pack", false, None, 30.750, 76.800),
    FoodItem(3, "Rice & Dal", "Cooked", "100", "Plates", 1, ShareSoon, 75,
      "Golden Temple Langar", "Amritsar, Punjab (Disaster Zone)", "Bulk Pack", false, None, 30.720, 76.760)
  ]

  /** Position of the first donation with the given id (`Array.prototype.find`), if any. */
  function FindFood(items: seq<FoodItem>, id: int): (k: Option<nat>)
    ensures k.None? <==> forall i :: 0 <= i < |items| ==> items[i].id != id
    ensures k.Some? ==> k.value < |items| && items[k.value].id == id &&
                        forall i :: 0 <= i < k.value ==> items[i].id != id
  {
    if items == [] then None
    else if items[0].id == id then Some(0)
    else match FindFood(items[1..], id)
      case None => None
      case Some(k) => Some(k + 1)
  }

  /**
   The list after a claim: every donation carrying the id is marked claimed and
   bound to `chosen`; every other donation is left as it was.
   */
  function ClaimAll(items: seq<FoodItem>, id: int, chosen: Candidate): (r: seq<FoodItem>)
    ensures |r| == |items|
    ensures forall i :: 0 <= i < |items| && items[i].id == id ==>
      r[i] == items[i].(claimed := true, volunteer := Some(chosen))
    ensures forall i :: 0 <= i < |items| && items[i].id != id ==> r[i] == items[i]
  {
    if items == [] then []
    else
      var head := if items[0].id == id then items[0].(claimed := true, volunteer := Some(chosen)) else items[0];
      [head] + ClaimAll(items[1..], id, chosen)
  }

  /** A claim keeps every donation claimed exactly when it has a volunteer. */
  lemma ClaimAllKeepsConsistency(items: seq<FoodItem>, id: int, chosen: Candidate)
    requires AllClaimConsistent(items)
    ensures AllClaimConsistent(ClaimAll(items, id, chosen))
  {
  }

  /**
   After a claim, a lookup of the same id finds the same donation, now claimed:
   a second claim of that id has nothing to do and cannot rebind its volunteer.
   */
  lemma ClaimedStaysFound(items: seq<FoodItem>, id: int, chosen: Candidate)
    requires FindFood(items, id).Some?
    ensures FindFood(ClaimAll(items, id, chosen), id) == FindFood(items, id)
    ensures ClaimAll(items, id, chosen)[FindFood(items, id).value].claimed
  {
    var r := ClaimAll(items, id, chosen);
    var k := FindFood(items, id).value;
    assert r[k] == items[k].(claimed := true, volunteer := Some(chosen));
    forall j | 0 <= j < k ensures r[j].id != id {
      assert r[j] == items[j];
    }
    assert FindFood(r, id).Some?;
  }

  /** The donor's upload form; an empty expiry field is `None`. */
  datatype FoodForm = FoodForm(
    name: string,
    kind: string,
    quantity: string,
    unit: string,
    expiry: Option<int>,
    packType: string,
    location: string,
    lat: real,
    lon: real)

  /**
   The upload guard: each of name, quantity and expiry must be truthy, that is
   non-empty, so the upload goes ahead exactly when all three are filled in.
   */
  function Accepts(form: FoodForm): (ok: bool)
    ensures ok <==> |form.name| > 0 && |form.quantity| > 0 && form.expiry.Some?
  {
    form.name != "" && form.quantity != "" && form.expiry != None
  }

  /** The food-safety rule: at most two units to expiry is "Share Soon", otherwise "Fresh". */
  function SafetyStatus(expiry: int): (s: Status)
    ensures s == ShareSoon <==> expiry <= 2
  {
    if expiry <= 2 then ShareSoon else Fresh
  }

  /** Safety score shown for a freshly uploaded donation. */
  function SafetyScore(s: Status): (score: int)
    ensures s == Fresh ==> score == 95
    ensures s == ShareSoon ==> score == 70
  {
    if s == Fresh then 95 else 70
  }

  /** The signed-in user's name, or "Anonymous Donor" when there is none or it is empty. */
  function DonorName(user: Option<string>): (donor: string)
    ensures user.Some? && user.value != "" ==> donor == user.value
    ensures user.None? || user.value == "" ==> donor == "Anonymous Donor"
  {
    match user
    case Some(name) => if name != "" then name else "Anonymous Donor"
    case None => "Anonymous Donor"
  }

  /** The donation an accepted upload creates: the form's fields, unclaimed, with derived safety. */
  function NewFood(form: FoodForm, id: int, user: Option<string>): (item: FoodItem)
    requires form.expiry.Some?
    ensures item.id == id && item.name == form.name && item.kind == form.kind
    ensures item.quantity == form.quantity && item.unit == form.unit
    ensures item.packType == form.packType && item.location == form.location
    ensures item.lat == form.lat && item.lon == form.lon
    ensures item.expiry == form.expiry.value
    ensures item.expiry <= 2 ==> item.status == ShareSoon && item.safetyScore == 70
    ensures 2 < item.expiry ==> item.status == Fresh && item.safetyScore == 95
    ensures item.donor == DonorName(user)
    ensures !item.claimed && item.volunteer.None?
  {
    var status := SafetyStatus(form.expiry.value);
    FoodItem(id, form.name, form.kind, form.quantity, form.unit, form.expiry.value,
             status, SafetyScore(status), DonorName(user), form.location, form.packType,
             false, None, form.lat, form.lon)
  }
}
