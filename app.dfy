/**
 The BloomNet component's claim-and-dispatch state: the donation list, the
 notification log and the drone-modal flag, with the operations that update
 them. The two timer continuations of a claim are returned as `Deferred`
 tasks which the caller runs later with `Fire`, in the order they were
 scheduled; `now` stands for the clock reading at each call.
 */
module App {
  import opened Scoring
  import opened Food
  import opened Notifications
  import opened Escalation

  /** Work a claim leaves scheduled on a timer. */
  datatype Deferred =
    | CheckEscalation(location: string, chosen: Candidate)  // two seconds after the claim
    | RaiseDroneModal                                        // one second after a disaster-zone alert

  class BloomNet {
    var foodItems: seq<FoodItem>
    var notifications: seq<Notification>
    var showDroneModal: bool

    /** The log is within capacity and every donation is claimed exactly when it has a volunteer. */
    ghost predicate Valid()
      reads this
    {
      |notifications| <= Capacity && AllClaimConsistent(foodItems)
    }

    constructor ()
      ensures Valid()
      ensures foodItems == SeedFood && notifications == [] && !showDroneModal
    {
      foodItems := SeedFood;
      notifications := [];
      showDroneModal := false;
    }

    /** Prepends a message and keeps the newest ten. */
    method AddNotification(now: int, message: Message)
      requires Valid()
      modifies this`notifications
      ensures Valid()
      ensures notifications == Push(old(notifications), Notification(now, message))
    {
      notifications := Push(notifications, Notification(now, message));
    }

    /** The start-up effect: the offline-sync notice. */
    method Mount(now: int)
      requires Valid()
      modifies this`notifications
      ensures Valid()
      ensures notifications == Push(old(notifications), Notification(now, OfflineSynced))
    {
      AddNotification(now, OfflineSynced);
    }

    /**
     Claims the first donation with id `foodId`. Nothing changes when there is
     none or it is already claimed. Otherwise the best volunteer is bound to
     every donation with that id, the claim is announced, and the escalation
     check is scheduled for the donation's location.
     */
    method Claim(foodId: int, now: int) returns (task: Option<Deferred>)
      requires Valid()
      modifies this`foodItems, this`notifications
      ensures Valid()
      ensures var k := FindFood(old(foodItems), foodId);
        if k.None? || old(foodItems)[k.value].claimed then
          foodItems == old(foodItems) && notifications == old(notifications) && task.None?
        else
          var food := old(foodItems)[k.value];
          var best := Optimize(food.expiry, Roster);
          && foodItems == ClaimAll(old(foodItems), foodId, best)
          && notifications == Push(old(notifications), Notification(now, FoodClaimed(best.volunteer.name)))
          && task == Some(CheckEscalation(food.location, best))
    {
      var k := FindFood(foodItems, foodId);
      if k.None? || foodItems[k.value].claimed {
        return None;
      }
      var food := foodItems[k.value];
      var best := Optimize(food.expiry, Roster);
      ClaimAllKeepsConsistency(foodItems, foodId, best);
      foodItems := ClaimAll(foodItems, foodId, best);
      AddNotification(now, FoodClaimed(best.volunteer.name));
      task := Some(CheckEscalation(food.location, best));
    }

    /**
     Runs a scheduled task. The escalation check announces drone delivery and
     schedules the drone modal for a disaster-zone location, and otherwise
     announces the volunteer on the way; raising the modal sets the flag.
     */
    method Fire(task: Deferred, now: int) returns (next: Option<Deferred>)
      requires Valid()
      modifies this`notifications, this`showDroneModal
      ensures Valid()
      ensures task.CheckEscalation? ==> showDroneModal == old(showDroneModal)
      ensures task.CheckEscalation? && Route(task.location) == Drone ==>
        && notifications == Push(old(notifications), Notification(now, DisasterZone(task.location)))
        && next == Some(RaiseDroneModal)
      ensures task.CheckEscalation? && Route(task.location) == Ground ==>
        && notifications == Push(old(notifications),
             Notification(now, OnTheWay(task.chosen.volunteer.name, task.chosen.volunteer.vehicle)))
        && next.None?
      ensures task.RaiseDroneModal? ==>
        showDroneModal && notifications == old(notifications) && next.None?
    {
      match task
      case CheckEscalation(location, chosen) =>
        if IsDisasterZone(location) {
          AddNotification(now, DisasterZone(location));
          next := Some(RaiseDroneModal);
        } else {
          AddNotification(now, OnTheWay(chosen.volunteer.name, chosen.volunteer.vehicle));
          next := None;
        }
      case RaiseDroneModal =>
        showDroneModal := true;
        next := None;
    }

    /**
     Uploads the donation described by `form` when name, quantity and expiry
     are filled in: it goes to the front of the list, unclaimed, with its
     safety derived from the expiry, and the upload is announced.
     */
    method UploadFood(form: FoodForm, user: Option<string>, now: int) returns (accepted: bool)
      requires Valid()
      modifies this`foodItems, this`notifications
      ensures Valid()
      ensures accepted == Accepts(form)
      ensures !accepted ==> foodItems == old(foodItems) && notifications == old(notifications)
      ensures accepted ==>
        && foodItems == [NewFood(form, now, user)] + old(foodItems)
        && notifications == Push(old(notifications),
             Notification(now, FoodUploaded(form.name, SafetyStatus(form.expiry.value))))
    {
      accepted := Accepts(form);
      if accepted {
        var food := NewFood(form, now, user);
        foodItems := [food] + foodItems;
        AddNotification(now, FoodUploaded(form.name, food.status));
      }
    }
  }

  /** Where the seeded Rice & Dal donation sits in the initial list. */
  lemma SeedLookups()
    ensures FindFood(SeedFood, 3) == Some(2)
    ensures SeedFood[2].expiry == 1 && SeedFood[2].location == "Amritsar, Punjab (Disaster Zone)" && !SeedFood[2].claimed
  {
    assert SeedFood[0].id == 1 && SeedFood[1].id == 2 && SeedFood[2].id == 3;
  }

  /** Claiming the seeded Rice & Dal donation (id 3) binds Raj Kumar to it. */
  lemma RiceAndDalGoesToRaj()
    ensures var items := ClaimAll(SeedFood, 3, Optimize(1, Roster));
      && |items| == 3 && items[2].claimed && items[2].volunteer.Some?
      && items[2].volunteer.value.volunteer.name == "Raj Kumar"
  {
    SeedLookups();
    RosterDispatchesRaj(1);
  }

  /** Claims the seeded Rice & Dal donation (id 3), which binds Raj Kumar. */
  method ClaimRiceAndDal(app: BloomNet, now: int) returns (task: Option<Deferred>)
    requires app.Valid() && app.foodItems == SeedFood
    modifies app`foodItems, app`notifications
    ensures app.Valid()
    ensures app.foodItems == ClaimAll(SeedFood, 3, Optimize(1, Roster))
    ensures app.notifications == Push(old(app.notifications), Notification(now, FoodClaimed("Raj Kumar")))
    ensures task == Some(CheckEscalation("Amritsar, Punjab (Disaster Zone)", Optimize(1, Roster)))
  {
    SeedLookups();
    RosterDispatchesRaj(1);
    task := app.Claim(3, now);
  }

  /**
   The escalation check of a claim in Amritsar, then the drone modal it
   schedules one second later.
   */
  method EscalateFromAmritsar(app: BloomNet, chosen: Candidate, now: int)
    requires app.Valid()
    modifies app`notifications, app`showDroneModal
    ensures app.Valid()
    ensures app.notifications == Push(old(app.notifications), Notification(now, DisasterZone("Amritsar, Punjab (Disaster Zone)")))
    ensures app.showDroneModal
  {
    AmritsarGoesByDrone();
    var next := app.Fire(CheckEscalation("Amritsar, Punjab (Disaster Zone)", chosen), now);
    var last := app.Fire(next.value, now + 1000);
  }

  /**
   The Rice & Dal donation from Amritsar, claimed after the start-up notice:
   the claim binds Raj Kumar and is announced at once, and the two timers then
   announce drone delivery and raise the drone modal, with no on-the-way
   message.
   */
  method DisasterClaimScenario() returns (items: seq<FoodItem>, log: seq<Notification>, drone: bool)
    ensures |items| == 3 && items[2].claimed && items[2].volunteer.Some?
    ensures items[2].volunteer.value.volunteer.name == "Raj Kumar"
    ensures log == [Notification(3000, DisasterZone("Amritsar, Punjab (Disaster Zone)")),
                    Notification(1000, FoodClaimed("Raj Kumar")),
                    Notification(0, OfflineSynced)]
    ensures drone
  {
    var app := new BloomNet();
    PushThrice(Notification(0, OfflineSynced), Notification(1000, FoodClaimed("Raj Kumar")),
               Notification(3000, DisasterZone("Amritsar, Punjab (Disaster Zone)")));
    app.Mount(0);
    var task := ClaimRiceAndDal(app, 1000);
    items := app.foodItems;
    RiceAndDalGoesToRaj();
    EscalateFromAmritsar(app, task.value.chosen, 3000);
    log := app.notifications;
    drone := app.showDroneModal;
  }

  /**
   Claiming the same donation twice: the first claim succeeds and schedules the
   escalation check, the second finds it claimed and changes nothing.
   */
  method DoubleClaimScenario() returns (first: Option<Deferred>, second: Option<Deferred>, log: seq<Notification>)
    ensures first.Some? && second.None?
    ensures log == [Notification(1000, FoodClaimed("Raj Kumar"))]
  {
    var app := new BloomNet();
    SeedLookups();
    RosterDispatchesRaj(1);
    PushBelowCapacity([], Notification(1000, FoodClaimed("Raj Kumar")));
    first := app.Claim(3, 1000);
    ClaimedStaysFound(SeedFood, 3, Optimize(1, Roster));
    second := app.Claim(3, 2000);
    log := app.notifications;
  }
}
