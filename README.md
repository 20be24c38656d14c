# BloomNet claim-and-dispatch engine in Dafny

BloomNet is a demo front-end for food rescue. Donors post surplus food.
Volunteers are matched to a donation and dispatched to collect it. Donations
from a disaster zone are escalated to drone delivery. All of the decision
logic sits in the `BloomNet` component of `bloomnet/App.js`. This project
models that logic and proves properties of it.

- `scoring.dfy`, module `Scoring`: the volunteer load optimizer. It covers
  the urgency tier from a donation's expiry, the linear score per volunteer,
  and the stable descending sort whose head is dispatched. The fixed
  three-volunteer roster is included.
- `food.dfy`, module `Food`: the donation record and the three seeded
  donations. It also holds the lookup by id (`find`) and the claim update
  applied to the whole list (`map`). The last part is the record an upload
  creates, with its derived safety status and score.
- `notifications.dfy`, module `Notifications`: the notification log. A new
  entry is prepended and the log is cut to ten entries. Message texts are
  abstract constructors, one per kind of message.
- `escalation.dfy`, module `Escalation`: the disaster-zone test. It is a
  case-sensitive substring search for "Amritsar" or "Disaster" in the
  location label. A left-to-right scan is proved equal to a reference
  "occurs at some position" definition.
- `app.dfy`, module `App`: class `BloomNet`. Its fields are the component's
  state `foodItems`, `notifications` and `showDroneModal`. Its methods are
  the claim handler, the upload handler, the notification helper and the
  startup notice. The two `setTimeout` continuations of a claim are
  explicit `Deferred` tasks. `Claim` returns the escalation check and
  `Fire` runs it. In a disaster zone, `Fire` returns the follow-up task
  that raises the drone modal.

Decimal distances and ratings are exact `real`s. The source only adds,
subtracts and multiplies them by integers. In IEEE doubles the scores are
rounded and need not be the double nearest the exact value (Priya Sharma's
tier-1 score is 31.299999999999997, not 31.3), but the ranking is the same:
in doubles too, Raj Kumar and Amit Singh tie exactly at the top for tiers 5,
3 and 1, and Priya Sharma scores below them.

The code raises no errors:

- A claim on a missing id, or on an already claimed donation, does nothing.
- An empty volunteer pool has no error path. The pool is a fixed
  three-element constant, so `Optimize` requires a non-empty pool.
- Distance and workload are the static roster attributes. The great-circle
  distance is never used by the scoring.

## Model

| member | source | states |
|---|---|---|
| `Scoring.Urgency` | bloomnet/App.js:100 | expiry ≤ 1 gives tier 5, expiry 2..3 gives tier 3, expiry ≥ 4 gives tier 1, each as an if-and-only-if |
| `Scoring.UrgencyAntitone` | bloomnet/App.js:100 | a later expiry never gives a higher urgency tier |
| `Scoring.Score` | bloomnet/App.js:104 | the linear score (10 − distance)·3 + (5 − workload)·2 + rating + urgency, that is 40 points less 3 per unit of distance and 2 per task in hand, plus rating and urgency; its monotonicity is the four Score… lemmas |
| `Scoring.ScoreDecreasesWithDistance` | bloomnet/App.js:104 | with the other terms fixed, a greater distance gives a strictly lower score |
| `Scoring.ScoreDecreasesWithWorkload` | bloomnet/App.js:104 | with the other terms fixed, a greater workload gives a strictly lower score |
| `Scoring.ScoreIncreasesWithRating` | bloomnet/App.js:104 | with the other terms fixed, a higher rating gives a strictly higher score |
| `Scoring.ScoreIncreasesWithUrgency` | bloomnet/App.js:104 | with the other terms fixed, a higher urgency gives a strictly higher score |
| `Scoring.ScoreAll` | bloomnet/App.js:101-105 | the scored list has the pool's length, and entry i is volunteer i with its score |
| `Scoring.Insert` | bloomnet/App.js:106 | insertion adds exactly the one candidate (multiset), and the head is either that candidate or the old head |
| `Scoring.InsertKeepsDescending` | bloomnet/App.js:106 | inserting into a descending list keeps it descending |
| `Scoring.SortDescending` | bloomnet/App.js:106 | the sorted list is a permutation of the scored list and is in descending score order |
| `Scoring.FirstBest` | bloomnet/App.js:99-107 | reference arg-max: the position holds the highest score and every earlier entry scores strictly lower |
| `Scoring.SortHeadIsFirstBest` | bloomnet/App.js:106 | the head of the stable descending sort is the earliest-listed highest score |
| `Scoring.Optimize` | bloomnet/App.js:99-107 | the dispatched volunteer is in the pool and scores at least as high as every pool member; no volunteer listed before it reaches its score (ties go to the first listed) |
| `Scoring.RosterDispatchesRaj` | bloomnet/App.js:38-42 | with the fixed roster, Raj Kumar is dispatched for every expiry (he ties with Amit Singh and is listed first) |
| `Food.FindFood` | bloomnet/App.js:136 | the result is absent exactly when no donation has the id; otherwise it is the first position holding the id |
| `Food.ClaimAll` | bloomnet/App.js:141-143 | the length is kept; every donation with the id becomes claimed and is bound to the chosen volunteer; every other donation is unchanged |
| `Food.ClaimAllKeepsConsistency` | bloomnet/App.js:141-143 | a claim preserves "claimed exactly when a volunteer is bound" for every donation |
| `Food.ClaimedStaysFound` | bloomnet/App.js:136-143 | after a claim, the lookup of that id finds the same donation, now claimed, so a second claim is a no-op |
| `Food.Accepts` | bloomnet/App.js:166 | an upload goes ahead exactly when name, quantity and expiry are all non-empty |
| `Food.SafetyStatus` | bloomnet/App.js:168 | the status is "Share Soon" exactly when expiry ≤ 2, and "Fresh" otherwise |
| `Food.SafetyScore` | bloomnet/App.js:175 | "Fresh" scores 95 and "Share Soon" scores 70 |
| `Food.DonorName` | bloomnet/App.js:176 | the signed-in user's name when there is a non-empty one, otherwise "Anonymous Donor" |
| `Food.NewFood` | bloomnet/App.js:170-179 | the uploaded donation copies the form's fields, takes the given id and the parsed expiry, is unclaimed with no volunteer, and is Share Soon/70 for expiry ≤ 2 and Fresh/95 otherwise |
| `Notifications.Push` | bloomnet/App.js:77 | the new log starts with the new entry, continues with a prefix of the old log, and has length min(old length + 1, 10) |
| `Notifications.PushBelowCapacity` | bloomnet/App.js:77 | below capacity nothing is evicted: the entry is simply prepended |
| `Notifications.PushTwice` | bloomnet/App.js:77 | two entries pushed onto an empty log are listed newest first |
| `Notifications.PushThrice` | bloomnet/App.js:77 | three entries pushed onto an empty log are listed newest first |
| `Notifications.PushAllBounded` | bloomnet/App.js:76-78 | after any run of pushes, the log holds at most 10 entries, exactly min(old + pushed, 10) |
| `Notifications.PushAllNewestFirst` | bloomnet/App.js:76-78 | after any run of pushes, the log is the newest 10 entries: the pushed ones in reverse order, then the earlier log |
| `Escalation.Includes` | bloomnet/App.js:149 | `String.prototype.includes`: the empty part is always found, and a part longer than the label never is |
| `Escalation.IncludesIffOccurs` | bloomnet/App.js:149 | the left-to-right `includes` scan succeeds exactly when the part occurs at some position of the label |
| `Escalation.IsDisasterZone` | bloomnet/App.js:149 | a location is a disaster zone exactly when "Amritsar" or "Disaster" occurs somewhere in it |
| `Escalation.Route` | bloomnet/App.js:149-150 | drone delivery exactly when "Amritsar" or "Disaster" occurs in the location, ground delivery otherwise |
| `Escalation.AmritsarGoesByDrone` | bloomnet/App.js:149 | the label "Amritsar, Punjab (Disaster Zone)" is routed to the drone |
| `Escalation.KarolBaghGoesByGround` | bloomnet/App.js:149 | the label "Karol Bagh, Delhi" is routed to the ground volunteer |
| `App.BloomNet.constructor` | bloomnet/App.js:20-36 | the component starts with the three seeded donations, an empty log and the drone modal closed |
| `App.BloomNet.AddNotification` | bloomnet/App.js:76-78 | the log becomes the bounded push of the new entry; the log stays within 10 entries and the claim invariant holds |
| `App.BloomNet.Mount` | bloomnet/App.js:131 | the startup effect pushes the offline-sync notice |
| `App.BloomNet.Claim` | bloomnet/App.js:135-146 | a missing or already claimed donation leaves the list and the log unchanged and schedules nothing. Otherwise the list becomes the claim update with the optimizer's pick and the "claimed" notice is pushed. The escalation check for the donation's location is then scheduled. The drone flag is untouched |
| `App.BloomNet.Fire` | bloomnet/App.js:147-156 | escalation for a disaster-zone location pushes only the disaster notice and schedules the drone modal. Elsewhere it pushes only the "on the way" notice naming volunteer and vehicle, and the drone flag is untouched. The drone task sets the flag and changes nothing else |
| `App.BloomNet.UploadFood` | bloomnet/App.js:165-182 | an upload is accepted exactly when name, quantity and expiry are filled in. When it is not, nothing changes. When it is, the new donation is prepended before the unchanged old list and the upload notice with its safety status is pushed |
| `App.SeedLookups` | bloomnet/App.js:31-35 | the Rice & Dal donation (id 3) is the third seeded donation, unclaimed, with expiry 1 and the Amritsar disaster-zone label |
| `App.RiceAndDalGoesToRaj` | bloomnet/App.js:135-143 | the claim update for Rice & Dal with the optimizer's pick for expiry 1 leaves three donations, the third claimed and bound to Raj Kumar |
| `App.ClaimRiceAndDal` | bloomnet/App.js:135-146 | claiming the seeded Rice & Dal donation turns the list into the claim update with the optimizer's pick for expiry 1, announces Raj Kumar, and schedules the escalation check for its Amritsar location; only the list and the log change |
| `App.EscalateFromAmritsar` | bloomnet/App.js:147-156 | the escalation check for the Amritsar label pushes only the disaster notice, and the timer it schedules raises the drone modal; the donation list is untouched |
| `App.DisasterClaimScenario` | bloomnet/App.js:129-156 | after the start-up notice, claiming Rice & Dal binds Raj Kumar to it (the third donation, now claimed) and announces it. The timers then announce drone delivery and raise the drone modal. The log is the disaster notice, the claim notice and the start-up notice, newest first, with no "on the way" notice |
| `App.DoubleClaimScenario` | bloomnet/App.js:136-137 | a second claim of the same donation returns no task and leaves the log at the single "claimed" notice |

## Left out

- `calculateDistance` (haversine with floating-point trigonometry): the scoring never calls it and reads the static roster distance instead.
- The geolocation part of the startup effect (browser position lookup, console output, the location-error flag): browser I/O. Only its notification push is modelled, as `Mount`.
- Timer delays: the two `setTimeout` continuations are `Deferred` tasks run by `Fire` in scheduling order. Wall-clock timing is not modelled. Neither is how other events could interleave between the claim and its timers.
- `Date.now()` ids and the "Just now" label: the clock reading is the `now` parameter. The uploaded donation and its notice share it.
- `parseInt` of the expiry field: the form holds an already parsed integer, or `None` for an empty field. Non-numeric text, which would parse to NaN and rate as "Fresh", is not modelled.
- Notification texts and emoji: messages are abstract constructors carrying the values the texts interpolate.
- The stale-closure read in the claim handler: the lookup reads the rendered list and the update maps over the latest list. In this sequential model the two are the same list.
- Concurrent claims and pushes: React runs the handlers one at a time on one thread. The model runs its methods sequentially.
- UI-only state and tables: translations, languages, kitchen alerts, hunger zones, the login/upload/assistant modals, search and voice reading (console output plus a notification), the form reset after upload, and the rendered JSX.
- Scoring.Optimize: scores are exact reals rather than IEEE doubles. For the fixed roster the ranking and the tie at the top are the same in both, though the double scores are only rounded values. For other pools, rounding could break or create a tie differently.
