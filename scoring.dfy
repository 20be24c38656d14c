/**
 The volunteer load optimizer of BloomNet: an urgency tier derived from a
 donation's expiry, a fixed linear score per volunteer, and a stable
 descending sort whose head is the volunteer dispatched.

 Distances and ratings are decimals in the source; they are only added,
 subtracted and multiplied by integers, so they are modelled as exact `real`s.
 */
module Scoring {

  /** A member of the volunteer pool (reference data, never updated here). */
  datatype Volunteer = Volunteer(
    id: int,
    name: string,
    distance: real,
    workload: int,
    vehicle: string,
    rating: real)

  /** A volunteer together with the score it was given for one donation. */
  datatype Candidate = Candidate(volunteer: Volunteer, score: real)

  /** The fixed pool every claim is scored against. */
  const Roster: seq<Volunteer> := [
    Volunteer(1, "Raj Kumar", 2.5, 2, "Bike", 4.8),
    Volunteer(2, "Priya Sharma", 4.2, 1, "Car", 4.9),
    Volunteer(3, "Amit Singh", 1.8, 3, "Van", 4.7)
  ]

  /** Urgency tier of a donation: 5 within one unit of expiry, 3 within three, else 1. */
  function Urgency(expiry: int): (u: int)
    ensures u == 5 <==> expiry <= 1
    ensures u == 3 <==> 2 <= expiry <= 3
    ensures u == 1 <==> 4 <= expiry
  {
    if expiry <= 1 then 5 else if expiry <= 3 then 3 else 1
  }

  /** A shorter expiry never gives a lower urgency tier. */
  lemma UrgencyAntitone(e1: int, e2: int)
    requires e1 <= e2
    ensures Urgency(e2) <= Urgency(e1)
  {
  }

  /**
   Proximity, spare capacity and rating, plus the urgency tier: each unit of
   distance costs three points, each task in hand two, and every rating or
   urgency point counts once, from a base of 40 points.
   */
  function Score(v: Volunteer, urgency: int): (score: real)
    ensures score == 40.0 - 3.0 * v.distance - 2.0 * v.workload as real + v.rating + urgency as real
  {
    (10.0 - v.distance) * 3.0 + (5 - v.workload) as real * 2.0 + v.rating + urgency as real
  }

  lemma ScoreDecreasesWithDistance(v: Volunteer, d1: real, d2: real, urgency: int)
    requires d1 < d2
    ensures Score(v.(distance := d2), urgency) < Score(v.(distance := d1), urgency)
  {
  }

  lemma ScoreDecreasesWithWorkload(v: Volunteer, w1: int, w2: int, urgency: int)
    requires w1 < w2
    ensures Score(v.(workload := w2), urgency) < Score(v.(workload := w1), urgency)
  {
  }

  lemma ScoreIncreasesWithRating(v: Volunteer, r1: real, r2: real, urgency: int)
    requires r1 < r2
    ensures Score(v.(rating := r1), urgency) < Score(v.(rating := r2), urgency)
  {
  }

  lemma ScoreIncreasesWithUrgency(v: Volunteer, u1: int, u2: int)
    requires u1 < u2
    ensures Score(v, u1) < Score(v, u2)
  {
  }

  /** Every volunteer of the pool, in pool order, with its score attached. */
  function ScoreAll(pool: seq<Volunteer>, urgency: int): (scored: seq<Candidate>)
    ensures |scored| == |pool|
    ensures forall i :: 0 <= i < |pool| ==>
      scored[i].volunteer == pool[i] && scored[i].score == Score(pool[i], urgency)
  {
    if pool == [] then []
    else [Candidate(pool[0], Score(pool[0], urgency))] + ScoreAll(pool[1..], urgency)
  }

  /** Highest score first. */
  ghost predicate Descending(s: seq<Candidate>)
  {
    forall i, j :: 0 <= i < j < |s| ==> s[j].score <= s[i].score
  }

  /**
   Inserts `c` into a descending sequence in front of every element whose score
   it reaches, so that `c` stays ahead of its equals: the insertion step of a
   stable sort when `c` was listed before every element of `s`.
   */
  function Insert(c: Candidate, s: seq<Candidate>): (r: seq<Candidate>)
    ensures |r| == |s| + 1
    ensures multiset(r) == multiset(s) + multiset{c}
    ensures r[0] == c || (s != [] && r[0] == s[0])
  {
    if s == [] || s[0].score <= c.score then [c] + s
    else
      assert s == [s[0]] + s[1..];
      [s[0]] + Insert(c, s[1..])
  }

  /** Insertion keeps a descending sequence descending. */
  lemma {:induction false} InsertKeepsDescending(c: Candidate, s: seq<Candidate>)
    requires Descending(s)
    ensures Descending(Insert(c, s))
  {
    var r := Insert(c, s);
    if s == [] || s[0].score <= c.score {
      forall i, j | 0 <= i < j < |r| ensures r[j].score <= r[i].score {
        assert r[j] == s[j - 1];
        if i > 0 {
          assert r[i] == s[i - 1];
        } else if j > 1 {
          assert s[j - 1].score <= s[0].score;
        }
      }
    } else {
      var rest := Insert(c, s[1..]);
      assert r == [s[0]] + rest;
      InsertKeepsDescending(c, s[1..]);
      assert rest[0].score <= s[0].score;
      forall i, j | 0 <= i < j < |r| ensures r[j].score <= r[i].score {
        assert r[j] == rest[j - 1];
        if i > 0 {
          assert r[i] == rest[i - 1];
        } else {
          assert rest[j - 1].score <= rest[0].score;
        }
      }
    }
  }

  /**
   Sort by descending score, the comparator `b.score - a.score`; it is stable
   at the head (`SortHeadIsFirstBest`).
   */
  function SortDescending(s: seq<Candidate>): (r: seq<Candidate>)
    ensures |r| == |s|
    ensures multiset(r) == multiset(s)
    ensures Descending(r)
  {
    if s == [] then []
    else
      assert s == [s[0]] + s[1..];
      InsertKeepsDescending(s[0], SortDescending(s[1..]));
      Insert(s[0], SortDescending(s[1..]))
  }

  /** Reference definition: the position of the earliest-listed highest score. */
  function FirstBest(s: seq<Candidate>): (k: nat)
    requires |s| > 0
    ensures k < |s|
    ensures forall j :: 0 <= j < |s| ==> s[j].score <= s[k].score
    ensures forall j :: 0 <= j < k ==> s[j].score < s[k].score
  {
    if |s| == 1 then 0
    else
      var k := FirstBest(s[1..]);
      if s[1 + k].score <= s[0].score then 0 else 1 + k
  }

  /** The head of the stable descending sort is the earliest-listed highest score. */
  lemma {:induction false} SortHeadIsFirstBest(s: seq<Candidate>)
    requires |s| > 0
    ensures SortDescending(s)[0] == s[FirstBest(s)]
  {
    if |s| > 1 {
      SortHeadIsFirstBest(s[1..]);
    }
  }

  /**
   The volunteer dispatched for a donation with the given expiry: the pool is
   scored, sorted by descending score, and the head is taken. The result is a
   member of the pool with the highest score, and no volunteer listed before it
   reaches that score.
   */
  function Optimize(expiry: int, pool: seq<Volunteer>): (best: Candidate)
    requires |pool| > 0
    ensures best.score == Score(best.volunteer, Urgency(expiry))
    ensures best.volunteer in pool
    ensures forall v :: v in pool ==> Score(v, Urgency(expiry)) <= best.score
    ensures exists k :: 0 <= k < |pool| && pool[k] == best.volunteer &&
                        forall j :: 0 <= j < k ==> Score(pool[j], Urgency(expiry)) < best.score
  {
    var scored := ScoreAll(pool, Urgency(expiry));
    SortHeadIsFirstBest(scored);
    var k := FirstBest(scored);
    assert pool[k] == scored[k].volunteer;
    SortDescending(scored)[0]
  }

  /**
   With the fixed roster, Raj Kumar is dispatched for every expiry: he and Amit
   Singh tie on the highest score, and Raj is listed first.
   */
  lemma RosterDispatchesRaj(expiry: int)
    ensures Optimize(expiry, Roster).volunteer == Roster[0]
  {
    var u := Urgency(expiry);
    var best := Optimize(expiry, Roster);
    assert Score(Roster[0], u) == Score(Roster[2], u) == 33.3 + u as real;
    assert Score(Roster[1], u) == 30.3 + u as real;
    var k :| 0 <= k < |Roster| && Roster[k] == best.volunteer &&
      forall j :: 0 <= j < k ==> Score(Roster[j], u) < best.score;
    assert Roster[0] in Roster;
  }
}
