/**
 The disaster-zone detector: a case-sensitive substring test of a donation's
 location label against the markers "Amritsar" and "Disaster", which chooses
 between drone delivery and the ground volunteer.
 */
module Escalation {

  predicate StartsWith(s: string, prefix: string)
  {
    |prefix| <= |s| && s[..|prefix|] == prefix
  }

  /**
   `String.prototype.includes`, scanning the label from the left: the empty
   part is always found, and a part longer than the label never is.
   */
  function Includes(s: string, part: string): (found: bool)
    ensures part == [] ==> found
    ensures found ==> |part| <= |s|
  {
    StartsWith(s, part) || (|s| > 0 && Includes(s[1..], part))
  }

  /** `part` occurs in `s` starting at position `i`. */
  ghost predicate OccursAt(s: string, part: string, i: int)
  {
    0 <= i <= |s| - |part| && s[i..i + |part|] == part
  }

  /** Reference definition: `part` occurs at some position of `s`. */
  ghost predicate Occurs(s: string, part: string)
  {
    exists i :: OccursAt(s, part, i)
  }

  /** A slice of the tail is the slice one position further along. */
  lemma SliceOfTail(s: string, i: nat, n: nat)
    requires 1 + i + n <= |s|
    ensures s[1..][i..i + n] == s[i + 1..i + 1 + n]
  {
    var t := s[1..][i..i + n];
    assert forall j :: 0 <= j < n ==> t[j] == s[i + 1..i + 1 + n][j];
  }

  /** The scan finds `part` exactly when it occurs somewhere in `s`. */
  lemma {:induction false} IncludesIffOccurs(s: string, part: string)
    ensures Includes(s, part) <==> Occurs(s, part)
  {
    if StartsWith(s, part) {
      assert OccursAt(s, part, 0);
    } else if |s| > 0 {
      IncludesIffOccurs(s[1..], part);
      if Occurs(s[1..], part) {
        var i :| OccursAt(s[1..], part, i);
        SliceOfTail(s, i, |part|);
        assert OccursAt(s, part, i + 1);
      }
      if Occurs(s, part) {
        var i :| OccursAt(s, part, i);
        if i > 0 {
          SliceOfTail(s, i - 1, |part|);
          assert OccursAt(s[1..], part, i - 1);
        }
      }
    }
  }

  /** The markers that put a location in a disaster zone: either one occurring anywhere in it. */
  function IsDisasterZone(location: string): (zone: bool)
    ensures zone <==> Occurs(location, "Amritsar") || Occurs(location, "Disaster")
  {
    IncludesIffOccurs(location, "Amritsar");
    IncludesIffOccurs(location, "Disaster");
    Includes(location, "Amritsar") || Includes(location, "Disaster")
  }

  datatype Channel = Drone | Ground

  /** Drone delivery for a disaster zone, the ground volunteer anywhere else. */
  function Route(location: string): (c: Channel)
    ensures c == Drone <==> Occurs(location, "Amritsar") || Occurs(location, "Disaster")
  {
    if IsDisasterZone(location) then Drone else Ground
  }

  /** A location in which the first letter of `part` never appears where `part` could start. */
  lemma AbsentWithoutFirstLetter(s: string, part: string)
    requires |part| > 0
    requires forall i :: 0 <= i <= |s| - |part| ==> s[i] != part[0]
    ensures !Occurs(s, part)
  {
    forall i | 0 <= i <= |s| - |part| ensures !OccursAt(s, part, i) {
      assert s[i..i + |part|][0] == s[i];
    }
  }

  /** The seeded Amritsar donation goes by drone. */
  lemma AmritsarGoesByDrone()
    ensures Route("Amritsar, Punjab (Disaster Zone)") == Drone
  {
    assert "Amritsar, Punjab (Disaster Zone)"[0..8] == "Amritsar";
  }

  /** The seeded Karol Bagh donation goes with the ground volunteer. */
  lemma KarolBaghGoesByGround()
    ensures Route("Karol Bagh, Delhi") == Ground
  {
    var s := "Karol Bagh, Delhi";
    AbsentWithoutFirstLetter(s, "Amritsar");
    AbsentWithoutFirstLetter(s, "Disaster");
  }
}
