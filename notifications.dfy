/**
 The smart notification log: newest first, holding at most ten entries.
 Message texts are kept abstract, one constructor per kind of message the
 engine emits.
 */
module Notifications {
  import opened Food

  const Capacity: nat := 10

  datatype Message =
    | OfflineSynced                                 // the startup sync notice
    | FoodClaimed(volunteerName: string)            // a claim bound a volunteer
    | OnTheWay(volunteerName: string, vehicle: string)
    | DisasterZone(location: string)                // drone delivery activated
    | FoodUploaded(foodName: string, safety: Status)

  /** `id` stands for the clock reading taken when the entry was created. */
  datatype Notification = Notification(id: int, message: Message)

  function Min(a: int, b: int): int
  {
    if a <= b then a else b
  }

  /** Prepends `n` and keeps the newest `Capacity` entries. */
  function Push(log: seq<Notification>, n: Notification): (r: seq<Notification>)
    ensures |r| == Min(|log| + 1, Capacity)
    ensures r[0] == n
    ensures r[1..] == log[..|r| - 1]
  {
    ([n] + log)[..Min(|log| + 1, Capacity)]
  }

  /** Below capacity nothing is evicted: the entry is simply prepended. */
  lemma PushBelowCapacity(log: seq<Notification>, n: Notification)
    requires |log| < Capacity
    ensures Push(log, n) == [n] + log
  {
    assert Push(log, n)[1..] == log;
  }

  /** Two entries pushed onto an empty log are listed newest first. */
  lemma PushTwice(first: Notification, second: Notification)
    ensures Push(Push([], first), second) == [second, first]
  {
    PushBelowCapacity([], first);
    PushBelowCapacity([first], second);
  }

  /** Three entries pushed onto an empty log are listed newest first. */
  lemma PushThrice(first: Notification, second: Notification, third: Notification)
    ensures Push(Push(Push([], first), second), third) == [third, second, first]
  {
    PushTwice(first, second);
    PushBelowCapacity([second, first], third);
  }

  /** The log after pushing each of `ns` in turn, earliest first. */
  function PushAll(log: seq<Notification>, ns: seq<Notification>): seq<Notification>
    decreases |ns|
  {
    if ns == [] then log else PushAll(Push(log, ns[0]), ns[1..])
  }

  function Reverse<T>(s: seq<T>): (r: seq<T>)
    ensures |r| == |s|
  {
    if s == [] then [] else Reverse(s[1..]) + [s[0]]
  }

  /** However many entries are pushed, the log never holds more than `Capacity`. */
  lemma {:induction false} PushAllBounded(log: seq<Notification>, ns: seq<Notification>)
    requires |log| <= Capacity
    ensures |PushAll(log, ns)| <= Capacity
    ensures |PushAll(log, ns)| == Min(|log| + |ns|, Capacity)
    decreases |ns|
  {
    if ns != [] {
      PushAllBounded(Push(log, ns[0]), ns[1..]);
    }
  }

  /** Taking a prefix of the tail first does not change a shorter prefix of the whole. */
  lemma TakeOfTakenTail<T>(a: seq<T>, b: seq<T>, m: nat, p: nat)
    requires m <= |b| && p <= |a| + m
    ensures (a + b[..m])[..p] == (a + b)[..p]
  {
    assert forall i :: 0 <= i < p ==> (a + b[..m])[i] == (a + b)[i];
  }

  /**
   After any run of pushes the log is the most recent `Capacity` entries, newest
   first: the pushed entries in reverse order, followed by the earlier log.
   */
  lemma {:induction false} PushAllNewestFirst(log: seq<Notification>, ns: seq<Notification>)
    requires |log| <= Capacity
    ensures PushAll(log, ns) == (Reverse(ns) + log)[..Min(|ns| + |log|, Capacity)]
    decreases |ns|
  {
    if ns == [] {
      assert Reverse(ns) + log == log;
    } else {
      var log' := Push(log, ns[0]);
      PushAllNewestFirst(log', ns[1..]);
      var p := Min(|ns| + |log|, Capacity);
      assert |log'| == Min(|log| + 1, Capacity);
      assert Min(|ns[1..]| + |log'|, Capacity) == p;
      assert Reverse(ns) + log == Reverse(ns[1..]) + ([ns[0]] + log);
      TakeOfTakenTail(Reverse(ns[1..]), [ns[0]] + log, Min(|log| + 1, Capacity), p);
    }
  }
}
