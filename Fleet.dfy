/** Aggregates over the states of every boat ever created, which the class-wide counters track. */
module Fleet {
  import opened VeleroState

  /** How many of the boats are sailing. */
  function CountSailing(s: seq<Boat>): (r: int)
    ensures 0 <= r <= |s|
    decreases |s|
  {
    if |s| == 0 then 0
    else CountSailing(s[..|s| - 1]) + (if s[|s| - 1].navegando then 1 else 0)
  }

  /** The minutes sailed by all the boats together. */
  function SumMinutes(s: seq<Boat>): int
    decreases |s|
  {
    if |s| == 0 then 0
    else SumMinutes(s[..|s| - 1]) + s[|s| - 1].tiempoTotalNavegacionBarco
  }

  predicate AllConsistent(s: seq<Boat>) {
    forall i :: 0 <= i < |s| ==> Consistent(s[i])
  }

  /** A fleet of consistent boats has sailed a non-negative number of minutes. */
  lemma {:induction false} SumMinutesNonNegative(s: seq<Boat>)
    requires AllConsistent(s)
    ensures SumMinutes(s) >= 0
    decreases |s|
  {
    if |s| > 0 {
      SumMinutesNonNegative(s[..|s| - 1]);
    }
  }

  /** A new boat adds one to the count exactly when it is sailing. */
  lemma CountSailingAppend(s: seq<Boat>, b: Boat)
    ensures CountSailing(s + [b]) == CountSailing(s) + (if b.navegando then 1 else 0)
  {
    assert (s + [b])[..|s|] == s;
  }

  /** A new boat adds its own minutes to the total. */
  lemma SumMinutesAppend(s: seq<Boat>, b: Boat)
    ensures SumMinutes(s + [b]) == SumMinutes(s) + b.tiempoTotalNavegacionBarco
  {
    assert (s + [b])[..|s|] == s;
  }

  /** Replacing one boat's state changes the count by the change in that boat's flag alone. */
  lemma {:induction false} CountSailingUpdate(s: seq<Boat>, i: nat, b: Boat)
    requires i < |s|
    ensures CountSailing(s[i := b])
            == CountSailing(s) - (if s[i].navegando then 1 else 0) + (if b.navegando then 1 else 0)
    decreases |s|
  {
    var t := s[i := b];
    var n := |s| - 1;
    if i == n {
      assert t[..n] == s[..n];
    } else {
      assert t[..n] == s[..n][i := b];
      CountSailingUpdate(s[..n], i, b);
    }
  }

  /** Replacing one boat's state changes the total by the change in that boat's minutes alone. */
  lemma {:induction false} SumMinutesUpdate(s: seq<Boat>, i: nat, b: Boat)
    requires i < |s|
    ensures SumMinutes(s[i := b])
            == SumMinutes(s) - s[i].tiempoTotalNavegacionBarco + b.tiempoTotalNavegacionBarco
    decreases |s|
  {
    var t := s[i := b];
    var n := |s| - 1;
    if i == n {
      assert t[..n] == s[..n];
    } else {
      assert t[..n] == s[..n][i := b];
      SumMinutesUpdate(s[..n], i, b);
    }
  }
}
