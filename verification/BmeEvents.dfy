/** Event-change detection of the battery management client: which events a new snapshot
    of counters raises (`bme_flags_update`, `bme_state_update`, src/bme/bmeipc.c). */
module BmeEvents {

  /** The bits of the flag word that the client uses. */
  datatype Flag = Err | Timeout | Sys | Charge | Charger | Bat

  /** The flag of each counter, by position in the event file. */
  const MASKS: seq<Flag> := [Charge, Charger, Bat, Sys]

  /** Flags raised by going from one snapshot to another. */
  function Raised(stored: seq<int>, actual: seq<int>): set<Flag>
    requires |stored| == |actual| == |MASKS|
  {
    set i | 0 <= i < |MASKS| && stored[i] != actual[i] :: MASKS[i]
  }

  /** A change clears the timeout flag and adds what it raises. */
  function Updated(flags: set<Flag>, raised: set<Flag>): set<Flag> {
    if raised == {} then flags else flags - {Timeout} + raised
  }

  /** Each counter has a flag of its own, so a flag is raised iff its counter changed. */
  lemma RaisedIff(stored: seq<int>, actual: seq<int>, i: nat)
    requires |stored| == |actual| == |MASKS| && i < |MASKS|
    ensures MASKS[i] in Raised(stored, actual) <==> stored[i] != actual[i]
    ensures Timeout !in Raised(stored, actual) && Err !in Raised(stored, actual)
  {
  }

  /** The counters in order: charge, charger, battery, system. */
  lemma FlagOfEachCounter(stored: seq<int>, actual: seq<int>)
    requires |stored| == |actual| == 4
    ensures var r := Raised(stored, actual);
      && (Charge in r <==> stored[0] != actual[0])
      && (Charger in r <==> stored[1] != actual[1])
      && (Bat in r <==> stored[2] != actual[2])
      && (Sys in r <==> stored[3] != actual[3])
  {
    RaisedIff(stored, actual, 0);
    RaisedIff(stored, actual, 1);
    RaisedIff(stored, actual, 2);
    RaisedIff(stored, actual, 3);
  }

  /** A change adds its flags and clears the timeout; without one all flags stay. */
  lemma UpdateMeans(flags: set<Flag>, raised: set<Flag>)
    requires Timeout !in raised
    ensures var r := Updated(flags, raised);
      && (Timeout in r <==> Timeout in flags && raised == {})
      && forall f | f != Timeout :: f in r <==> f in flags || f in raised
  {
  }

  /** Two updates in a row raise every flag that either of them raises. */
  lemma UpdatesAccumulate(flags: set<Flag>, a: set<Flag>, b: set<Flag>)
    requires Timeout !in a && Timeout !in b
    ensures Updated(Updated(flags, a), b) == Updated(flags, a + b)
  {
  }

  /** Compares the counters one by one and overwrites those that differ. */
  method StateUpdate(stored: array<int>, actual: seq<int>, flags: set<Flag>) returns (now: set<Flag>)
    requires stored.Length == |actual| == |MASKS|
    modifies stored
    ensures stored[..] == actual
    ensures now == Updated(flags, Raised(old(stored[..]), actual))
  {
    now := flags;
    ghost var was := stored[..];
    ghost var raised: set<Flag> := {};
    var i := 0;
    while i < |MASKS|
      invariant 0 <= i <= |MASKS|
      invariant forall j | 0 <= j < i :: stored[j] == actual[j]
      invariant forall j | i <= j < |was| :: stored[j] == was[j]
      invariant raised == set j | 0 <= j < i && was[j] != actual[j] :: MASKS[j]
      invariant now == Updated(flags, raised)
    {
      if stored[i] != actual[i] {
        now := now - {Timeout};
        now := now + {MASKS[i]};
        UpdatesAccumulate(flags, raised, {MASKS[i]});
        stored[i] := actual[i];
        raised := raised + {MASKS[i]};
      }
      i := i + 1;
    }
  }
}
