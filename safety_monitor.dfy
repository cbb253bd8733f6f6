/** The Raft safety monitor: it watches leader elections and flags a term in
    which a second leader is reported. */
module Raft {

  /** The monitor's states. */
  datatype MonitorState = Init | Monitoring

  /** What handling one notification did. */
  datatype Verdict =
    | Passed                    // the term had no leader yet and now has one
    | AssertionFailed(term: int) // "Detected more than one leader in term"
    | Unhandled                 // the event arrived in a state that does not handle it

  /** The abstract effect of a run of notifications: the terms that have a
      leader, or the first term reported twice. */
  datatype Check = Holds(termsWithLeader: set<int>) | Violated(term: int)

  /** ProcessLeaderElected on the set of terms with a leader: the assertion,
      then the insertion. */
  function LeaderElected(terms: set<int>, term: int): (r: Check)
    ensures r.Violated? <==> term in terms
    ensures r.Violated? ==> r.term == term
    ensures r.Holds? ==> term in r.termsWithLeader && terms <= r.termsWithLeader
                         && r.termsWithLeader - terms == {term}
  {
    if term in terms then Violated(term) else Holds(terms + {term})
  }

  /** A run of notifications, in order, starting from `terms`; it stops at the
      first failed assertion. */
  function CheckElections(terms: set<int>, elected: seq<int>): (c: Check)
    decreases |elected|
  {
    if elected == [] then Holds(terms)
    else
      match LeaderElected(terms, elected[0])
      case Violated(t) => Violated(t)
      case Holds(next) => CheckElections(next, elected[1..])
  }

  /** No term is reported twice in `elected`, nor is any already in `terms`. */
  ghost predicate AllNew(terms: set<int>, elected: seq<int>)
  {
    && (forall i, j :: 0 <= i < j < |elected| ==> elected[i] != elected[j])
    && (forall i :: 0 <= i < |elected| ==> elected[i] !in terms)
  }

  /** A run passes exactly when every reported term is new, and then the
      terms with a leader are the old ones plus the reported ones. */
  lemma {:induction false} CheckElectionsHoldsIff(terms: set<int>, elected: seq<int>)
    ensures CheckElections(terms, elected).Holds? <==> AllNew(terms, elected)
    ensures CheckElections(terms, elected).Holds? ==>
              CheckElections(terms, elected).termsWithLeader == terms + (set t | t in elected)
    decreases |elected|
  {
    if elected != [] {
      var t, rest := elected[0], elected[1..];
      assert forall i :: 0 <= i < |rest| ==> rest[i] == elected[i + 1];
      if t !in terms {
        CheckElectionsHoldsIff(terms + {t}, rest);
        if AllNew(terms + {t}, rest) {
          forall i, j | 0 <= i < j < |elected| ensures elected[i] != elected[j] {
            if i > 0 { assert elected[i] == rest[i - 1]; }
            assert elected[j] == rest[j - 1];
          }
        }
        if AllNew(terms, elected) {
          assert AllNew(terms + {t}, rest) by {
            forall i | 0 <= i < |rest| ensures rest[i] !in terms + {t} {
              assert rest[i] == elected[i + 1] && elected[0] != elected[i + 1];
            }
          }
        }
        assert (set x | x in elected) == {t} + (set x | x in rest);
      } else {
        assert elected[0] in terms;
      }
    }
  }

  /** The first term that repeats, either an earlier report or a term already
      with a leader, is the one the monitor flags. */
  lemma {:induction false} FirstRepeatIsFlagged(terms: set<int>, elected: seq<int>, k: nat)
    requires k < |elected|
    requires AllNew(terms, elected[..k])
    requires elected[k] in terms || elected[k] in elected[..k]
    ensures CheckElections(terms, elected) == Violated(elected[k])
    decreases k
  {
    if k > 0 {
      var t, rest := elected[0], elected[1..];
      var seen, seenRest := elected[..k], rest[..k - 1];
      assert seen[0] == t && t !in terms;
      assert forall i :: 0 <= i < k - 1 ==> seenRest[i] == seen[i + 1];
      assert AllNew(terms + {t}, seenRest);
      assert rest[k - 1] == elected[k];
      assert elected[k] in terms + {t} || elected[k] in seenRest by {
        if elected[k] in seen && elected[k] != t {
          var i :| 0 <= i < k && seen[i] == elected[k];
          assert seenRest[i - 1] == elected[k];
        }
      }
      FirstRepeatIsFlagged(terms + {t}, rest, k - 1);
    }
  }

  class SafetyMonitor {
    var state: MonitorState
    var currentTerm: int
    var termsWithLeader: set<int>

    /** The monitor starts in Init, whose entry action runs at once; the
        LocalEvent that action raises moves it to Monitoring. */
    constructor()
      ensures state == Monitoring && currentTerm == -1 && termsWithLeader == {}
    {
      state := Init;
      // the C# field defaults, before the entry action runs
      currentTerm := 0;
      termsWithLeader := {};
      new;
      InitOnEntry();
      state := Monitoring;
    }

    /** No term has a leader yet, and the current term is -1. */
    method InitOnEntry()
      modifies this
      ensures currentTerm == -1 && termsWithLeader == {} && state == old(state)
    {
      currentTerm := -1;
      termsWithLeader := {};
    }

    /** The action for NotifyLeaderElected: assert the term has no leader yet,
        then record it. A failed assertion records nothing. */
    method ProcessLeaderElected(term: int) returns (v: Verdict)
      modifies this
      ensures state == old(state) && currentTerm == old(currentTerm)
      ensures match LeaderElected(old(termsWithLeader), term)
              case Holds(next) => v == Passed && termsWithLeader == next
              case Violated(t) => v == AssertionFailed(t) && termsWithLeader == old(termsWithLeader)
    {
      if term in termsWithLeader {
        v := AssertionFailed(term);
        return;
      }
      termsWithLeader := termsWithLeader + {term};
      v := Passed;
    }

    /** Delivery of NotifyLeaderElected: only Monitoring handles it. */
    method NotifyLeaderElected(term: int) returns (v: Verdict)
      modifies this
      ensures state == old(state) && currentTerm == old(currentTerm)
      ensures old(termsWithLeader) <= termsWithLeader
      ensures old(state) != Monitoring ==> v == Unhandled && termsWithLeader == old(termsWithLeader)
      ensures old(state) == Monitoring ==>
                match LeaderElected(old(termsWithLeader), term)
                case Holds(next) => v == Passed && termsWithLeader == next
                case Violated(t) => v == AssertionFailed(t) && termsWithLeader == old(termsWithLeader)
    {
      if state == Monitoring {
        v := ProcessLeaderElected(term);
      } else {
        v := Unhandled;
      }
    }
  }
}
