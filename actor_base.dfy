/** The base class of Service Fabric actors: default lifecycle hooks and the
    registration of reminders (named, looked up by name) and timers
    (anonymous, always new). */
module Actors {
  import opened Common

  /** A registered reminder: its name, and a serial number that tells apart
      reminders created at different times. */
  datatype Reminder = Reminder(name: string, serial: nat)

  /** The reminders in `rs` that carry `name`, in order. */
  function Matches(rs: seq<Reminder>, name: string): (m: seq<Reminder>)
    ensures forall x :: x in m <==> x in rs && x.name == name
    ensures |m| <= |rs|
  {
    if rs == [] then []
    else (if rs[0].name == name then [rs[0]] else []) + Matches(rs[1..], name)
  }

  /** No two reminders in `rs` share a name. */
  ghost predicate UniqueNames(rs: seq<Reminder>)
  {
    forall i, j :: 0 <= i < j < |rs| ==> rs[i].name != rs[j].name
  }

  /** With unique names, at most one reminder matches any name. */
  lemma {:induction false} AtMostOneMatch(rs: seq<Reminder>, name: string)
    requires UniqueNames(rs)
    ensures |Matches(rs, name)| <= 1
  {
    if rs != [] {
      var rest := rs[1..];
      assert UniqueNames(rest) by {
        forall i, j | 0 <= i < j < |rest| ensures rest[i].name != rest[j].name {
          assert rest[i] == rs[i + 1] && rest[j] == rs[j + 1];
        }
      }
      AtMostOneMatch(rest, name);
      forall y | y in rest ensures y.name != rs[0].name {
        var k :| 0 <= k < |rest| && rest[k] == y;
        assert rs[k + 1] == y;
      }
      var m := Matches(rest, name);
      assert rs[0].name == name ==> m == [] by {
        if m != [] { assert m[0] in m; }
      }
    }
  }

  /** `SingleOrDefault(r => r.Name == name)` over the actor's reminders: null
      when none matches, the match when exactly one does, and an
      InvalidOperationException when more than one does. */
  function SingleOrDefault(rs: seq<Reminder>, name: string): (r: Outcome<Option<Reminder>>)
    ensures r == Completed(None) <==> forall x :: x in rs ==> x.name != name
    ensures r.Completed? && r.value.Some? ==>
              r.value.value in rs && r.value.value.name == name
              && forall x :: x in rs && x.name == name ==> x == r.value.value
    ensures r.Faulted? ==> r.error == MoreThanOneMatch(name)
  {
    var m := Matches(rs, name);
    if |m| == 0 then Completed(None)
    else if |m| == 1 then assert m[0] in m; Completed(Some(m[0]))
    else Faulted(MoreThanOneMatch(name))
  }

  /** While names are unique the lookup never throws. */
  lemma SingleOrDefaultCompletes(rs: seq<Reminder>, name: string)
    requires UniqueNames(rs)
    ensures SingleOrDefault(rs, name).Completed?
  {
    AtMostOneMatch(rs, name);
  }

  /** `rs` without the reminder `x`. */
  function Without(rs: seq<Reminder>, x: Reminder): (w: seq<Reminder>)
    ensures forall y :: y in w <==> y in rs && y != x
  {
    if rs == [] then []
    else (if rs[0] == x then [] else [rs[0]]) + Without(rs[1..], x)
  }

  /** Dropping a reminder keeps names unique. */
  lemma {:induction false} WithoutKeepsUniqueNames(rs: seq<Reminder>, x: Reminder)
    requires UniqueNames(rs)
    ensures UniqueNames(Without(rs, x))
  {
    if rs != [] {
      var rest := rs[1..];
      assert UniqueNames(rest) by {
        forall i, j | 0 <= i < j < |rest| ensures rest[i].name != rest[j].name {
          assert rest[i] == rs[i + 1] && rest[j] == rs[j + 1];
        }
      }
      WithoutKeepsUniqueNames(rest, x);
      var tail := Without(rest, x);
      if rs[0] != x {
        var w := [rs[0]] + tail;
        forall i, j | 0 <= i < j < |w| ensures w[i].name != w[j].name {
          if i == 0 {
            assert w[j] == tail[j - 1] && w[j] in rest;
            var k :| 0 <= k < |rest| && rest[k] == w[j];
            assert rs[k + 1] == w[j];
          } else {
            assert w[i] == tail[i - 1] && w[j] == tail[j - 1];
          }
        }
      }
    }
  }

  /** Once a reminder that is not yet there is registered under a fresh name,
      looking the name up finds it. */
  lemma RegisterThenFind(rs: seq<Reminder>, x: Reminder)
    requires UniqueNames(rs)
    requires forall y :: y in rs ==> y.name != x.name
    ensures UniqueNames(rs + [x])
    ensures SingleOrDefault(rs + [x], x.name) == Completed(Some(x))
  {
    var grown := rs + [x];
    forall i, j | 0 <= i < j < |grown| ensures grown[i].name != grown[j].name {
      assert grown[i] in rs;
    }
    SingleOrDefaultCompletes(grown, x.name);
  }

  /** Once the reminder found under a name is dropped, looking the name up finds nothing. */
  lemma UnregisterThenMiss(rs: seq<Reminder>, name: string)
    requires SingleOrDefault(rs, name).Completed? && SingleOrDefault(rs, name).value.Some?
    ensures SingleOrDefault(Without(rs, SingleOrDefault(rs, name).value.value), name) == Completed(None)
  {
  }

  /** An actor timer: when it is first due, its period, and whether it has
      been disposed. */
  class ActorTimer {
    const dueTime: int
    const period: int
    var disposed: bool

    constructor(dueTime: int, period: int)
      ensures this.dueTime == dueTime && this.period == period && !disposed
    {
      this.dueTime := dueTime;
      this.period := period;
      disposed := false;
    }
  }

  class ActorBase {
    /** The reminders the runtime keeps for this actor (`ActorModel.GetReminders`). */
    var reminders: seq<Reminder>
    /** The serial number the next new reminder gets. */
    var nextSerial: nat

    /** Reminder names are unique, and every serial in use is below `nextSerial`. */
    ghost predicate Valid()
      reads this
    {
      UniqueNames(reminders) && forall x :: x in reminders ==> x.serial < nextSerial
    }

    constructor()
      ensures Valid() && reminders == []
    {
      reminders := [];
      nextSerial := 0;
    }

    /** The default activation hook completes at once with `true`. */
    method OnActivateAsync() returns (r: Outcome<bool>)
      ensures r == Completed(true)
    {
      r := Completed(true);
    }

    /** The default deactivation hook completes at once with `true`. */
    method OnDeactivateAsync() returns (r: Outcome<bool>)
      ensures r == Completed(true)
    {
      r := Completed(true);
    }

    /** Completes with the reminder already registered under `name`, or
        registers a new reminder under it. `state`, `dueTime` and `period`
        are not passed on. */
    method RegisterReminderAsync(name: string, state: seq<byte>, dueTime: int, period: int)
      returns (r: Outcome<Reminder>)
      modifies this
      ensures var found := SingleOrDefault(old(reminders), name);
              && (found.Faulted? ==>
                    r == Faulted(found.error) && reminders == old(reminders) && nextSerial == old(nextSerial))
              && (found.Completed? && found.value.Some? ==>
                    r == Completed(found.value.value) && reminders == old(reminders) && nextSerial == old(nextSerial))
              && (found == Completed(None) ==>
                    r == Completed(Reminder(name, old(nextSerial)))
                    && reminders == old(reminders) + [r.value] && nextSerial == old(nextSerial) + 1)
      ensures old(Valid()) ==> Valid()
    {
      var found := SingleOrDefault(reminders, name);
      match found {
        case Faulted(e) =>
          r := Faulted(e);
        case Completed(Some(existing)) =>
          r := Completed(existing);
        case Completed(None) =>
          var created := Reminder(name, nextSerial);
          ghost var before := reminders;
          reminders := reminders + [created];
          nextSerial := nextSerial + 1;
          r := Completed(created);
          if UniqueNames(before) && forall x :: x in before ==> x.serial < nextSerial - 1 {
            RegisterThenFind(before, created);
          }
      }
    }

    /** The reminder registered under `name`, or null; registers nothing. */
    method GetReminder(name: string) returns (r: Outcome<Option<Reminder>>)
      ensures r == SingleOrDefault(reminders, name)
    {
      r := SingleOrDefault(reminders, name);
    }

    /** Disposes the reminder registered under `reminder`'s name, if any, and
        completes with `true` either way. */
    method UnregisterReminderAsync(reminder: Reminder) returns (r: Outcome<bool>)
      modifies this
      ensures nextSerial == old(nextSerial)
      ensures var found := SingleOrDefault(old(reminders), reminder.name);
              && (found.Faulted? ==> r == Faulted(found.error) && reminders == old(reminders))
              && (found.Completed? ==> r == Completed(true))
              && (found == Completed(None) ==> reminders == old(reminders))
              && (found.Completed? && found.value.Some? ==> reminders == Without(old(reminders), found.value.value))
      ensures old(Valid()) ==> Valid()
    {
      var found := SingleOrDefault(reminders, reminder.name);
      if found.Faulted? {
        r := Faulted(found.error);
        return;
      }
      if found.value.Some? {
        ghost var before := reminders;
        reminders := Without(reminders, found.value.value);
        if UniqueNames(before) {
          WithoutKeepsUniqueNames(before, found.value.value);
        }
      }
      r := Completed(true);
    }

    /** Creates a new timer; nothing else changes. */
    method RegisterTimer(dueTime: int, period: int) returns (t: ActorTimer)
      ensures fresh(t) && t.dueTime == dueTime && t.period == period && !t.disposed
    {
      t := new ActorTimer(dueTime, period);
    }

    /** Disposes the given timer and nothing else. */
    method UnregisterTimer(t: ActorTimer)
      modifies t
      ensures t.disposed
    {
      t.disposed := true;
    }
  }

  /** Registering a name twice gives the same reminder, and the second call
      adds nothing. */
  method RegisterReminderTwice(actor: ActorBase, name: string)
    returns (first: Outcome<Reminder>, second: Outcome<Reminder>)
    requires actor.Valid()
    modifies actor
    ensures first.Completed? && first == second
    ensures first.value.name == name && first.value in actor.reminders
    ensures actor.Valid()
  {
    SingleOrDefaultCompletes(actor.reminders, name);
    first := actor.RegisterReminderAsync(name, [], 0, -1);
    ghost var afterFirst := actor.reminders;
    SingleOrDefaultCompletes(afterFirst, name);
    second := actor.RegisterReminderAsync(name, [], 0, -1);
  }

  /** Two timer registrations give two distinct timers. */
  method RegisterTwoTimers(actor: ActorBase, dueTime: int, period: int)
    returns (first: ActorTimer, second: ActorTimer)
    ensures first != second
  {
    first := actor.RegisterTimer(dueTime, period);
    second := actor.RegisterTimer(dueTime, period);
  }
}
