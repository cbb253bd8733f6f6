/** The Receiver actor of the buggy-example sample: a counter kept under the
    state name "itemCount" of its state manager. */
module BuggyExample {
  import opened Common
  import opened StateStore
  import StateManager

  /** The one state name the Receiver uses. */
  const ItemCount: string := "itemCount"

  /** C#'s unchecked `count++` on an `int`: the largest value wraps to the smallest. */
  function Increment(x: int32): (r: int32)
    ensures x as int < MaxInt32 ==> r as int == x as int + 1
    ensures x as int == MaxInt32 ==> r as int == MinInt32
  {
    if x as int == MaxInt32 then MinInt32 as int32 else x + 1
  }

  /** TransmitData on the store: read the count (throwing when it is missing),
      add one, and write it back. */
  function Transmit(s: Store<int32>): (r: StoreStep<int32, ()>)
    ensures ItemCount !in s ==> r == StoreStep(s, Faulted(KeyNotFound(ItemCount)))
    ensures ItemCount in s ==>
              && r.outcome == Completed(())
              && ItemCount in r.store && r.store[ItemCount] == Increment(s[ItemCount])
              && SameExcept(s, r.store, ItemCount)
  {
    match GetState(s, ItemCount)
    case Faulted(e) => StoreStep(s, Faulted(e))
    case Completed(count) => StoreStep(SetState(s, ItemCount, Increment(count)), Completed(()))
  }

  /** n TransmitData calls in a row; the first one that throws ends the run. */
  function TransmitMany(s: Store<int32>, n: nat): (r: StoreStep<int32, ()>)
  {
    if n == 0 then StoreStep(s, Completed(()))
    else
      var first := Transmit(s);
      if first.outcome.Faulted? then first else TransmitMany(first.store, n - 1)
  }

  /** n calls add exactly n to a count that does not overflow, and touch
      nothing else. */
  lemma {:induction false} TransmitManyAdds(s: Store<int32>, n: nat)
    requires ItemCount in s && s[ItemCount] as int + n <= MaxInt32
    ensures var r := TransmitMany(s, n);
            && r.outcome == Completed(())
            && ItemCount in r.store && r.store[ItemCount] as int == s[ItemCount] as int + n
            && SameExcept(s, r.store, ItemCount)
  {
    if n > 0 {
      var first := Transmit(s);
      TransmitManyAdds(first.store, n - 1);
    }
  }

  /** Starting a transaction and then transmitting n items leaves a final
      count of n. */
  lemma StartThenTransmitCounts(s: Store<int32>, n: nat)
    requires ItemCount !in s && n <= MaxInt32
    ensures var started := AddState(s, ItemCount, 0 as int32);
            && started.outcome == Completed(())
            && GetState(TransmitMany(started.store, n).store, ItemCount) == Completed(n as int32)
  {
    TransmitManyAdds(AddState(s, ItemCount, 0 as int32).store, n);
  }

  /** Transmitting before starting throws, and so does starting twice. */
  lemma OutOfOrderCallsFail(s: Store<int32>)
    ensures ItemCount !in s ==> Transmit(s).outcome == Faulted(KeyNotFound(ItemCount))
    ensures ItemCount in s ==> AddState(s, ItemCount, 0 as int32).outcome == Faulted(DuplicateKey(ItemCount))
  {
  }

  class Receiver {
    /** The actor's state manager. */
    const stateManager: StateManager.ActorStateManager<int32>

    constructor()
      ensures fresh(stateManager) && stateManager.store == map[]
    {
      stateManager := new StateManager.ActorStateManager<int32>();
    }

    /** The current count, read without changing the store; throws when no
        transaction was started. */
    method GetFinalCount() returns (r: Outcome<int32>)
      ensures r == GetState(stateManager.store, ItemCount)
    {
      r := stateManager.GetState(ItemCount);
    }

    /** Adds the count at 0; throws when it is already there. */
    method StartTransaction() returns (r: Outcome<()>)
      modifies stateManager
      ensures StoreStep(stateManager.store, r) == AddState(old(stateManager.store), ItemCount, 0 as int32)
    {
      r := stateManager.AddState(ItemCount, 0);
    }

    /** Reads the count, adds one and writes it back. The item is only logged. */
    method TransmitData(itemName: string) returns (r: Outcome<()>)
      modifies stateManager
      ensures StoreStep(stateManager.store, r) == Transmit(old(stateManager.store))
    {
      var got := stateManager.GetState(ItemCount);
      match got {
        case Faulted(e) =>
          r := Faulted(e);
        case Completed(count) =>
          var next := Increment(count);
          stateManager.SetState(ItemCount, next);
          r := Completed(());
      }
    }
  }
}
