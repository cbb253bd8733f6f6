/** The per-actor state manager: an object that owns one dictionary and
    updates it in place. Every method is proved against the matching
    function of StateStore. */
module StateManager {
  import opened Common
  import StateStore

  class ActorStateManager<V> {
    /** The dictionary of named state entries. */
    var store: StateStore.Store<V>

    constructor()
      ensures store == map[]
    {
      store := map[];
    }

    method AddOrUpdateState(name: string, addValue: V, update: (string, V) -> V) returns (r: Outcome<V>)
      modifies this
      ensures StateStore.StoreStep(store, r) == StateStore.AddOrUpdateState(old(store), name, addValue, update)
    {
      if name in store {
        var updated := update(name, store[name]);
        store := store[name := updated];
      } else {
        store := store[name := addValue];
      }
      r := Completed(addValue);
    }

    method AddState(name: string, value: V) returns (r: Outcome<()>)
      modifies this
      ensures StateStore.StoreStep(store, r) == StateStore.AddState(old(store), name, value)
    {
      if name in store {
        r := Faulted(DuplicateKey(name));
      } else {
        store := store[name := value];
        r := Completed(());
      }
    }

    method ContainsState(name: string) returns (b: bool)
      ensures b <==> name in store
    {
      b := name in store;
    }

    method GetOrAddState(name: string, value: V) returns (r: Outcome<V>)
      modifies this
      ensures StateStore.StoreStep(store, r) == StateStore.GetOrAddState(old(store), name, value)
    {
      if name in store {
        r := Completed(store[name]);
      } else {
        store := store[name := value];
        r := Completed(value);
      }
    }

    method GetState(name: string) returns (r: Outcome<V>)
      ensures r == StateStore.GetState(store, name)
    {
      if name in store {
        r := Completed(store[name]);
      } else {
        r := Faulted(KeyNotFound(name));
      }
    }

    method GetStateNames() returns (names: set<string>)
      ensures names == StateStore.GetStateNames(store)
    {
      names := store.Keys;
    }

    method RemoveState(name: string)
      modifies this
      ensures store == StateStore.RemoveState(old(store), name)
    {
      store := store - {name};
    }

    method SetState(name: string, value: V)
      modifies this
      ensures store == StateStore.SetState(old(store), name, value)
    {
      store := store[name := value];
    }

    method TryAddState(name: string, value: V) returns (r: Outcome<bool>)
      modifies this
      ensures StateStore.StoreStep(store, r) == StateStore.TryAddState(old(store), name, value)
    {
      // a bare Dictionary.Add: a duplicate name throws rather than answering false
      if name in store {
        r := Faulted(DuplicateKey(name));
      } else {
        store := store[name := value];
        r := Completed(true);
      }
    }

    method TryGetState(name: string) returns (r: StateStore.ConditionalValue<V>)
      ensures r == StateStore.TryGetState(store, name)
    {
      if name in store {
        r := StateStore.HasValue(store[name]);
      } else {
        r := StateStore.NoValue;
      }
    }

    method TryRemoveState(name: string) returns (r: Outcome<bool>)
      modifies this
      ensures StateStore.StoreStep(store, r) == StateStore.TryRemoveState(old(store), name)
    {
      if name in store {
        store := store - {name};
        r := Completed(true);
      } else {
        r := Completed(false);
      }
    }
  }
}
