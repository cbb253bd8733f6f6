/** The meaning of each operation of an actor's state manager, stated on the
    dictionary it keeps: every function takes the store before the call and
    gives the store after it together with what the call returned or threw. */
module StateStore {
  import opened Common

  /** The `Dictionary<string, object>` behind one actor's state. */
  type Store<V> = map<string, V>

  /** The store after an operation, and the operation's outcome. */
  datatype StoreStep<V, R> = StoreStep(store: Store<V>, outcome: Outcome<R>)

  /** `ConditionalValue<T>`: a value that is there or is not. */
  datatype ConditionalValue<V> = NoValue | HasValue(value: V)

  /** `t` agrees with `s` on every key except possibly `name`. */
  ghost predicate SameExcept<V>(s: Store<V>, t: Store<V>, name: string)
  {
    && (forall k :: k in s && k != name ==> k in t && t[k] == s[k])
    && (forall k :: k in t && k != name ==> k in s)
  }

  /** AddStateAsync: `Dictionary.Add`, which throws on a name already present. */
  function AddState<V>(s: Store<V>, name: string, value: V): (r: StoreStep<V, ()>)
    ensures r.outcome.Faulted? <==> name in s
    ensures name in s ==> r.store == s && r.outcome.error == DuplicateKey(name)
    ensures name !in s ==> name in r.store && r.store[name] == value && SameExcept(s, r.store, name)
  {
    if name in s then StoreStep(s, Faulted(DuplicateKey(name)))
    else StoreStep(s[name := value], Completed(()))
  }

  /** TryAddStateAsync: the same bare `Dictionary.Add`, answering `true` when it
      does not throw; it never answers `false`. */
  function TryAddState<V>(s: Store<V>, name: string, value: V): (r: StoreStep<V, bool>)
    ensures r.store == AddState(s, name, value).store
    ensures r.outcome == (if name in s then Faulted(DuplicateKey(name)) else Completed(true))
    ensures r.outcome != Completed(false)
  {
    var added := AddState(s, name, value);
    match added.outcome
    case Faulted(e) => StoreStep(added.store, Faulted(e))
    case Completed(_) => StoreStep(added.store, Completed(true))
  }

  /** GetStateAsync: the indexer, which throws on a missing name. */
  function GetState<V>(s: Store<V>, name: string): (r: Outcome<V>)
    ensures r.Completed? <==> name in s
    ensures r.Completed? ==> r.value == s[name]
    ensures r.Faulted? ==> r.error == KeyNotFound(name)
  {
    if name in s then Completed(s[name]) else Faulted(KeyNotFound(name))
  }

  /** SetStateAsync: insert when absent, overwrite when present. */
  function SetState<V>(s: Store<V>, name: string, value: V): (t: Store<V>)
    ensures name in t && t[name] == value
    ensures SameExcept(s, t, name)
  {
    // `Add` on a missing name and the indexer on a present one both leave `value` there
    s[name := value]
  }

  /** RemoveStateAsync: `Dictionary.Remove`, a no-op on a missing name. */
  function RemoveState<V>(s: Store<V>, name: string): (t: Store<V>)
    ensures name !in t
    ensures SameExcept(s, t, name)
    ensures name !in s ==> t == s
  {
    s - {name}
  }

  /** TryRemoveStateAsync: removes and answers `true` exactly when the name was there. */
  function TryRemoveState<V>(s: Store<V>, name: string): (r: StoreStep<V, bool>)
    ensures r.outcome == Completed(name in s)
    ensures name in s ==> r.store == RemoveState(s, name)
    ensures name !in s ==> r.store == s
  {
    if name in s then StoreStep(s - {name}, Completed(true))
    else StoreStep(s, Completed(false))
  }

  /** TryGetStateAsync: looks the name up without changing anything. */
  function TryGetState<V>(s: Store<V>, name: string): (r: ConditionalValue<V>)
    ensures r.HasValue? <==> name in s
    ensures r.HasValue? ==> r.value == s[name]
  {
    if name in s then HasValue(s[name]) else NoValue
  }

  /** GetOrAddStateAsync: the stored value if there is one, otherwise `value`,
      which is then stored. */
  function GetOrAddState<V>(s: Store<V>, name: string, value: V): (r: StoreStep<V, V>)
    ensures r.outcome.Completed?
    ensures name in r.store && r.outcome.value == r.store[name]
    ensures name in s ==> r.store == s
    ensures name !in s ==> r.outcome.value == value && SameExcept(s, r.store, name)
  {
    if name in s then StoreStep(s, Completed(s[name]))
    else StoreStep(s[name := value], Completed(value))
  }

  /** AddOrUpdateStateAsync: stores `update(name, old)` when the name is there and
      `addValue` otherwise; the task it returns carries `addValue` either way. */
  function AddOrUpdateState<V>(s: Store<V>, name: string, addValue: V, update: (string, V) -> V)
    : (r: StoreStep<V, V>)
    ensures r.outcome == Completed(addValue)
    ensures name in r.store
    ensures name in s ==> r.store[name] == update(name, s[name])
    ensures name !in s ==> r.store[name] == addValue
    ensures SameExcept(s, r.store, name)
  {
    if name in s then StoreStep(s[name := update(name, s[name])], Completed(addValue))
    else StoreStep(s[name := addValue], Completed(addValue))
  }

  /** GetStateNamesAsync: the names currently stored. */
  function GetStateNames<V>(s: Store<V>): (names: set<string>)
    ensures forall k :: k in names <==> k in s
  {
    s.Keys
  }

  /** Setting a name and then reading it gives back the value set. */
  lemma SetThenGet<V>(s: Store<V>, name: string, value: V)
    ensures GetState(SetState(s, name, value), name) == Completed(value)
  {
  }

  /** Adding a name twice throws on the second add and leaves the first value. */
  lemma AddTwiceFails<V>(s: Store<V>, name: string, first: V, second: V)
    requires name !in s
    ensures var once := AddState(s, name, first).store;
            AddState(once, name, second) == StoreStep(once, Faulted(DuplicateKey(name)))
            && GetState(once, name) == Completed(first)
  {
  }

  /** After a removal the name is gone, so trying to remove it again answers `false`. */
  lemma RemoveThenTryRemove<V>(s: Store<V>, name: string)
    ensures TryRemoveState(RemoveState(s, name), name) == StoreStep(RemoveState(s, name), Completed(false))
  {
  }

  /** TryGetState and GetState agree on every store and name. */
  lemma TryGetAgreesWithGet<V>(s: Store<V>, name: string)
    ensures TryGetState(s, name).HasValue? <==> GetState(s, name).Completed?
    ensures TryGetState(s, name).HasValue? ==> TryGetState(s, name).value == GetState(s, name).value
  {
  }

  /** A second GetOrAddState with any default answers what the first one did and
      changes nothing. */
  lemma GetOrAddIsStable<V>(s: Store<V>, name: string, first: V, second: V)
    ensures var r := GetOrAddState(s, name, first);
            GetOrAddState(r.store, name, second) == r
  {
  }
}
