# Virtual-actor bridge core, modelled in Dafny

This project models the core of a bridge that runs Service Fabric and Orleans
actor programs on the P# testing runtime:

- **State manager** (`StateStore`, `StateManager`): the per-actor dictionary
  of named state and its eleven operations. `StateStore` gives each operation's
  meaning as a function from the store before the call to the store after it
  and what the call returned or threw. `StateManager.ActorStateManager` is the
  object that updates its dictionary in place. Each of its methods is proved
  against the matching function. Two behaviours are kept as the code has them.
  `TryAddState` is a bare `Dictionary.Add`, so it throws on a duplicate name and
  never answers `false`. `AddOrUpdateState` answers `addValue` even when it
  took the update branch.
- **Grain identity** (`Grains`): a Guid is its 16 bytes. `CreateGuid(long)`
  writes the long's eight little-endian bytes and then eight zero bytes. It is
  proved injective through an inverse. `GrainId` equality compares primary
  keys only, and equal ids hash alike.
- **Proxy cache** (`Proxies`): `ActorProxy.Create` hands out one proxy object
  per actor id. A hit returns the cached object and changes nothing. A miss
  initialises the runtime if it is unset, then creates and caches a new proxy.
- **Actor base** (`Actors`): the default lifecycle hooks, reminders looked
  up by name with `SingleOrDefault`, and timers. Registering a name that is
  already registered returns the existing reminder. Unregistering disposes
  the reminder with the same name, if there is one. Timers are always new
  objects.
- **Raft safety monitor** (`Raft`): the two-state monitor that records the
  terms with a leader and fails its assertion on a second leader in a term.
  A run of notifications passes exactly when its terms are pairwise distinct.
  The first repeated term is the one flagged.
- **Receiver actor** (`BuggyExample`): a counter kept in the state manager.
  Starting it and then transmitting n items gives a final count of n, for n up
  to `int.MaxValue`; beyond that the unchecked `count++` wraps.

A thrown exception is modelled as `Faulted(error)` in `Common.Outcome`, and a
completed task as `Completed(value)`. The code of `TryAddStateAsync` calls
`Dictionary.Add`, which throws on an existing name, and the model follows the code.

## Model

| member | source | states |
|---|---|---|
| StateStore.AddOrUpdateState | ServiceFabric/ServiceFabricModel/ServiceFabricModel/ActorStateManager.cs:22-36 | stores `update(name, old)` when the name is present and `addValue` when it is absent; no other entry changes; the result is always `addValue` |
| StateStore.AddState | ServiceFabric/ServiceFabricModel/ServiceFabricModel/ActorStateManager.cs:38-42 | throws `DuplicateKey` and leaves the store unchanged exactly when the name is present; otherwise inserts the name with the value and changes no other entry |
| StateStore.GetOrAddState | ServiceFabric/ServiceFabricModel/ServiceFabricModel/ActorStateManager.cs:49-61 | never throws; the answer is what is stored under the name afterwards; a present name leaves the store unchanged; an absent one gets `value`, and no other entry changes |
| StateStore.GetState | ServiceFabric/ServiceFabricModel/ServiceFabricModel/ActorStateManager.cs:63-66 | completes with the stored value exactly when the name is present, otherwise throws `KeyNotFound`; the store is not changed |
| StateStore.GetStateNames | ServiceFabric/ServiceFabricModel/ServiceFabricModel/ActorStateManager.cs:68-71 | a name is listed exactly when it is stored |
| StateStore.RemoveState | ServiceFabric/ServiceFabricModel/ServiceFabricModel/ActorStateManager.cs:73-77 | afterwards the name is absent and no other entry changed; an absent name leaves the store as it was |
| StateStore.SetState | ServiceFabric/ServiceFabricModel/ServiceFabricModel/ActorStateManager.cs:79-86 | afterwards the name holds the value and no other entry changed |
| StateStore.TryAddState | ServiceFabric/ServiceFabricModel/ServiceFabricModel/ActorStateManager.cs:88-92 | changes the store exactly as `AddState`; throws `DuplicateKey` on a present name and otherwise answers `true`; never answers `false` |
| StateStore.TryGetState | ServiceFabric/ServiceFabricModel/ServiceFabricModel/ActorStateManager.cs:94-104 | has a value exactly when the name is present, and then it is the stored one |
| StateStore.TryRemoveState | ServiceFabric/ServiceFabricModel/ServiceFabricModel/ActorStateManager.cs:106-115 | answers whether the name was present; removes it when it was and otherwise leaves the store unchanged |
| StateStore.SetThenGet | ServiceFabric/ServiceFabricModel/ServiceFabricModel/ActorStateManager.cs:63-86 | reading a name right after setting it gives the value set |
| StateStore.AddTwiceFails | ServiceFabric/ServiceFabricModel/ServiceFabricModel/ActorStateManager.cs:38-42 | a second add of one name throws and keeps the first value |
| StateStore.RemoveThenTryRemove | ServiceFabric/ServiceFabricModel/ServiceFabricModel/ActorStateManager.cs:73-115 | after a removal the name is gone, so a try-remove answers `false` and changes nothing |
| StateStore.TryGetAgreesWithGet | ServiceFabric/ServiceFabricModel/ServiceFabricModel/ActorStateManager.cs:63-104 | try-get finds a value exactly when get completes, and it is the same value |
| StateStore.GetOrAddIsStable | ServiceFabric/ServiceFabricModel/ServiceFabricModel/ActorStateManager.cs:49-61 | a second get-or-add, with any default, answers what the first did and changes nothing |
| StateManager.ActorStateManager.constructor | ServiceFabric/ServiceFabricModel/ServiceFabricModel/ActorStateManager.cs:17-20 | a new manager holds no state |
| StateManager.ActorStateManager.AddOrUpdateState | ServiceFabric/ServiceFabricModel/ServiceFabricModel/ActorStateManager.cs:22-36 | the new store and the result are those of `StateStore.AddOrUpdateState` on the old store |
| StateManager.ActorStateManager.AddState | ServiceFabric/ServiceFabricModel/ServiceFabricModel/ActorStateManager.cs:38-42 | the new store and the outcome are those of `StateStore.AddState` on the old store |
| StateManager.ActorStateManager.ContainsState | ServiceFabric/ServiceFabricModel/ServiceFabricModel/ActorStateManager.cs:44-47 | answers whether the name is stored, changing nothing |
| StateManager.ActorStateManager.GetOrAddState | ServiceFabric/ServiceFabricModel/ServiceFabricModel/ActorStateManager.cs:49-61 | the new store and the result are those of `StateStore.GetOrAddState` on the old store |
| StateManager.ActorStateManager.GetState | ServiceFabric/ServiceFabricModel/ServiceFabricModel/ActorStateManager.cs:63-66 | the outcome is `StateStore.GetState` of the store, which is not changed |
| StateManager.ActorStateManager.GetStateNames | ServiceFabric/ServiceFabricModel/ServiceFabricModel/ActorStateManager.cs:68-71 | answers the stored names, changing nothing |
| StateManager.ActorStateManager.RemoveState | ServiceFabric/ServiceFabricModel/ServiceFabricModel/ActorStateManager.cs:73-77 | the new store is `StateStore.RemoveState` of the old one |
| StateManager.ActorStateManager.SetState | ServiceFabric/ServiceFabricModel/ServiceFabricModel/ActorStateManager.cs:79-86 | the new store is `StateStore.SetState` of the old one |
| StateManager.ActorStateManager.TryAddState | ServiceFabric/ServiceFabricModel/ServiceFabricModel/ActorStateManager.cs:88-92 | the new store and the outcome are those of `StateStore.TryAddState` on the old store |
| StateManager.ActorStateManager.TryGetState | ServiceFabric/ServiceFabricModel/ServiceFabricModel/ActorStateManager.cs:94-104 | the answer is `StateStore.TryGetState` of the store, which is not changed |
| StateManager.ActorStateManager.TryRemoveState | ServiceFabric/ServiceFabricModel/ServiceFabricModel/ActorStateManager.cs:106-115 | the new store and the answer are those of `StateStore.TryRemoveState` on the old store |
| Grains.FromLittleEndian | Orleans/OrleansModel/OrleansModel/Grains/GrainId.cs:54 | the number read from b bytes is below 256 to the power of the byte count |
| Grains.LittleEndianRoundTrip | Orleans/OrleansModel/OrleansModel/Grains/GrainId.cs:54 | reading back the little-endian bytes written for a number that fits gives the number |
| Grains.GetBytesRoundTrip | Orleans/OrleansModel/OrleansModel/Grains/GrainId.cs:54 | every long is recovered from its eight two's-complement bytes |
| Grains.CreateGuid | Orleans/OrleansModel/OrleansModel/Grains/GrainId.cs:51-56 | bytes 0 to 7 of the Guid are the little-endian bytes of the long, and bytes 8 to 15 are zero |
| Grains.CreateGuidRoundTrip | Orleans/OrleansModel/OrleansModel/Grains/GrainId.cs:51-56 | the long can be read back from the Guid that CreateGuid makes of it |
| Grains.CreateGuidInjective | Orleans/OrleansModel/OrleansModel/Grains/GrainId.cs:53-55 | distinct longs give distinct Guids |
| Grains.GetBytes | Orleans/OrleansModel/OrleansModel/Grains/GrainId.cs:54 | the eight two's-complement bytes of v, least significant first: read back little-endian they give v, plus 2 to the 64 when v is negative |
| Grains.GrainId.New | Orleans/OrleansModel/OrleansModel/Grains/GrainId.cs:40-44 | the new id holds the key and grain reference it was given, and equals every id with that key |
| Grains.GrainId.GetHashCode | Orleans/OrleansModel/OrleansModel/Grains/GrainId.cs:95-98 | the hash of the primary key under the given Guid hash, so ids equal by key hash alike |
| Grains.GrainId.Equals | Orleans/OrleansModel/OrleansModel/Grains/GrainId.cs:74-89 | false for null and for any non-GrainId; for a GrainId, true exactly when the primary keys are equal |
| Grains.EqualsIsEquivalence | Orleans/OrleansModel/OrleansModel/Grains/GrainId.cs:74-98 | equality is reflexive, symmetric and transitive, and equal ids have equal hash codes for every Guid hash |
| Grains.EqualsIgnoresGrain | Orleans/OrleansModel/OrleansModel/Grains/GrainId.cs:40-89 | two ids with the same key are equal whatever grain references they hold |
| Grains.DistinctLongsGiveDistinctIds | Orleans/OrleansModel/OrleansModel/Grains/GrainId.cs:51-89 | ids whose keys come from distinct longs are never equal |
| Proxies.ActorProxy.constructor | ServiceFabric/ServiceFabricModel/ServiceFabricModel/ActorProxy.cs:18-22 | the cache starts empty; the runtime slot is left as it was |
| Proxies.ActorProxy.Create | ServiceFabric/ServiceFabricModel/ServiceFabricModel/ActorProxy.cs:24-45 | a cached id returns its cached proxy with nothing changed; otherwise a fresh proxy is cached under the id, no other entry changes, and the runtime is set; afterwards the id maps to the result; a set runtime stays set; only the id is looked up |
| Proxies.CreateTwice | ServiceFabric/ServiceFabricModel/ServiceFabricModel/ActorProxy.cs:24-45 | two requests for one id, with any interfaces and any application and service names, return the same proxy and add at most that one entry |
| Actors.Matches | ServiceFabric/ServiceFabricModel/ServiceFabricModel/ActorBase.cs:121 | the matches are exactly the reminders that carry the name |
| Actors.AtMostOneMatch | ServiceFabric/ServiceFabricModel/ServiceFabricModel/ActorBase.cs:121 | with unique reminder names, at most one reminder matches a name |
| Actors.SingleOrDefault | ServiceFabric/ServiceFabricModel/ServiceFabricModel/ActorBase.cs:180 | null exactly when no reminder has the name; a returned reminder has the name and every reminder with that name equals it; more than one match throws |
| Actors.SingleOrDefaultCompletes | ServiceFabric/ServiceFabricModel/ServiceFabricModel/ActorBase.cs:204 | with unique names the lookup never throws |
| Actors.Without | ServiceFabric/ServiceFabricModel/ServiceFabricModel/ActorBase.cs:206-209 | disposing a reminder leaves exactly the other reminders |
| Actors.WithoutKeepsUniqueNames | ServiceFabric/ServiceFabricModel/ServiceFabricModel/ActorBase.cs:201-216 | disposing a reminder keeps the names unique |
| Actors.RegisterThenFind | ServiceFabric/ServiceFabricModel/ServiceFabricModel/ActorBase.cs:130-135 | a reminder registered under a new name keeps names unique and is what a lookup of that name finds |
| Actors.UnregisterThenMiss | ServiceFabric/ServiceFabricModel/ServiceFabricModel/ActorBase.cs:201-209 | once the reminder found under a name is disposed, a lookup of that name finds nothing |
| Actors.ActorBase.OnActivateAsync | ServiceFabric/ServiceFabricModel/ServiceFabricModel/ActorBase.cs:77-80 | the default activation hook completes with `true` |
| Actors.ActorBase.OnDeactivateAsync | ServiceFabric/ServiceFabricModel/ServiceFabricModel/ActorBase.cs:88-91 | the default deactivation hook completes with `true` |
| Actors.ActorBase.RegisterReminderAsync | ServiceFabric/ServiceFabricModel/ServiceFabricModel/ActorBase.cs:118-138 | a registered name completes with the existing reminder and changes nothing; an unregistered name gets one new reminder with that name and a new serial; a duplicated name throws; unique names are preserved |
| Actors.ActorBase.GetReminder | ServiceFabric/ServiceFabricModel/ServiceFabricModel/ActorBase.cs:177-183 | the lookup by name, registering nothing |
| Actors.ActorBase.UnregisterReminderAsync | ServiceFabric/ServiceFabricModel/ServiceFabricModel/ActorBase.cs:201-216 | disposes the reminder with the same name if there is one, changes nothing otherwise, and completes with `true`; a duplicated name throws; unique names are preserved |
| Actors.ActorBase.RegisterTimer | ServiceFabric/ServiceFabricModel/ServiceFabricModel/ActorBase.cs:158-164 | the timer is a new object with the given due time and period, not disposed |
| Actors.ActorBase.UnregisterTimer | ServiceFabric/ServiceFabricModel/ServiceFabricModel/ActorBase.cs:224-227 | the given timer is disposed and nothing else changes |
| Actors.RegisterReminderTwice | ServiceFabric/ServiceFabricModel/ServiceFabricModel/ActorBase.cs:118-138 | registering one name twice gives the same reminder both times |
| Actors.RegisterTwoTimers | ServiceFabric/ServiceFabricModel/ServiceFabricModel/ActorBase.cs:158-164 | two timer registrations give two distinct timers |
| Raft.LeaderElected | Orleans/Samples/Raft/Raft.Monitoring/SafetyMonitor.cs:40-46 | fails exactly when the term already has a leader; otherwise adds exactly that term |
| Raft.CheckElectionsHoldsIff | Orleans/Samples/Raft/Raft.Monitoring/SafetyMonitor.cs:40-46 | a run of notifications passes exactly when its terms are pairwise distinct and new, and then the terms with a leader are the old ones plus the reported ones |
| Raft.FirstRepeatIsFlagged | Orleans/Samples/Raft/Raft.Monitoring/SafetyMonitor.cs:42-45 | the first repeated term is the one the assertion flags |
| Raft.SafetyMonitor.constructor | Orleans/Samples/Raft/Raft.Monitoring/SafetyMonitor.cs:25-35 | after start-up the monitor is in Monitoring with current term -1 and no term with a leader |
| Raft.SafetyMonitor.InitOnEntry | Orleans/Samples/Raft/Raft.Monitoring/SafetyMonitor.cs:30-35 | sets the current term to -1 and empties the terms with a leader |
| Raft.SafetyMonitor.ProcessLeaderElected | Orleans/Samples/Raft/Raft.Monitoring/SafetyMonitor.cs:40-46 | passes and records the term exactly as `LeaderElected` says; a failed assertion records nothing; the current term is untouched |
| Raft.SafetyMonitor.NotifyLeaderElected | Orleans/Samples/Raft/Raft.Monitoring/SafetyMonitor.cs:37-38 | only Monitoring handles the event; the terms with a leader only grow and the current term never changes |
| BuggyExample.Increment | ServiceFabric/Samples/BuggyExample/Receiver/Receiver.cs:27 | adds one, except that the largest int wraps to the smallest |
| BuggyExample.Transmit | ServiceFabric/Samples/BuggyExample/Receiver/Receiver.cs:23-30 | throws `KeyNotFound` without a count; otherwise the count goes up by exactly one and nothing else changes |
| BuggyExample.TransmitManyAdds | ServiceFabric/Samples/BuggyExample/Receiver/Receiver.cs:23-30 | n transmissions add exactly n to a count that does not overflow and touch nothing else |
| BuggyExample.StartThenTransmitCounts | ServiceFabric/Samples/BuggyExample/Receiver/Receiver.cs:13-30 | for n up to `int.MaxValue`, starting and then transmitting n items gives a final count of n (beyond it the count wraps) |
| BuggyExample.OutOfOrderCallsFail | ServiceFabric/Samples/BuggyExample/Receiver/Receiver.cs:18-26 | transmitting before starting throws `KeyNotFound`, and starting twice throws `DuplicateKey` |
| BuggyExample.Receiver.GetFinalCount | ServiceFabric/Samples/BuggyExample/Receiver/Receiver.cs:13-16 | the count is read with `GetState`, and the store is not changed |
| BuggyExample.Receiver.StartTransaction | ServiceFabric/Samples/BuggyExample/Receiver/Receiver.cs:18-21 | the store and outcome are those of adding the count at 0 |
| BuggyExample.Receiver.TransmitData | ServiceFabric/Samples/BuggyExample/Receiver/Receiver.cs:23-30 | the store and outcome are those of `Transmit` on the old store |

## Left out

- State values are of one type per manager. The casts `(T)store[name]` and their `InvalidCastException` are not modelled.
- `GetStateNamesAsync` returns a live view of the dictionary's keys. The model returns the set of names at the time of the call.
- `CancellationToken` parameters and the task wrappers (`DummyTask`, `Task.FromResult`) are not modelled. Results are plain values, and exceptions are `Faulted` outcomes.
- `GrainId.CreateGuid(string)` is a call into the .NET Guid parser and is not part of this model.
- `Grains.GrainId.GetHashCode` takes the .NET Guid hash as a parameter, because that library code is not shown.
- State names, actor ids, reminders and items are never null, so the `ArgumentNullException` and `NullReferenceException` paths are not modelled. The update callback of `AddOrUpdateState` is a total function and never throws.
- `BitConverter.GetBytes` is modelled for a little-endian machine. Bytes are the integers 0 to 255 (`Common.byte`), not bit-vectors.
- The service, application and actor id types of Service Fabric are not part of this model. `ActorId` is a value with value equality.
- Proxy type synthesis, the assembly path and `Activator.CreateInstance` are runtime code generation. A proxy is a fresh object that records the interface it was requested for.
- Proxies.ActorProxy.Create: the cast of a cached proxy to the requested interface may throw when the generated type does not implement it. This is not modelled, because the interfaces of generated types are not modelled.
- `IdMap` is unsynchronised static state. `Create` is modelled as a sequential call.
- The reminder and timer machines, `ActorCompletionTask`, `ActorCompletionMachine`, and `SendEvent` and `CreateMachine` are not shown. A new reminder is modelled as added to the actor's reminders when it is registered. Disposing a reminder is modelled as removing it. Due times and periods have no effect.
- The timer callback and its state argument are not modelled. A timer records only its due time and period.
- The `ApplicationName`, `Id` and `ServiceUri` properties of `ActorBase` have no behaviour and are not modelled.
- The P# reaction to a failed monitor assertion, which ends the test run, is modelled as an `AssertionFailed` verdict.
- `Console.WriteLine` in `TransmitData` is left out. The transmitted item is reduced to its name.
- The P# actor machine (reflection dispatch and process exit on exceptions), the smart-home thief actor, both `Program.cs` files and the interface-only files are not part of this model.
