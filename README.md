# Microbe-stage particles: agents and compounds

This project models the particle subsystem of Thrive's microbe stage.
Emitters spawn short-lived particles. The particles drift, decay, and are
absorbed by entities that may take in their type. The subsystem exists
twice in the source, in almost identical forms: the `Agent*` family in
`src/microbe_stage/agent.cpp`, and the `Compound*` family in
`src/microbe_stage/compound.cpp`, whose data is declared in
`src/microbe_stage/compound.h`. The model describes both with one set of
modules. Where the two families differ, it gives each its own member:

- the agent emitter truncates the potency to an integer, the compound
  emitter does not;
- the agent emitter keeps its timer in a separate component;
- the compound absorber reads a contact buffer that it then empties.

The modules:

- `Components` (components.dfy): ids, vectors, the particle record, the
  emitter records, and the default values of the components.
- `Registry` (registry.dfy): the type registry. It is an append-only table
  of entries, with ids 1..n, and a map from internal names to ids. The
  source keeps both in process-wide statics. Here they are the fields of
  one `TypeRegistry` object.
- `Absorber` (absorber.dfy): the absorber component. It is a class with
  the per-type amounts and the allow-set, and it has its save/load list.
- `World` (world.dfy): the entity store the systems of one particle
  family work on. It holds one map per component table: `particles`
  stands for AgentComponent or CompoundComponent, and `absorbers` for
  the absorber component of the same family. It also holds the
  entity-id generator, the cursor of the random generator, and the
  contact buffer. `World.Valid` states that
  every id in a table was handed out, and that no two absorber entities
  share a component object.
- `Lifetime` (lifetime.dfy), `Movement` (movement.dfy): the lifetime and
  movement systems.
- `Emission` (emission.dfy): the catch-up arithmetic of the timed
  emitters, `emitAgent`, and one emitter's share of a system tick.
  `EmitterSystems` (emitter_systems.dfy) covers the whole emitter update
  of both families: each active emitter's share (`Share`), the series of
  all shares along the visiting order (`SpawnedAlong`), and the spawn
  count, which does not depend on that order (`CountOver`).
- `Absorption` (absorption.dfy): the absorber systems. A specification
  walks the contacts as a fold over a `State`. The system methods are
  proved equal to that fold.
- `Storage` (storage.dfy): load/storage of the particle and emitter
  components, over a key/value container.

Each system is a module-level method that takes the `World` object and
changes its tables. Its postcondition ties the new state to a function of
the old one: `Decayed` for `Lifetime.Update`, `Moved` for
`Movement.Update`, `Absorb` for the absorber systems. The emitter systems
tie it to `AdvanceAll` and to `SpawnedAlong`, the `Spawned` series of
every active emitter in the order the system visits them. The lemmas
state what the source promises about those functions.

The random generator, `Ogre::Math::Sin` and `Ogre::Math::Cos` cannot be
seen from the core, so they are a parameter of the world (`World.Env`).
`getDouble(k, low, high)` is what the k-th call `rng().getDouble(low,
high)` returns. `sinDeg` and `cosDeg` are left uninterpreted. The contacts
that physics reports are an input sequence of entity pairs.

## Model

| member | source | states |
|---|---|---|
| Registry.TypeRegistry.Register | src/microbe_stage/agent.cpp:677-695 | A fresh internal name appends one entry of size 1 and gets id count + 1. A known name fails with DuplicateName and leaves both tables unchanged. Afterwards each of the three lookups answers with the registered values. |
| Registry.TypeRegistry.RegisterSized | src/microbe_stage/compound.cpp:626-646 | The three-argument registerCompoundType stores the given size. It is otherwise the same as Register. |
| Registry.BidirectionalIdsConsecutive | src/microbe_stage/compound.cpp:605-625 | The ids in use are exactly 1..count. No two names share an id. |
| Registry.TypeRegistry.GetId | src/microbe_stage/agent.cpp:715-729 | Succeeds exactly for a registered name. Otherwise it fails with UnknownName, the out_of_range of the source. The id it returns names the entry that carries that name. |
| Registry.TypeRegistry.GetInternalName | src/microbe_stage/agent.cpp:706-713 | Succeeds exactly for ids 1..count, and the name it returns maps back to the id. |
| Registry.TypeRegistry.GetDisplayName | src/microbe_stage/agent.cpp:697-704 | Succeeds exactly for ids 1..count, and returns entry id - 1's display name. |
| Registry.TypeRegistry.GetSize | src/microbe_stage/compound.cpp:666-673 | Succeeds exactly for ids 1..count, and returns the stored size. |
| Registry.SourceRangeCheckAdmitsNullAgent | src/microbe_stage/agent.cpp:701-703 | The source's guard `id > size` lets NULL_AGENT through, and the index id - 1 is then outside the table. |
| Absorber.AbsorberComponent.Amount | src/microbe_stage/compound.cpp:139-150 | Reads the recorded amount, or 0 for a type with no record. |
| Absorber.AbsorberComponent.SetAbsorbedAmount | src/microbe_stage/compound.cpp:176-182 | The type now reads the new amount. No other type's amount changes. |
| Absorber.AbsorberComponent.SetCanAbsorb | src/microbe_stage/compound.cpp:185-196 | CanAbsorb(id) becomes the flag. Every other type keeps its membership. |
| Absorber.AbsorberComponent.Storage | src/microbe_stage/compound.cpp:199-212 | The list has one element per allowed type, no type twice. Each element holds the type's current amount, or 0. |
| Absorber.AbsorberComponent.Load | src/microbe_stage/agent.cpp:293-305 | Each element overwrites its type's amount and makes the type allowed. |
| Absorber.LoadAmountsDistinct | src/microbe_stage/compound.cpp:161-173 | Loading a list with distinct types gives each listed type its listed amount and leaves every other type as it was. |
| Absorber.StorageRoundTrip | src/microbe_stage/compound.cpp:161-212 | Saving and loading into a fresh component restores the allow-set exactly, and the amounts of the allowed types. Any other type reads 0 afterwards. |
| Absorber.IdsOf | src/microbe_stage/compound.cpp:199-212 | The set holds exactly the types named in the list. |
| World.World.Spawn | src/microbe_stage/agent.cpp:136-166 | A new entity takes the next id and gets the particle and a body at the position. The other entries are kept. |
| World.World.Draw | src/microbe_stage/agent.cpp:115-122 | Returns the generator's next sample for the bounds and advances the cursor by one. |
| World.World.RemoveEntity | src/microbe_stage/agent.cpp:400 | The entity leaves every component table, and the world invariant is kept. |
| World.World.Consume | src/microbe_stage/agent.cpp:632-633 | The particle is left with timeToLive 0. Only its absorber's amount of its type changes, and that amount grows by the potency. Allow-sets are unchanged. |
| World.Without | src/microbe_stage/agent.cpp:400 | Each of the six tables loses exactly the removed entities. |
| Lifetime.Decayed | src/microbe_stage/agent.cpp:394-403 | The particles at or below 0 after the tick are gone. Each survivor has exactly ms less to live, is still alive, and is otherwise unchanged. |
| Lifetime.DecayOne | src/microbe_stage/compound.cpp:264-270 | One entity of the walk: its particle loses ms, and if that brings it to zero or below it leaves every table. The walk invariant (decayed outside `todo`, the other tables without the expired entities handled so far) moves on by that entity. The world invariant is kept. |
| Lifetime.Update | src/microbe_stage/compound.cpp:262-271 | The particle table becomes Decayed of the old one. Every other table loses exactly the expired entities. The world invariant is kept. |
| Lifetime.DecayedSplit | src/microbe_stage/agent.cpp:394-403 | Ticks of a and then b (b not negative) equal one tick of a + b. |
| Lifetime.ThreeTicksExample | src/microbe_stage/agent.cpp:398-401 | 500 ms to live: alive with 100 ms after two ticks of 200 ms, removed by the third. |
| Movement.Update | src/microbe_stage/agent.cpp:453-461 | Each body with a particle moves by velocity * ms / 1000. Other bodies stay put. The particle table is not written. |
| Movement.MovedSplit | src/microbe_stage/compound.cpp:321-329 | Ticks of a and then b move every body exactly as far as one tick of a + b. |
| Movement.MovedInverse | src/microbe_stage/compound.cpp:321-329 | A tick of -ms undoes a tick of ms. |
| Movement.HalfSecondExample | src/microbe_stage/agent.cpp:458-459 | Velocity (10, 0, 0) per second moves a body (5, 0, 0) in 500 ms. A body without a particle does not move. |
| Emission.CatchUp | src/microbe_stage/agent.cpp:522-531 | With a positive interval and a non-negative accumulator, less than one interval is left. Otherwise the loop fires nothing and leaves the accumulator as it was. |
| Emission.CatchUpAccounts | src/microbe_stage/agent.cpp:523-527 | bursts * interval + what is left == the accumulator on entry. |
| Emission.CatchUpIsDivMod | src/microbe_stage/agent.cpp:522-531 | Bursts == acc div interval, and what is left == acc mod interval. |
| Emission.CatchUpStep | src/microbe_stage/agent.cpp:527 | One turn of the loop leaves one burst fewer and the same remainder. |
| Emission.CatchUpSplit | src/microbe_stage/compound.cpp:388-393 | No drift: two ticks fire as many bursts, and leave the same remainder, as one tick of their sum. |
| Emission.AdvanceSplit | src/microbe_stage/agent.cpp:522-531 | The same for a timer: two ticks equal one, in the final timer and in the total bursts. |
| Emission.CatchUpExample | src/microbe_stage/agent.cpp:522-531 | 350 ms at an interval of 100 ms: 3 bursts, 50 ms left. |
| Emission.DisabledTimer | src/microbe_stage/agent.cpp:522-525 | An interval <= 0 fires nothing, and the accumulator still grows by ms. |
| Emission.DefaultEmitterTick | src/microbe_stage/compound.h:101-165 | A default emitter's first tick below 1000 ms fires nothing and leaves ms on the accumulator. Its bursts hold no particle. |
| Emission.LaunchRadial | src/microbe_stage/agent.cpp:123-135 | Velocity and offset lie in the plane z = 0 and point the same way (velocity * radius == offset * speed). |
| Emission.DeterministicLaunch | src/microbe_stage/agent.cpp:115-127 | With both bounds equal, angle 0 and speed 2, the velocity is (0, 2, 0) and the offset is (0, radius, 0). |
| Emission.TruncateToInt | src/microbe_stage/agent.cpp:102 | The float-to-int conversion truncates toward zero: n <= r < n + 1 for r >= 0, and n - 1 < r <= n below. |
| Emission.SpawnedKeys | src/microbe_stage/agent.cpp:136-166 | After n spawns an entity has a particle exactly when it had one or its id is among the n fresh ones. |
| Emission.SpawnedKeeps | src/microbe_stage/agent.cpp:136-166 | Particles outside the fresh ids are kept unchanged. |
| Emission.SpawnedBodiesKeeps | src/microbe_stage/agent.cpp:136-166 | Bodies outside the fresh ids are kept unchanged. |
| Emission.SpawnedNew | src/microbe_stage/agent.cpp:151-155 | The k-th new particle has the emitter's type, the given potency, the emitter's lifetime, and the velocity of draws u + 2k and u + 2k + 1. |
| Emission.SpawnedFresh | src/microbe_stage/compound.cpp:414 | Spawning under fresh ids keeps every old particle and body. The new ids are first..first + n - 1 in both tables, so the new bodies belong exactly to the new particles. Every new particle carries the emitter's type, lifetime and the given potency. Every id stays below the next free one. |
| Emission.SpawnedAppend | src/microbe_stage/agent.cpp:525-529 | n spawns followed by m more, from the next id and draw on, are n + m spawns. |
| Emission.EmitAgent | src/microbe_stage/agent.cpp:106-167 | One new entity at the next id, with two draws. Its particle has the given type and potency, the emitter's lifetime, and the launch velocity. Its body is at the position itself when useAbsolutePosition holds, and at position + radial offset otherwise. |
| Emission.EmitAgentDefault | src/microbe_stage/agent.cpp:98-104 | The same with the emitter's own type, its potency truncated to int, and the radial offset. |
| Emission.AgentBurst | src/microbe_stage/agent.cpp:528-530 | particlesPerEmission spawns, as Spawned and SpawnedBodies give them. |
| Emission.CompoundBurst | src/microbe_stage/compound.cpp:395-449 | The same with the untruncated potency, at the node position plus the radial offset. |
| Emission.AgentCatchUp | src/microbe_stage/agent.cpp:523-531 | The loop leaves CatchUp's remainder and spawns bursts * particlesPerEmission particles, as Spawned gives them. |
| Emission.CompoundCatchUp | src/microbe_stage/compound.cpp:389-450 | The same loop on the compound emitter. |
| Emission.AgentEmitterTick | src/microbe_stage/agent.cpp:519-531 | The timer becomes Advance(t, ms). Bursts(t, ms) * particlesPerEmission particles are spawned from the node's position, and nothing else changes. |
| Emission.CompoundEmitterTick | src/microbe_stage/compound.cpp:385-451 | The same for the compound emitter, whose timer lives inside the component. |
| EmitterSystems.AdvanceAllSplit | src/microbe_stage/agent.cpp:516-533 | Two system ticks leave every timer as one tick of their sum. |
| EmitterSystems.CountOverRemove | src/microbe_stage/agent.cpp:516-533 | The particles the active emitters spawn can be counted starting from any one of them. |
| EmitterSystems.CountAlongIsCountOver | src/microbe_stage/agent.cpp:516-533 | Along any order that visits each active emitter once, the spawn count is the order-free count `CountOver` of that set. |
| EmitterSystems.CountAlongOrderFree | src/microbe_stage/agent.cpp:516-533 | Two orders that visit the same emitters once each spawn the same number of particles. |
| EmitterSystems.AlongAppend | src/microbe_stage/agent.cpp:517-531 | One more emitter's tick, from the next id and draw on, turns the tables after a visit order into the tables after that order plus the emitter. Its count adds to the total. |
| EmitterSystems.AlongKeeps | src/microbe_stage/agent.cpp:516-533 | A whole system tick keeps every particle and body already there, and keeps every id below the next free one. |
| EmitterSystems.AlongKeys | src/microbe_stage/agent.cpp:516-533 | After a whole system tick an entity has a particle exactly when it had one or its id is among the fresh ids of the tick. |
| EmitterSystems.AlongBodiesKeys | src/microbe_stage/compound.cpp:383-452 | The same for the bodies. |
| EmitterSystems.AlongCarries | src/microbe_stage/compound.cpp:428-433 | Every particle a system tick adds has the type, lifetime and potency of an emitter the tick visited. |
| EmitterSystems.AgentVisitFacts | src/microbe_stage/agent.cpp:516-533 | For an agent system tick: the count equals the order-free count over the active emitters, and the new ids are exactly the fresh range in both tables. Old entries stay, and each new particle carries the type, lifetime and truncated potency of an active agent emitter. |
| EmitterSystems.CompoundVisitFacts | src/microbe_stage/compound.cpp:383-452 | The same for a compound system tick, with the potency as it is. |
| EmitterSystems.AgentEmitterUpdate | src/microbe_stage/agent.cpp:516-533 | Exactly the entities with an emitter, a timer and a scene node have their timers advanced. The ghost result `order` visits each of them once. The tables are exactly those after the ticks of each emitter in that order (`SpawnedAlong`). Ids and draws advance by the spawn count of the active emitters, which is the sum of Bursts times particlesPerEmission and does not depend on the order, with two draws per particle. Every fresh id holds a new particle and no other id does. Old particles and bodies are kept, and the new bodies are exactly those of the new particles. Every new particle carries the type, the lifetime and the potency cut to a whole number of an active emitter. The world invariant is kept. |
| EmitterSystems.CompoundEmitterUpdate | src/microbe_stage/compound.cpp:383-452 | The same over the entities with a compound emitter and a scene node, except that a new particle carries its emitter's potency as it is. |
| Absorption.Match | src/microbe_stage/agent.cpp:609-630 | Particle-then-absorber is tried first, absorber-then-particle second. Any other contact matches nothing. |
| Absorption.EventOf | src/microbe_stage/agent.cpp:631 | A contact consumes exactly when it matches, the absorber may absorb the particle's type, and timeToLive > 0. The consumption carries the particle's type and potency. |
| Absorption.NonMatchingContact | src/microbe_stage/agent.cpp:609-631 | A contact that is not one particle and one absorber changes nothing. |
| Absorption.EventsAreOfLiveParticles | src/microbe_stage/agent.cpp:631-634 | Every consumption is of a particle that was present, alive and allowed at the start. The particle keys are unchanged. Consumed particles end with timeToLive 0, and the others are unchanged. |
| Absorption.ConsumedOnce | src/microbe_stage/compound.cpp:555-557 | No particle is consumed twice in one update, however many contacts name it. Each consumed particle ends with timeToLive 0. |
| Absorption.LedgerAccounts | src/microbe_stage/agent.cpp:632 | An absorber's amount of a type at the end is its start amount plus the potencies of the particles of that type it consumed. |
| Absorption.AbsorbLedgers | src/microbe_stage/agent.cpp:595-598 | After the clear, each absorber's amount is exactly what it consumed this tick. |
| Absorption.DuplicateContact | src/microbe_stage/compound.cpp:555-557 | A contact seen twice in a row counts once. |
| Absorption.AbsorbExample | src/microbe_stage/agent.cpp:593-636 | Potencies 5 and 7, one contact repeated: the absorber records 12, and both particles end with timeToLive 0. |
| Absorption.ClearLedgers | src/microbe_stage/compound.cpp:522-525 | Every absorber's amounts are emptied, and the allow-sets are kept. |
| Absorption.MatchContact | src/microbe_stage/compound.cpp:531-554 | Finds the particle and the absorber exactly as Match does. |
| Absorption.AbsorbContact | src/microbe_stage/compound.cpp:555-558 | One contact changes the world exactly as Step does. |
| Absorption.AbsorberUpdate | src/microbe_stage/agent.cpp:593-636 | The particles and the amounts become Absorb(old particles, allow-sets, contacts): clear first, then walk the contacts in order. The world invariant and the allow-sets are kept. |
| Absorption.CompoundAbsorberUpdate | src/microbe_stage/compound.cpp:520-561 | The same walk over the buffered contacts, and the buffer ends empty. |
| Storage.ParticleRoundTrip | src/microbe_stage/agent.cpp:41-61 | Loading what storage() wrote gives the particle back, under "agentId" or "compoundId". |
| Storage.LoadEmptyParticle | src/microbe_stage/compound.h:39-54 | An empty container loads the default particle: NULL_AGENT, potency 0, timeToLive 0, zero velocity. |
| Storage.ProfileRoundTrip | src/microbe_stage/agent.cpp:171-204 | Loading what the emitter's storage() wrote gives its emission fields back, for either family. |
| Storage.TimerRoundTrip | src/microbe_stage/agent.cpp:229-245 | Loading what the timed emitter's storage() wrote gives the timer back. |
| Storage.SaveEmitter | src/microbe_stage/compound.cpp:95-111 | The compound container holds the profile's names and the timer's names. |
| Storage.EmitterRoundTrip | src/microbe_stage/compound.cpp:75-111 | Loading what the compound emitter's storage() wrote gives the whole emitter back. The two parts do not overwrite each other. |
| Storage.LoadEmptyEmitter | src/microbe_stage/compound.cpp:75-93 | An empty container gives the default timer (1000 ms, 0). It does not give the default emitter: lifetime 0 instead of 1000, potency 0 instead of 1. |

## Left out

- Lua bindings, engine init/shutdown, and the entity-manager plumbing are not modelled. They wire the systems up but decide nothing.
- Building the rigid body, its shape, masks and flags is not modelled. Pulling contact manifolds from the physics dispatcher and the collision filter are not modelled either. Contacts are an input sequence, in the order physics reports them.
- Scene nodes, `meshName` and `particleScale` are not modelled, because only rendering uses them. The scene node a spawned particle gets is not modelled, and neither is the collision-group component a spawned compound gets.
- Random draws, `Sin` and `Cos` are the parameters `Env.getDouble`, `Env.sinDeg` and `Env.cosDeg`. The model fixes only the order of the draws: the angle first, then the speed, two per particle.
- Float rounding is not modelled. Potencies, positions and velocities are exact reals, and `float(milliseconds) / 1000.0f` is exact division.
- Registry.TypeRegistry.Register: ids and counts are unbounded. The source narrows them to `uint16_t`, which wraps after 65535 registrations.
- Fixed-width integers: apart from the registry count above, every fixed-width integer of the source is an unbounded `int` or `nat` here. Type ids (`TypeId`) stand for `CompoundId`, the `uint16_t` of `src/microbe_stage/compound.h:21`, and for the agent ids, so the model never wraps them. `particlesPerEmission` stands for a `uint16_t` (`src/microbe_stage/compound.h:145`), loaded as one at `src/microbe_stage/agent.cpp:183` and `src/microbe_stage/compound.cpp:88`. Here it has no upper bound and no wrap on load. `timeToLive`, `emitInterval`, `particleLifetime` and `timeSinceLastEmission` stand for the engine's signed `Milliseconds` fields (`src/microbe_stage/compound.h:49`, `:111`, `:150`, `:165`), and no sum or difference on them overflows here.
- Emission.DisabledTimer: the accumulator of a timer whose interval is 0 or less grows by the elapsed milliseconds on every tick, without bound. In the source it is a signed integer that overflows after about 2^31 ms of accumulated ticks (`src/microbe_stage/agent.cpp:522-525`, `src/microbe_stage/compound.cpp:388`), and the model does not capture that overflow.
- Emission.AgentEmitterTick: the timer is kept in a local value during the catch-up loop and written back once at the end. The source updates the component field in place. Nothing reads the field in between, so the final state is the same.
- Absorption.CompoundAbsorberUpdate: the buffer is emptied before the walk, and the walk uses a copy taken first. The source empties it after the walk. The walk does not read the buffer's owner, so the final state is the same.
- World.World.Consume: the particle's timeToLive is zeroed before the amount is credited. The source credits first. The two writes touch different objects.
- Storage: `StorageContainer` is an external library. The model assumes that `get` with a default returns the stored value of that type under that name, or else the default. It also assumes that `get` without a default yields the type's zero value. Its value encoding is not modelled. `Storage.GetInt`, `Storage.GetNat`, `Storage.GetReal` and `Storage.GetVec` write these assumptions out and carry no contract of their own.
- World: one `World` object holds the entities of one particle family. The source keeps agents and compounds in one entity manager and draws from one random generator (`src/microbe_stage/agent.cpp:115-136`, `src/microbe_stage/compound.cpp:396-414`). Here each family has its own entity ids (`nextId`) and its own sequence of draws (`drawn`), so the interleaving of ids and draws between the two families is not modelled. A World that holds both families at once is outside the model: nothing keeps agent type ids and compound type ids apart, though both start at 1, so an agent absorber would then consume compounds of the same number.
- `Component::load` and `Component::storage`, which the component methods call first, are not part of this model.
- `CompoundRegistry::getCompoundList` (`src/microbe_stage/compound.cpp:691-702`) is left out, because its return type is not valid C++. `generateCompoundId` is left out, because it is declared but never defined.
- The registry is a process-wide static in the source. Here it is one `TypeRegistry` object, so "exactly one registry state" holds only by convention: the caller keeps one object. The agent registry stores no size. `Register` stores size 1 for both families, and `GetSize` exists only for compounds.
- EmitterSystems.AgentEmitterUpdate: the order in which the entity filter visits emitters is unspecified. The method chooses one and returns it as a ghost value. The postcondition states the tables exactly for that order, and the count of new particles independently of it. It does not say which order the engine's filter would pick, so which emitter gets which ids and launch draws is known only relative to the returned order.
- EmitterSystems.CompoundEmitterUpdate: the same as for AgentEmitterUpdate, for the same reason.
- Sound (`src/sound/`) and the camera system are not part of this model.

## Findings

| source | as written | input that shows it | evidently intended | confidence | as-written member | corrected member |
|---|---|---|---|---|---|---|
| src/microbe_stage/agent.cpp:701-703 | The id lookups (`getAgentDisplayName`, `getAgentInternalName`, and the same in `compound.cpp:652-671`) reject only `id > size`, then read entry `id - 1` | `id = 0` (`NULL_AGENT`) with any registry: the guard passes and the lookup reads index -1 | Reject every id outside 1..size with `out_of_range` | high (not executed) | Registry.SourceRangeCheckAdmitsNullAgent | Registry.TypeRegistry.GetInternalName |
