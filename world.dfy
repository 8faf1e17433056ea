/** The entity store the systems work on: one table per component of the family,
    keyed by entity id, plus the entity-id generator, the random generator
    and the collision buffer of the compound absorber. One World holds the
    entities of one particle family (agents or compounds): its particle
    and absorber tables stand for that family's components, and its id
    generator and draw cursor are that family's alone. */
module World {
  import opened Components
  import opened Absorber

  /** What the core cannot see: the engine's random generator, where
      getDouble(k, low, high) is what its k-th call getDouble(low, high)
      returns, and the sine and cosine of an angle in degrees. */
  datatype Env = Env(getDouble: (nat, real, real) -> real, sinDeg: real -> real, cosDeg: real -> real)

  /** Every key of the table is an id handed out before `next`. */
  ghost predicate IdsBelow<T>(m: map<EntityId, T>, next: EntityId)
  {
    forall e :: e in m ==> e < next
  }

  /** The component tables other than the particle table, as one value. */
  datatype OtherTables = OtherTables(
    bodies: map<EntityId, Vec3>,
    nodes: map<EntityId, Vec3>,
    absorbers: map<EntityId, AbsorberComponent>,
    agentEmitters: map<EntityId, EmissionProfile>,
    agentTimers: map<EntityId, Timer>,
    compoundEmitters: map<EntityId, CompoundEmitter>)

  /** The tables with the entities of `s` removed from every one of them. */
  function Without(t: OtherTables, s: set<EntityId>): (r: OtherTables)
    ensures r.bodies.Keys == t.bodies.Keys - s && r.nodes.Keys == t.nodes.Keys - s
    ensures r.absorbers.Keys == t.absorbers.Keys - s && r.agentEmitters.Keys == t.agentEmitters.Keys - s
    ensures r.agentTimers.Keys == t.agentTimers.Keys - s && r.compoundEmitters.Keys == t.compoundEmitters.Keys - s
  {
    OtherTables(t.bodies - s, t.nodes - s, t.absorbers - s,
                t.agentEmitters - s, t.agentTimers - s, t.compoundEmitters - s)
  }

  /** Removing s and then e is removing s + {e}. */
  lemma WithoutOneMore(t: OtherTables, s: set<EntityId>, e: EntityId)
    ensures Without(Without(t, s), {e}) == Without(t, s + {e})
  {
    var a, b := Without(Without(t, s), {e}), Without(t, s + {e});
    assert a.bodies == b.bodies && a.nodes == b.nodes && a.absorbers == b.absorbers;
    assert a.agentEmitters == b.agentEmitters && a.agentTimers == b.agentTimers;
    assert a.compoundEmitters == b.compoundEmitters;
  }

  /** A contact reported by physics: the two entities that touch. */
  type Contact = (EntityId, EntityId)

  class World {
    const env: Env
    /** AgentComponent / CompoundComponent. */
    var particles: map<EntityId, Particle>
    /** RigidBodyComponent: the position of a particle's body. */
    var bodies: map<EntityId, Vec3>
    /** OgreSceneNodeComponent: the position of an emitter's scene node. */
    var nodes: map<EntityId, Vec3>
    /** AgentAbsorberComponent / CompoundAbsorberComponent. */
    var absorbers: map<EntityId, AbsorberComponent>
    /** AgentEmitterComponent. */
    var agentEmitters: map<EntityId, EmissionProfile>
    /** TimedAgentEmitterComponent. */
    var agentTimers: map<EntityId, Timer>
    /** CompoundEmitterComponent. */
    var compoundEmitters: map<EntityId, CompoundEmitter>
    /** The contacts the compound absorber's collision filter has buffered. */
    var collisions: seq<Contact>
    /** The next id the entity manager hands out. */
    var nextId: EntityId
    /** How many samples the random generator has produced. */
    var drawn: nat

    ghost function Entities(): set<EntityId>
      reads this
    {
      particles.Keys + bodies.Keys + nodes.Keys + absorbers.Keys
        + agentEmitters.Keys + agentTimers.Keys + compoundEmitters.Keys
    }

    ghost function Others(): OtherTables
      reads this
    {
      OtherTables(bodies, nodes, absorbers, agentEmitters, agentTimers, compoundEmitters)
    }

    /** Each absorber entity's absorbed amounts. */
    ghost function Ledgers(): map<EntityId, map<TypeId, real>>
      reads this`absorbers, absorbers.Values
    {
      map e | e in absorbers :: absorbers[e].absorbed
    }

    /** Each absorber entity's allow-set. */
    ghost function Allowed(): map<EntityId, set<TypeId>>
      reads this`absorbers, absorbers.Values
    {
      map e | e in absorbers :: absorbers[e].allowed
    }

    /** Every live entity id was handed out already, and no two entities
        share one absorber component. */
    ghost predicate Valid()
      reads this`particles, this`bodies, this`nodes, this`absorbers, this`agentEmitters,
            this`agentTimers, this`compoundEmitters, this`nextId
    {
      && IdsBelow(particles, nextId) && IdsBelow(bodies, nextId) && IdsBelow(nodes, nextId)
      && IdsBelow(absorbers, nextId) && IdsBelow(agentEmitters, nextId)
      && IdsBelow(agentTimers, nextId) && IdsBelow(compoundEmitters, nextId)
      && DistinctAbsorbers()
    }

    /** No two entities share one absorber component. */
    ghost predicate DistinctAbsorbers()
      reads this`absorbers
    {
      forall a, b :: a in absorbers && b in absorbers && a != b ==> absorbers[a] != absorbers[b]
    }

    constructor (env: Env)
      ensures Valid() && this.env == env
      ensures particles == map[] && bodies == map[] && nodes == map[] && absorbers == map[]
      ensures agentEmitters == map[] && agentTimers == map[] && compoundEmitters == map[]
      ensures collisions == [] && nextId == 0 && drawn == 0
    {
      this.env := env;
      particles, bodies, nodes, absorbers := map[], map[], map[], map[];
      agentEmitters, agentTimers, compoundEmitters := map[], map[], map[];
      collisions, nextId, drawn := [], 0, 0;
    }

    /** rng().getDouble(low, high): the next sample, mapped onto [low, high]. */
    method Draw(low: real, high: real) returns (v: real)
      modifies this`drawn
      ensures drawn == old(drawn) + 1
      ensures v == env.getDouble(old(drawn), low, high)
    {
      v := env.getDouble(drawn, low, high);
      drawn := drawn + 1;
    }

    /** generateNewId() and addComponent for a particle entity: a fresh
        entity with a particle component and a body at `position`. */
    method Spawn(p: Particle, position: Vec3) returns (e: EntityId)
      modifies this`particles, this`bodies, this`nextId
      ensures e == old(nextId) && nextId == e + 1
      ensures particles == old(particles)[e := p]
      ensures bodies == old(bodies)[e := position]
    {
      e := nextId;
      nextId := nextId + 1;
      particles := particles[e := p];
      bodies := bodies[e := position];
    }

    /** m_absorbedAgents[id] += amount on the absorber of entity a: only that
        entity's amount of that type changes. */
    method Credit(a: EntityId, id: TypeId, amount: real)
      requires DistinctAbsorbers() && a in absorbers
      modifies absorbers[a]
      ensures var ledger: map<TypeId, real> := old(Ledgers())[a];
              Ledgers() == old(Ledgers())[a := ledger[id := AmountIn(ledger, id) + amount]]
      ensures Allowed() == old(Allowed())
    {
      var absorber := absorbers[a];
      absorber.absorbed := absorber.absorbed[id := absorber.Amount(id) + amount];
      forall e | e in absorbers && e != a
        ensures Ledgers()[e] == old(Ledgers())[e]
      {
        assert absorbers[e] != absorber;
      }
      assert Allowed() == old(Allowed()) by {
        forall e | e in absorbers
          ensures Allowed()[e] == old(Allowed())[e]
        {
        }
      }
    }

    /** The consumption of particle p by the absorber of entity a: the
        absorber's amount of the particle's type grows by its potency, and
        the particle is left with no time to live. */
    method Consume(p: EntityId, a: EntityId)
      requires DistinctAbsorbers() && p in particles && a in absorbers
      modifies this`particles, absorbers[a]
      ensures particles == old(particles)[p := old(particles)[p].(timeToLive := 0)]
      ensures var q, ledger: map<TypeId, real> := old(particles)[p], old(Ledgers())[a];
              Ledgers() == old(Ledgers())[a := ledger[q.typeId := AmountIn(ledger, q.typeId) + q.potency]]
      ensures Allowed() == old(Allowed())
    {
      var q := particles[p];
      particles := particles[p := q.(timeToLive := 0)];
      Credit(a, q.typeId, q.potency);
    }

    /** removeEntity: the entity loses every component. */
    method RemoveEntity(e: EntityId)
      requires Valid()
      modifies this`particles, this`bodies, this`nodes, this`absorbers,
               this`agentEmitters, this`agentTimers, this`compoundEmitters
      ensures Valid()
      ensures particles == old(particles) - {e}
      ensures Others() == Without(old(Others()), {e})
    {
      particles, bodies, nodes, absorbers := particles - {e}, bodies - {e}, nodes - {e}, absorbers - {e};
      agentEmitters, agentTimers := agentEmitters - {e}, agentTimers - {e};
      compoundEmitters := compoundEmitters - {e};
    }
  }
}
