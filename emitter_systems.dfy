/** The two emitter systems as a whole: each tick hands every emitter
    entity its share (AgentEmitterTick, CompoundEmitterTick), in the
    unspecified order of the entity filter. */
module EmitterSystems {
  import opened Components
  import opened World
  import opened Emission

  /** The timer table after a tick of every timer in `active`. */
  function AdvanceAll(timers: map<EntityId, Timer>, active: set<EntityId>, ms: int): (r: map<EntityId, Timer>)
    ensures r.Keys == timers.Keys
  {
    map e | e in timers :: if e in active then Advance(timers[e], ms) else timers[e]
  }

  /** The compound emitter table after a tick of every emitter in `active`. */
  function AdvanceAllCompound(emitters: map<EntityId, CompoundEmitter>, active: set<EntityId>, ms: int): (r: map<EntityId, CompoundEmitter>)
    ensures r.Keys == emitters.Keys
  {
    map e | e in emitters :: if e in active then emitters[e].(timer := Advance(emitters[e].timer, ms)) else emitters[e]
  }

  /** A particle an agent emitter spawns: its type and lifetime, and its
      potency cut to a whole number. */
  predicate FromAgentEmitter(q: Particle, em: EmissionProfile)
  {
    Carries(q, em, TruncateToInt(em.potencyPerParticle) as real)
  }

  /** A particle a compound emitter spawns: its type, lifetime and potency. */
  predicate FromCompoundEmitter(q: Particle, ce: CompoundEmitter)
  {
    Carries(q, ce.profile, ce.profile.potencyPerParticle)
  }

  /** What one emitter spawns in a tick: its profile, the potency its
      particles get, and how many it spawns. */
  datatype Share = Share(em: EmissionProfile, potency: real, n: nat)

  /** The agent emitters' shares in a tick of ms milliseconds: the potency
      is cut to a whole number. */
  function AgentPlan(ems: map<EntityId, EmissionProfile>, timers: map<EntityId, Timer>, ms: int): (plan: map<EntityId, Share>)
    ensures plan.Keys == ems.Keys * timers.Keys
  {
    map e | e in ems.Keys * timers.Keys ::
      Share(ems[e], TruncateToInt(ems[e].potencyPerParticle) as real, Bursts(timers[e], ms) * ems[e].particlesPerEmission)
  }

  /** The compound emitters' shares in a tick of ms milliseconds. */
  function CompoundPlan(ces: map<EntityId, CompoundEmitter>, ms: int): (plan: map<EntityId, Share>)
    ensures plan.Keys == ces.Keys
  {
    map e | e in ces ::
      Share(ces[e].profile, ces[e].profile.potencyPerParticle, Bursts(ces[e].timer, ms) * ces[e].profile.particlesPerEmission)
  }

  /** No emitter is visited twice. */
  predicate Distinct(order: seq<EntityId>)
  {
    forall i, j :: 0 <= i < j < |order| ==> order[i] != order[j]
  }

  /** The emitters `order` visits. */
  function Visited(order: seq<EntityId>): (s: set<EntityId>)
    ensures forall e :: e in s <==> e in order
  {
    set e | e in order
  }

  /** How many particles the emitters of `order` spawn, one after another. */
  function CountAlong(plan: map<EntityId, Share>, order: seq<EntityId>): nat
    requires forall e :: e in order ==> e in plan
  {
    if order == [] then 0
    else CountAlong(plan, order[..|order| - 1]) + plan[order[|order| - 1]].n
  }

  /** How many particles the emitters of s spawn, in no particular order. */
  ghost function CountOver(plan: map<EntityId, Share>, s: set<EntityId>): nat
    requires s <= plan.Keys
  {
    if s == {} then 0
    else var e :| e in s; plan[e].n + CountOver(plan, s - {e})
  }

  /** Any emitter of s may be counted first. */
  lemma {:induction false} CountOverRemove(plan: map<EntityId, Share>, s: set<EntityId>, e: EntityId)
    requires s <= plan.Keys && e in s
    ensures CountOver(plan, s) == plan[e].n + CountOver(plan, s - {e})
    decreases |s|
  {
    var x :| x in s && CountOver(plan, s) == plan[x].n + CountOver(plan, s - {x});
    if x != e {
      CountOverRemove(plan, s - {x}, e);
      CountOverRemove(plan, s - {e}, x);
      assert s - {x} - {e} == s - {e} - {x};
    }
  }

  /** The count of a tick does not depend on the order of the visit: along
      any order that visits each emitter of s once, it is CountOver(s). */
  lemma {:induction false} CountAlongIsCountOver(plan: map<EntityId, Share>, order: seq<EntityId>)
    requires (forall e :: e in order ==> e in plan) && Distinct(order)
    ensures CountAlong(plan, order) == CountOver(plan, Visited(order))
    decreases |order|
  {
    if order != [] {
      var init, e := order[..|order| - 1], order[|order| - 1];
      assert Distinct(init) by {
        forall i, j | 0 <= i < j < |init|
          ensures init[i] != init[j]
        {
          assert init[i] == order[i] && init[j] == order[j];
        }
      }
      CountAlongIsCountOver(plan, init);
      var s := Visited(order);
      assert e in s;
      assert Visited(init) == s - {e} by {
        forall x | x in s
          ensures x in init <==> x != e
        {
          var i :| 0 <= i < |order| && order[i] == x;
          if x in init {
            var j :| 0 <= j < |init| && init[j] == x;
            assert order[j] == x && order[j] != order[|order| - 1];
          }
        }
      }
      CountOverRemove(plan, s, e);
      assert CountAlong(plan, order) == CountAlong(plan, init) + plan[e].n;
    } else {
      assert Visited(order) == {};
    }
  }

  /** Two walks that visit the same emitters, each once, spawn as many
      particles, whatever their orders. */
  lemma CountAlongOrderFree(plan: map<EntityId, Share>, order1: seq<EntityId>, order2: seq<EntityId>)
    requires forall e :: e in order1 ==> e in plan
    requires Distinct(order1) && Distinct(order2) && Visited(order1) == Visited(order2)
    ensures CountAlong(plan, order1) == CountAlong(plan, order2)
  {
    CountAlongIsCountOver(plan, order1);
    CountAlongIsCountOver(plan, order2);
  }

  /** The particle table after the emitters of `order` have ticked one after
      another, each taking the next ids and draws. */
  function SpawnedAlong(ps: map<EntityId, Particle>, env: Env, plan: map<EntityId, Share>, order: seq<EntityId>,
                        first: EntityId, u: nat): map<EntityId, Particle>
    requires forall e :: e in order ==> e in plan
  {
    if order == [] then ps
    else
      var init, e := order[..|order| - 1], order[|order| - 1];
      var k := CountAlong(plan, init);
      Spawned(SpawnedAlong(ps, env, plan, init, first, u), env, plan[e].em, plan[e].potency, first + k, u + 2 * k, plan[e].n)
  }

  /** The body table after the same ticks, each at its emitter's scene node. */
  function SpawnedBodiesAlong(bodies: map<EntityId, Vec3>, env: Env, plan: map<EntityId, Share>, nodes: map<EntityId, Vec3>,
                              order: seq<EntityId>, first: EntityId, u: nat): map<EntityId, Vec3>
    requires forall e :: e in order ==> e in plan && e in nodes
  {
    if order == [] then bodies
    else
      var init, e := order[..|order| - 1], order[|order| - 1];
      var k := CountAlong(plan, init);
      SpawnedBodies(SpawnedBodiesAlong(bodies, env, plan, nodes, init, first, u), env, plan[e].em, nodes[e], first + k, u + 2 * k, plan[e].n)
  }

  /** Visiting one more emitter spawns its share after those of the
      emitters before it, from the next id and draw on: when ps and bodies
      are the tables after `order`, and ps' and bodies' those after e's
      share, ps' and bodies' are the tables after order + [e]. */
  lemma AlongAppend(ps0: map<EntityId, Particle>, bodies0: map<EntityId, Vec3>, env: Env, plan: map<EntityId, Share>,
                    nodes: map<EntityId, Vec3>, order: seq<EntityId>, e: EntityId, first0: EntityId, u0: nat,
                    ps: map<EntityId, Particle>, bodies: map<EntityId, Vec3>, first: EntityId, u: nat,
                    em: EmissionProfile, potency: real, n: nat, ps': map<EntityId, Particle>, bodies': map<EntityId, Vec3>)
    requires forall x :: x in order ==> x in plan && x in nodes
    requires e in plan && e in nodes && plan[e] == Share(em, potency, n)
    requires ps == SpawnedAlong(ps0, env, plan, order, first0, u0)
    requires bodies == SpawnedBodiesAlong(bodies0, env, plan, nodes, order, first0, u0)
    requires first == first0 + CountAlong(plan, order) && u == u0 + 2 * CountAlong(plan, order)
    requires ps' == Spawned(ps, env, em, potency, first, u, n)
    requires bodies' == SpawnedBodies(bodies, env, em, nodes[e], first, u, n)
    ensures CountAlong(plan, order + [e]) == CountAlong(plan, order) + plan[e].n
    ensures ps' == SpawnedAlong(ps0, env, plan, order + [e], first0, u0)
    ensures bodies' == SpawnedBodiesAlong(bodies0, env, plan, nodes, order + [e], first0, u0)
  {
    assert (order + [e])[..|order|] == order;
  }

  /** What a whole visit keeps: the particles and bodies already there
      stay, and every id stays below first + CountAlong. */
  lemma {:induction false} AlongKeeps(ps: map<EntityId, Particle>, bodies: map<EntityId, Vec3>, env: Env,
                                      plan: map<EntityId, Share>, nodes: map<EntityId, Vec3>,
                                      order: seq<EntityId>, first: EntityId, u: nat)
    requires forall x :: x in order ==> x in plan && x in nodes
    requires IdsBelow(ps, first) && IdsBelow(bodies, first)
    ensures var ps', bs', k := SpawnedAlong(ps, env, plan, order, first, u),
                                SpawnedBodiesAlong(bodies, env, plan, nodes, order, first, u), CountAlong(plan, order);
            && IdsBelow(ps', first + k) && IdsBelow(bs', first + k)
            && (forall p :: p in ps ==> p in ps' && ps'[p] == ps[p])
            && (forall p :: p in bodies ==> p in bs' && bs'[p] == bodies[p])
    decreases |order|
  {
    if order != [] {
      var init, e := order[..|order| - 1], order[|order| - 1];
      var k0 := CountAlong(plan, init);
      AlongKeeps(ps, bodies, env, plan, nodes, init, first, u);
      var ps1, bs1 := SpawnedAlong(ps, env, plan, init, first, u), SpawnedBodiesAlong(bodies, env, plan, nodes, init, first, u);
      var sh := plan[e];
      SpawnedFresh(ps1, bs1, env, sh.em, sh.potency, nodes[e], first + k0, u + 2 * k0, sh.n);
    }
  }

  /** What a whole visit adds: an entity has a particle after it exactly
      when it had one before or its id is one of first .. first +
      CountAlong - 1. */
  lemma {:induction false} AlongKeys(ps: map<EntityId, Particle>, env: Env, plan: map<EntityId, Share>,
                                     order: seq<EntityId>, first: EntityId, u: nat, p: EntityId)
    requires forall x :: x in order ==> x in plan
    ensures p in SpawnedAlong(ps, env, plan, order, first, u) <==> p in ps || first <= p < first + CountAlong(plan, order)
    decreases |order|
  {
    if order != [] {
      var init, e := order[..|order| - 1], order[|order| - 1];
      var k0 := CountAlong(plan, init);
      AlongKeys(ps, env, plan, init, first, u, p);
      var sh := plan[e];
      SpawnedKeys(SpawnedAlong(ps, env, plan, init, first, u), env, sh.em, sh.potency, first + k0, u + 2 * k0, sh.n, p);
    }
  }

  /** The same for the bodies. */
  lemma {:induction false} AlongBodiesKeys(bodies: map<EntityId, Vec3>, env: Env, plan: map<EntityId, Share>,
                                           nodes: map<EntityId, Vec3>, order: seq<EntityId>, first: EntityId, u: nat, p: EntityId)
    requires forall x :: x in order ==> x in plan && x in nodes
    ensures p in SpawnedBodiesAlong(bodies, env, plan, nodes, order, first, u) <==> p in bodies || first <= p < first + CountAlong(plan, order)
    decreases |order|
  {
    if order != [] {
      var init, e := order[..|order| - 1], order[|order| - 1];
      var k0 := CountAlong(plan, init);
      AlongBodiesKeys(bodies, env, plan, nodes, init, first, u, p);
      var sh := plan[e];
      SpawnedBodiesKeys(SpawnedBodiesAlong(bodies, env, plan, nodes, init, first, u), env, sh.em, nodes[e], first + k0, u + 2 * k0, sh.n, p);
    }
  }

  /** Each particle a whole visit adds carries the template of an emitter
      the visit passed. */
  lemma {:induction false} AlongCarries(ps: map<EntityId, Particle>, env: Env, plan: map<EntityId, Share>,
                                        order: seq<EntityId>, first: EntityId, u: nat)
    requires forall x :: x in order ==> x in plan
    requires IdsBelow(ps, first)
    ensures var ps' := SpawnedAlong(ps, env, plan, order, first, u);
            forall p :: p in ps' && p !in ps ==> exists x :: x in order && Carries(ps'[p], plan[x].em, plan[x].potency)
    decreases |order|
  {
    if order != [] {
      var init, e := order[..|order| - 1], order[|order| - 1];
      var k0 := CountAlong(plan, init);
      AlongCarries(ps, env, plan, init, first, u);
      AlongIdsBelow(ps, env, plan, init, first, u);
      var ps1 := SpawnedAlong(ps, env, plan, init, first, u);
      var sh := plan[e];
      SpawnedFresh(ps1, map[], env, sh.em, sh.potency, ZERO, first + k0, u + 2 * k0, sh.n);
      var ps' := SpawnedAlong(ps, env, plan, order, first, u);
      assert ps' == Spawned(ps1, env, sh.em, sh.potency, first + k0, u + 2 * k0, sh.n);
      forall p | p in ps' && p !in ps
        ensures exists x :: x in order && Carries(ps'[p], plan[x].em, plan[x].potency)
      {
        if p in ps1 {
          var x :| x in init && Carries(ps1[p], plan[x].em, plan[x].potency);
          assert x in order && ps'[p] == ps1[p];
        } else {
          assert e in order && Carries(ps'[p], sh.em, sh.potency);
        }
      }
    }
  }

  /** A whole visit hands out ids below first + CountAlong only. */
  lemma {:induction false} AlongIdsBelow(ps: map<EntityId, Particle>, env: Env, plan: map<EntityId, Share>,
                                         order: seq<EntityId>, first: EntityId, u: nat)
    requires forall x :: x in order ==> x in plan
    requires IdsBelow(ps, first)
    ensures IdsBelow(SpawnedAlong(ps, env, plan, order, first, u), first + CountAlong(plan, order))
    decreases |order|
  {
    if order != [] {
      var init, e := order[..|order| - 1], order[|order| - 1];
      var k0 := CountAlong(plan, init);
      AlongIdsBelow(ps, env, plan, init, first, u);
      var sh := plan[e];
      SpawnedFresh(SpawnedAlong(ps, env, plan, init, first, u), map[], env, sh.em, sh.potency, ZERO, first + k0, u + 2 * k0, sh.n);
    }
  }

  /** What an agent system tick that visits `order` gives, in its own terms:
      the spawn count of the active emitters, whatever the order, and
      AlongFresh's facts, each new particle carrying the template of an
      active agent emitter. */
  lemma AgentVisitFacts(ps0: map<EntityId, Particle>, bodies0: map<EntityId, Vec3>, env: Env,
                        ems: map<EntityId, EmissionProfile>, timers: map<EntityId, Timer>, nodes: map<EntityId, Vec3>,
                        ms: int, order: seq<EntityId>, first: EntityId, u: nat)
    requires IdsBelow(ps0, first) && IdsBelow(bodies0, first)
    requires Distinct(order) && Visited(order) == ems.Keys * timers.Keys * nodes.Keys
    ensures var plan := AgentPlan(ems, timers, ms);
            var ps, bs := SpawnedAlong(ps0, env, plan, order, first, u), SpawnedBodiesAlong(bodies0, env, plan, nodes, order, first, u);
            var next := first + CountAlong(plan, order);
            && CountAlong(plan, order) == CountOver(plan, Visited(order))
            && IdsBelow(ps, next) && IdsBelow(bs, next)
            && (forall p :: first <= p < next ==> p in ps)
            && (forall p :: p in ps0 ==> p in ps && ps[p] == ps0[p])
            && (forall p :: p in ps && p !in ps0 ==> first <= p < next)
            && (forall p :: p in bodies0 ==> p in bs && bs[p] == bodies0[p])
            && bs.Keys - bodies0.Keys == ps.Keys - ps0.Keys
            && (forall p :: p in ps && p !in ps0 ==>
                  exists e :: e in ems && e in timers && e in nodes && FromAgentEmitter(ps[p], ems[e]))
  {
    var plan := AgentPlan(ems, timers, ms);
    CountAlongIsCountOver(plan, order);
    AlongKeeps(ps0, bodies0, env, plan, nodes, order, first, u);
    AlongCarries(ps0, env, plan, order, first, u);
    var ps, bs := SpawnedAlong(ps0, env, plan, order, first, u), SpawnedBodiesAlong(bodies0, env, plan, nodes, order, first, u);
    forall p: EntityId
      ensures p in ps <==> p in ps0 || first <= p < first + CountAlong(plan, order)
      ensures p in bs <==> p in bodies0 || first <= p < first + CountAlong(plan, order)
    {
      AlongKeys(ps0, env, plan, order, first, u, p);
      AlongBodiesKeys(bodies0, env, plan, nodes, order, first, u, p);
    }
    assert bs.Keys - bodies0.Keys == ps.Keys - ps0.Keys;
    forall p | p in ps && p !in ps0
      ensures exists e :: e in ems && e in timers && e in nodes && FromAgentEmitter(ps[p], ems[e])
    {
      var x :| x in order && Carries(ps[p], plan[x].em, plan[x].potency);
      assert x in Visited(order);
    }
  }

  /** The same for a compound system tick: each new particle carries the
      template of an active compound emitter. */
  lemma CompoundVisitFacts(ps0: map<EntityId, Particle>, bodies0: map<EntityId, Vec3>, env: Env,
                           ces: map<EntityId, CompoundEmitter>, nodes: map<EntityId, Vec3>,
                           ms: int, order: seq<EntityId>, first: EntityId, u: nat)
    requires IdsBelow(ps0, first) && IdsBelow(bodies0, first)
    requires Distinct(order) && Visited(order) == ces.Keys * nodes.Keys
    ensures var plan := CompoundPlan(ces, ms);
            var ps, bs := SpawnedAlong(ps0, env, plan, order, first, u), SpawnedBodiesAlong(bodies0, env, plan, nodes, order, first, u);
            var next := first + CountAlong(plan, order);
            && CountAlong(plan, order) == CountOver(plan, Visited(order))
            && IdsBelow(ps, next) && IdsBelow(bs, next)
            && (forall p :: first <= p < next ==> p in ps)
            && (forall p :: p in ps0 ==> p in ps && ps[p] == ps0[p])
            && (forall p :: p in ps && p !in ps0 ==> first <= p < next)
            && (forall p :: p in bodies0 ==> p in bs && bs[p] == bodies0[p])
            && bs.Keys - bodies0.Keys == ps.Keys - ps0.Keys
            && (forall p :: p in ps && p !in ps0 ==>
                  exists e :: e in ces && e in nodes && FromCompoundEmitter(ps[p], ces[e]))
  {
    var plan := CompoundPlan(ces, ms);
    CountAlongIsCountOver(plan, order);
    AlongKeeps(ps0, bodies0, env, plan, nodes, order, first, u);
    AlongCarries(ps0, env, plan, order, first, u);
    var ps, bs := SpawnedAlong(ps0, env, plan, order, first, u), SpawnedBodiesAlong(bodies0, env, plan, nodes, order, first, u);
    forall p: EntityId
      ensures p in ps <==> p in ps0 || first <= p < first + CountAlong(plan, order)
      ensures p in bs <==> p in bodies0 || first <= p < first + CountAlong(plan, order)
    {
      AlongKeys(ps0, env, plan, order, first, u, p);
      AlongBodiesKeys(bodies0, env, plan, nodes, order, first, u, p);
    }
    assert bs.Keys - bodies0.Keys == ps.Keys - ps0.Keys;
    forall p | p in ps && p !in ps0
      ensures exists e :: e in ces && e in nodes && FromCompoundEmitter(ps[p], ces[e])
    {
      var x :| x in order && Carries(ps[p], plan[x].em, plan[x].potency);
      assert x in Visited(order);
    }
  }

  /** A visit order stays free of repeats when it visits a new emitter. */
  lemma DistinctAppend(order: seq<EntityId>, e: EntityId)
    requires Distinct(order) && e !in Visited(order)
    ensures Distinct(order + [e]) && Visited(order + [e]) == Visited(order) + {e}
  {
  }

  /** Ticking one more timer e: its entry becomes its tick and the others stay. */
  lemma AdvanceAllOneMore(timers: map<EntityId, Timer>, done: set<EntityId>, e: EntityId, ms: int)
    requires e in timers && e !in done
    ensures AdvanceAll(timers, done + {e}, ms) == AdvanceAll(timers, done, ms)[e := Advance(timers[e], ms)]
  {
  }

  /** The same for the compound emitters. */
  lemma AdvanceAllCompoundOneMore(emitters: map<EntityId, CompoundEmitter>, done: set<EntityId>, e: EntityId, ms: int)
    requires e in emitters && e !in done
    ensures AdvanceAllCompound(emitters, done + {e}, ms)
            == AdvanceAllCompound(emitters, done, ms)[e := emitters[e].(timer := Advance(emitters[e].timer, ms))]
  {
  }

  /** Two system ticks of a and b milliseconds (b not negative) leave every
      timer as one tick of a + b. */
  lemma {:induction false} AdvanceAllSplit(timers: map<EntityId, Timer>, active: set<EntityId>, a: int, b: int)
    requires b >= 0
    ensures AdvanceAll(AdvanceAll(timers, active, a), active, b) == AdvanceAll(timers, active, a + b)
  {
    var two, one := AdvanceAll(AdvanceAll(timers, active, a), active, b), AdvanceAll(timers, active, a + b);
    forall e | e in one
      ensures two[e] == one[e]
    {
      if e in active {
        AdvanceSplit(timers[e], a, b);
      }
    }
  }

  /** One agent emitter's tick, with what it keeps of the world: the timer
      table and the ids stay as the world invariant wants them, and the
      particles that were there are left alone. */
  method AgentEmitterStep(w: World, e: EntityId, ms: int)
    requires w.Valid() && e in w.agentEmitters && e in w.agentTimers && e in w.nodes
    modifies w`agentTimers, w`particles, w`bodies, w`nextId, w`drawn
    ensures w.Valid()
    ensures w.agentTimers == old(w.agentTimers)[e := Advance(old(w.agentTimers[e]), ms)]
    ensures w.nextId >= old(w.nextId) && w.drawn - old(w.drawn) == 2 * (w.nextId - old(w.nextId))
    ensures forall p :: p in old(w.particles) ==> p in w.particles && w.particles[p] == old(w.particles[p])
    ensures forall p :: p in w.particles && p !in old(w.particles) ==> old(w.nextId) <= p < w.nextId
    ensures forall p :: p in old(w.bodies) ==> p in w.bodies && w.bodies[p] == old(w.bodies[p])
    ensures w.bodies.Keys - old(w.bodies).Keys == w.particles.Keys - old(w.particles).Keys
    ensures forall p :: p in w.particles && p !in old(w.particles) ==> FromAgentEmitter(w.particles[p], w.agentEmitters[e])
    ensures forall p :: old(w.nextId) <= p < w.nextId ==> p in w.particles
    ensures var em, t := w.agentEmitters[e], old(w.agentTimers[e]);
            var n := Bursts(t, ms) * em.particlesPerEmission;
            && w.nextId == old(w.nextId) + n && w.drawn == old(w.drawn) + 2 * n
            && w.particles == Spawned(old(w.particles), w.env, em, TruncateToInt(em.potencyPerParticle) as real, old(w.nextId), old(w.drawn), n)
            && w.bodies == SpawnedBodies(old(w.bodies), w.env, em, w.nodes[e], old(w.nextId), old(w.drawn), n)
  {
    var em := w.agentEmitters[e];
    var n := Bursts(w.agentTimers[e], ms) * em.particlesPerEmission;
    SpawnedFresh(w.particles, w.bodies, w.env, em, TruncateToInt(em.potencyPerParticle) as real, w.nodes[e], w.nextId, w.drawn, n);
    AgentEmitterTick(w, e, ms);
  }

  /** Where the agent system's walk stands: the emitters of `order` (those
      of active - todo, each once) have ticked, in that order, and the
      world's timers, ids, draws, particles and bodies are what those ticks
      made of timers0, first0, u0, ps0 and bodies0. */
  ghost predicate AgentWalk(w: World, ms: int, timers0: map<EntityId, Timer>, ps0: map<EntityId, Particle>,
                            bodies0: map<EntityId, Vec3>, first0: EntityId, u0: nat, plan: map<EntityId, Share>,
                            active: set<EntityId>, todo: set<EntityId>, order: seq<EntityId>)
    reads w`agentTimers, w`particles, w`bodies, w`nextId, w`drawn, w`nodes
  {
    && todo <= active && w.agentTimers == AdvanceAll(timers0, active - todo, ms)
    && Distinct(order) && Visited(order) == active - todo
    && (forall x :: x in order ==> x in plan && x in w.nodes)
    && w.nextId == first0 + CountAlong(plan, order) && w.drawn == u0 + 2 * CountAlong(plan, order)
    && w.particles == SpawnedAlong(ps0, w.env, plan, order, first0, u0)
    && w.bodies == SpawnedBodiesAlong(bodies0, w.env, plan, w.nodes, order, first0, u0)
  }

  /** One turn of the agent system's walk: emitter e, not ticked yet,
      ticks after the emitters of `order`. */
  method AgentVisit(w: World, e: EntityId, ms: int, ghost timers0: map<EntityId, Timer>, ghost ps0: map<EntityId, Particle>,
                    ghost bodies0: map<EntityId, Vec3>, ghost first0: EntityId, ghost u0: nat, ghost plan: map<EntityId, Share>,
                    ghost active: set<EntityId>, ghost todo: set<EntityId>, ghost order: seq<EntityId>)
    requires w.Valid() && e in todo && active <= w.agentEmitters.Keys * timers0.Keys * w.nodes.Keys
    requires plan == AgentPlan(w.agentEmitters, timers0, ms)
    requires AgentWalk(w, ms, timers0, ps0, bodies0, first0, u0, plan, active, todo, order)
    modifies w`agentTimers, w`particles, w`bodies, w`nextId, w`drawn
    ensures w.Valid()
    ensures AgentWalk(w, ms, timers0, ps0, bodies0, first0, u0, plan, active, todo - {e}, order + [e])
  {
    ghost var done := active - todo;
    AdvanceAllOneMore(timers0, done, e, ms);
    assert w.agentTimers[e] == timers0[e];
    ghost var sh := plan[e];
    ghost var ps, bs, first, u := w.particles, w.bodies, w.nextId, w.drawn;
    AgentEmitterStep(w, e, ms);
    AlongAppend(ps0, bodies0, w.env, plan, w.nodes, order, e, first0, u0, ps, bs, first, u, sh.em, sh.potency, sh.n, w.particles, w.bodies);
    DistinctAppend(order, e);
    assert active - (todo - {e}) == done + {e};
  }

  /** AgentEmitterSystem::update: every entity with an agent emitter, a
      timed emitter and a scene node ticks once. */
  method AgentEmitterUpdate(w: World, ms: int) returns (ghost order: seq<EntityId>)
    requires w.Valid()
    modifies w`agentTimers, w`particles, w`bodies, w`nextId, w`drawn
    ensures w.Valid()
    ensures w.agentTimers == AdvanceAll(old(w.agentTimers), w.agentEmitters.Keys * w.agentTimers.Keys * w.nodes.Keys, ms)
    ensures Distinct(order) && Visited(order) == w.agentEmitters.Keys * old(w.agentTimers).Keys * w.nodes.Keys
    ensures var plan := AgentPlan(w.agentEmitters, old(w.agentTimers), ms);
            && w.nextId == old(w.nextId) + CountOver(plan, w.agentEmitters.Keys * old(w.agentTimers).Keys * w.nodes.Keys)
            && w.drawn == old(w.drawn) + 2 * CountOver(plan, w.agentEmitters.Keys * old(w.agentTimers).Keys * w.nodes.Keys)
            && w.particles == SpawnedAlong(old(w.particles), w.env, plan, order, old(w.nextId), old(w.drawn))
            && w.bodies == SpawnedBodiesAlong(old(w.bodies), w.env, plan, w.nodes, order, old(w.nextId), old(w.drawn))
    ensures forall p :: old(w.nextId) <= p < w.nextId ==> p in w.particles
    ensures forall p :: p in old(w.particles) ==> p in w.particles && w.particles[p] == old(w.particles[p])
    ensures forall p :: p in w.particles && p !in old(w.particles) ==> old(w.nextId) <= p < w.nextId
    ensures forall p :: p in old(w.bodies) ==> p in w.bodies && w.bodies[p] == old(w.bodies[p])
    ensures w.bodies.Keys - old(w.bodies).Keys == w.particles.Keys - old(w.particles).Keys
    ensures forall p :: p in w.particles && p !in old(w.particles) ==>
              exists e :: e in w.agentEmitters && e in w.agentTimers && e in w.nodes && FromAgentEmitter(w.particles[p], w.agentEmitters[e])
  {
    var active := w.agentEmitters.Keys * w.agentTimers.Keys * w.nodes.Keys;
    ghost var plan := AgentPlan(w.agentEmitters, w.agentTimers, ms);
    assert IdsBelow(w.particles, w.nextId) && IdsBelow(w.bodies, w.nextId);
    var todo := active;
    order := [];
    while todo != {}
      invariant w.Valid()
      invariant AgentWalk(w, ms, old(w.agentTimers), old(w.particles), old(w.bodies), old(w.nextId), old(w.drawn), plan, active, todo, order)
      decreases todo
    {
      var e :| e in todo;
      AgentVisit(w, e, ms, old(w.agentTimers), old(w.particles), old(w.bodies), old(w.nextId), old(w.drawn), plan, active, todo, order);
      order := order + [e];
      todo := todo - {e};
    }
    AgentVisitFacts(old(w.particles), old(w.bodies), w.env, w.agentEmitters, old(w.agentTimers), w.nodes, ms, order, old(w.nextId), old(w.drawn));
  }


  /** One compound emitter's tick, with what it keeps of the world. */
  method CompoundEmitterStep(w: World, e: EntityId, ms: int)
    requires w.Valid() && e in w.compoundEmitters && e in w.nodes
    modifies w`compoundEmitters, w`particles, w`bodies, w`nextId, w`drawn
    ensures w.Valid()
    ensures var ce := old(w.compoundEmitters[e]);
            w.compoundEmitters == old(w.compoundEmitters)[e := ce.(timer := Advance(ce.timer, ms))]
    ensures w.nextId >= old(w.nextId) && w.drawn - old(w.drawn) == 2 * (w.nextId - old(w.nextId))
    ensures forall p :: p in old(w.particles) ==> p in w.particles && w.particles[p] == old(w.particles[p])
    ensures forall p :: p in w.particles && p !in old(w.particles) ==> old(w.nextId) <= p < w.nextId
    ensures forall p :: p in old(w.bodies) ==> p in w.bodies && w.bodies[p] == old(w.bodies[p])
    ensures w.bodies.Keys - old(w.bodies).Keys == w.particles.Keys - old(w.particles).Keys
    ensures forall p :: p in w.particles && p !in old(w.particles) ==> FromCompoundEmitter(w.particles[p], old(w.compoundEmitters[e]))
    ensures forall p :: old(w.nextId) <= p < w.nextId ==> p in w.particles
    ensures var ce := old(w.compoundEmitters[e]);
            var n := Bursts(ce.timer, ms) * ce.profile.particlesPerEmission;
            && w.nextId == old(w.nextId) + n && w.drawn == old(w.drawn) + 2 * n
            && w.particles == Spawned(old(w.particles), w.env, ce.profile, ce.profile.potencyPerParticle, old(w.nextId), old(w.drawn), n)
            && w.bodies == SpawnedBodies(old(w.bodies), w.env, ce.profile, w.nodes[e], old(w.nextId), old(w.drawn), n)
  {
    var ce := w.compoundEmitters[e];
    var n := Bursts(ce.timer, ms) * ce.profile.particlesPerEmission;
    SpawnedFresh(w.particles, w.bodies, w.env, ce.profile, ce.profile.potencyPerParticle, w.nodes[e], w.nextId, w.drawn, n);
    CompoundEmitterTick(w, e, ms);
  }

  /** Where the compound system's walk stands, as AgentWalk. */
  ghost predicate CompoundWalk(w: World, ms: int, emitters0: map<EntityId, CompoundEmitter>, ps0: map<EntityId, Particle>,
                               bodies0: map<EntityId, Vec3>, first0: EntityId, u0: nat, plan: map<EntityId, Share>,
                               active: set<EntityId>, todo: set<EntityId>, order: seq<EntityId>)
    reads w`compoundEmitters, w`particles, w`bodies, w`nextId, w`drawn, w`nodes
  {
    && todo <= active && w.compoundEmitters == AdvanceAllCompound(emitters0, active - todo, ms)
    && Distinct(order) && Visited(order) == active - todo
    && (forall x :: x in order ==> x in plan && x in w.nodes)
    && w.nextId == first0 + CountAlong(plan, order) && w.drawn == u0 + 2 * CountAlong(plan, order)
    && w.particles == SpawnedAlong(ps0, w.env, plan, order, first0, u0)
    && w.bodies == SpawnedBodiesAlong(bodies0, w.env, plan, w.nodes, order, first0, u0)
  }

  /** One turn of the compound system's walk, as AgentVisit. */
  method CompoundVisit(w: World, e: EntityId, ms: int, ghost emitters0: map<EntityId, CompoundEmitter>, ghost ps0: map<EntityId, Particle>,
                       ghost bodies0: map<EntityId, Vec3>, ghost first0: EntityId, ghost u0: nat, ghost plan: map<EntityId, Share>,
                       ghost active: set<EntityId>, ghost todo: set<EntityId>, ghost order: seq<EntityId>)
    requires w.Valid() && e in todo && active <= emitters0.Keys * w.nodes.Keys
    requires plan == CompoundPlan(emitters0, ms)
    requires CompoundWalk(w, ms, emitters0, ps0, bodies0, first0, u0, plan, active, todo, order)
    modifies w`compoundEmitters, w`particles, w`bodies, w`nextId, w`drawn
    ensures w.Valid()
    ensures CompoundWalk(w, ms, emitters0, ps0, bodies0, first0, u0, plan, active, todo - {e}, order + [e])
  {
    ghost var done := active - todo;
    AdvanceAllCompoundOneMore(emitters0, done, e, ms);
    assert w.compoundEmitters[e] == emitters0[e];
    ghost var sh := plan[e];
    ghost var ps, bs, first, u := w.particles, w.bodies, w.nextId, w.drawn;
    CompoundEmitterStep(w, e, ms);
    AlongAppend(ps0, bodies0, w.env, plan, w.nodes, order, e, first0, u0, ps, bs, first, u, sh.em, sh.potency, sh.n, w.particles, w.bodies);
    DistinctAppend(order, e);
    assert active - (todo - {e}) == done + {e};
  }

  /** CompoundEmitterSystem::update: every entity with a compound emitter
      and a scene node ticks once. */
  method CompoundEmitterUpdate(w: World, ms: int) returns (ghost order: seq<EntityId>)
    requires w.Valid()
    modifies w`compoundEmitters, w`particles, w`bodies, w`nextId, w`drawn
    ensures w.Valid()
    ensures w.compoundEmitters == AdvanceAllCompound(old(w.compoundEmitters), old(w.compoundEmitters).Keys * w.nodes.Keys, ms)
    ensures Distinct(order) && Visited(order) == old(w.compoundEmitters).Keys * w.nodes.Keys
    ensures var plan := CompoundPlan(old(w.compoundEmitters), ms);
            && w.nextId == old(w.nextId) + CountOver(plan, old(w.compoundEmitters).Keys * w.nodes.Keys)
            && w.drawn == old(w.drawn) + 2 * CountOver(plan, old(w.compoundEmitters).Keys * w.nodes.Keys)
            && w.particles == SpawnedAlong(old(w.particles), w.env, plan, order, old(w.nextId), old(w.drawn))
            && w.bodies == SpawnedBodiesAlong(old(w.bodies), w.env, plan, w.nodes, order, old(w.nextId), old(w.drawn))
    ensures forall p :: old(w.nextId) <= p < w.nextId ==> p in w.particles
    ensures forall p :: p in old(w.particles) ==> p in w.particles && w.particles[p] == old(w.particles[p])
    ensures forall p :: p in w.particles && p !in old(w.particles) ==> old(w.nextId) <= p < w.nextId
    ensures forall p :: p in old(w.bodies) ==> p in w.bodies && w.bodies[p] == old(w.bodies[p])
    ensures w.bodies.Keys - old(w.bodies).Keys == w.particles.Keys - old(w.particles).Keys
    ensures forall p :: p in w.particles && p !in old(w.particles) ==>
              exists e :: e in old(w.compoundEmitters) && e in w.nodes && FromCompoundEmitter(w.particles[p], old(w.compoundEmitters)[e])
  {
    var active := w.compoundEmitters.Keys * w.nodes.Keys;
    ghost var plan := CompoundPlan(w.compoundEmitters, ms);
    assert IdsBelow(w.particles, w.nextId) && IdsBelow(w.bodies, w.nextId);
    var todo := active;
    order := [];
    while todo != {}
      invariant w.Valid()
      invariant CompoundWalk(w, ms, old(w.compoundEmitters), old(w.particles), old(w.bodies), old(w.nextId), old(w.drawn), plan, active, todo, order)
      decreases todo
    {
      var e :| e in todo;
      CompoundVisit(w, e, ms, old(w.compoundEmitters), old(w.particles), old(w.bodies), old(w.nextId), old(w.drawn), plan, active, todo, order);
      order := order + [e];
      todo := todo - {e};
    }
    CompoundVisitFacts(old(w.particles), old(w.bodies), w.env, old(w.compoundEmitters), w.nodes, ms, order, old(w.nextId), old(w.drawn));
  }
}
