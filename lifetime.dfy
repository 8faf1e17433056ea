/** The lifetime system (AgentLifetimeSystem, CompoundLifetimeSystem): every
    tick takes the elapsed milliseconds off each particle's timeToLive and
    removes the entities that reach zero or less. */
module Lifetime {
  import opened Components
  import opened World

  /** The particles a tick of `ms` milliseconds brings to zero or below. */
  function Expired(ps: map<EntityId, Particle>, ms: int): set<EntityId>
  {
    set e | e in ps && ps[e].timeToLive - ms <= 0
  }

  /** The particle table after a tick: exactly the expired particles are
      gone, and each survivor has ms less to live, is still alive, and is
      otherwise unchanged. */
  function Decayed(ps: map<EntityId, Particle>, ms: int): (r: map<EntityId, Particle>)
    ensures r.Keys == ps.Keys - Expired(ps, ms)
    ensures forall e :: e in r ==>
              && r[e].timeToLive == ps[e].timeToLive - ms
              && r[e].timeToLive > 0
              && r[e].(timeToLive := ps[e].timeToLive) == ps[e]
  {
    map e | e in ps && ps[e].timeToLive - ms > 0 :: ps[e].(timeToLive := ps[e].timeToLive - ms)
  }

  /** Two ticks of a and b milliseconds (b not negative) leave the same
      particles, with the same lifetimes, as one tick of a + b. */
  lemma DecayedSplit(ps: map<EntityId, Particle>, a: int, b: int)
    requires b >= 0
    ensures Decayed(Decayed(ps, a), b) == Decayed(ps, a + b)
  {
    var two, one := Decayed(Decayed(ps, a), b), Decayed(ps, a + b);
    assert two.Keys == one.Keys;
    forall e | e in one
      ensures two[e] == one[e]
    {
    }
  }

  /** A particle with 500 ms to live survives two ticks of 200 ms with 100 ms
      left and is removed by the third. */
  lemma ThreeTicksExample(ps: map<EntityId, Particle>, e: EntityId)
    requires e in ps && ps[e].timeToLive == 500
    ensures e in Decayed(ps, 200) && e in Decayed(Decayed(ps, 200), 200)
    ensures Decayed(Decayed(ps, 200), 200)[e].timeToLive == 100
    ensures e !in Decayed(Decayed(Decayed(ps, 200), 200), 200)
  {
  }

  /** The particle table while the update walks it: the entities in `todo`
      are untouched, the others have been decayed. */
  ghost function PartlyDecayed(ps: map<EntityId, Particle>, ms: int, todo: set<EntityId>): map<EntityId, Particle>
  {
    map e | e in ps && (e in todo || ps[e].timeToLive - ms > 0) ::
      if e in todo then ps[e] else ps[e].(timeToLive := ps[e].timeToLive - ms)
  }

  /** Handling entity e moves it from the untouched part to the decayed part. */
  lemma PartlyDecayedStep(ps: map<EntityId, Particle>, ms: int, todo: set<EntityId>, e: EntityId)
    requires e in todo && todo <= ps.Keys
    ensures var p := ps[e].(timeToLive := ps[e].timeToLive - ms);
            var next := PartlyDecayed(ps, ms, todo)[e := p];
            if p.timeToLive <= 0 then next - {e} == PartlyDecayed(ps, ms, todo - {e})
            else next == PartlyDecayed(ps, ms, todo - {e})
  {
  }

  /** One entity's turn in the update: its particle loses ms, and it is
      removed from every table when that brings it to zero or below. */
  method DecayOne(w: World, ms: int, e: EntityId,
                  ghost ps: map<EntityId, Particle>, ghost others: OtherTables, ghost todo: set<EntityId>)
    requires w.Valid()
    requires e in todo && todo <= ps.Keys
    requires w.particles == PartlyDecayed(ps, ms, todo)
    requires w.Others() == Without(others, Expired(ps, ms) - todo)
    modifies w`particles, w`bodies, w`nodes, w`absorbers,
             w`agentEmitters, w`agentTimers, w`compoundEmitters
    ensures w.Valid()
    ensures w.particles == PartlyDecayed(ps, ms, todo - {e})
    ensures w.Others() == Without(others, Expired(ps, ms) - (todo - {e}))
  {
    ghost var gone := Expired(ps, ms);
    ghost var t := w.Others();
    PartlyDecayedStep(ps, ms, todo, e);
    var p := w.particles[e];
    p := p.(timeToLive := p.timeToLive - ms);
    w.particles := w.particles[e := p];
    assert w.Others() == t;
    if p.timeToLive <= 0 {
      assert gone - (todo - {e}) == (gone - todo) + {e};
      WithoutOneMore(others, gone - todo, e);
      w.RemoveEntity(e);
      assert w.Others() == Without(t, {e});
    } else {
      assert gone - (todo - {e}) == gone - todo;
    }
  }

  /** AgentLifetimeSystem::update / CompoundLifetimeSystem::update. */
  method Update(w: World, ms: int)
    requires w.Valid()
    modifies w`particles, w`bodies, w`nodes, w`absorbers,
             w`agentEmitters, w`agentTimers, w`compoundEmitters
    ensures w.Valid()
    ensures w.particles == Decayed(old(w.particles), ms)
    ensures w.Others() == Without(old(w.Others()), Expired(old(w.particles), ms))
  {
    ghost var ps := w.particles;
    ghost var gone := Expired(ps, ms);
    ghost var others := w.Others();
    var todo := w.particles.Keys;
    assert w.particles == PartlyDecayed(ps, ms, todo);
    assert gone - todo == {};
    assert Without(others, {}) == others;
    while todo != {}
      invariant w.Valid()
      invariant todo <= ps.Keys
      invariant w.particles == PartlyDecayed(ps, ms, todo)
      invariant w.Others() == Without(others, gone - todo)
      decreases todo
    {
      var e :| e in todo;
      DecayOne(w, ms, e, ps, others, todo);
      todo := todo - {e};
    }
    assert w.particles == Decayed(ps, ms);
    assert gone - todo == gone;
  }
}
