/** The movement system (AgentMovementSystem, CompoundMovementSystem): every
    tick moves the body of each particle by its velocity times the elapsed
    time in seconds. Velocities are per second, ticks are in milliseconds. */
module Movement {
  import opened Components
  import opened World

  /** How far velocity v carries a body in ms milliseconds. */
  function Delta(v: Vec3, ms: int): Vec3
  {
    Scale(v, ms as real / 1000.0)
  }

  /** The body table after a tick: entities with both a particle and a body
      are moved by their particle's velocity; every other body stays put. */
  function Moved(bodies: map<EntityId, Vec3>, ps: map<EntityId, Particle>, ms: int): map<EntityId, Vec3>
  {
    map e | e in bodies :: if e in ps then Add(bodies[e], Delta(ps[e].velocity, ms)) else bodies[e]
  }

  /** Two ticks of a and b milliseconds move every body as far as one tick of
      a + b: splitting time into ticks does not change where a particle goes. */
  lemma MovedSplit(bodies: map<EntityId, Vec3>, ps: map<EntityId, Particle>, a: int, b: int)
    ensures Moved(Moved(bodies, ps, a), ps, b) == Moved(bodies, ps, a + b)
  {
    var two, one := Moved(Moved(bodies, ps, a), ps, b), Moved(bodies, ps, a + b);
    forall e | e in one
      ensures two[e] == one[e]
    {
      if e in ps {
        var v := ps[e].velocity;
        assert (a + b) as real / 1000.0 == a as real / 1000.0 + b as real / 1000.0;
        assert Add(Delta(v, a), Delta(v, b)) == Delta(v, a + b);
      }
    }
  }

  /** A tick of -ms undoes a tick of ms. */
  lemma MovedInverse(bodies: map<EntityId, Vec3>, ps: map<EntityId, Particle>, ms: int)
    ensures Moved(Moved(bodies, ps, ms), ps, -ms) == bodies
  {
    MovedSplit(bodies, ps, ms, -ms);
    assert Moved(bodies, ps, 0) == bodies;
  }

  /** A particle moving at (10, 0, 0) per second travels (5, 0, 0) in 500 ms,
      and a body without a particle does not move. */
  lemma HalfSecondExample(bodies: map<EntityId, Vec3>, ps: map<EntityId, Particle>, e: EntityId, f: EntityId)
    requires e in bodies && e in ps && ps[e].velocity == Vec3(10.0, 0.0, 0.0)
    requires f in bodies && f !in ps
    ensures Moved(bodies, ps, 500)[e] == Add(bodies[e], Vec3(5.0, 0.0, 0.0))
    ensures Moved(bodies, ps, 500)[f] == bodies[f]
  {
  }

  /** The body table while the update walks it: the entities in `todo` have
      not been moved yet. */
  ghost function PartlyMoved(bodies: map<EntityId, Vec3>, ps: map<EntityId, Particle>, ms: int, todo: set<EntityId>): map<EntityId, Vec3>
  {
    map e | e in bodies :: if e in ps && e !in todo then Add(bodies[e], Delta(ps[e].velocity, ms)) else bodies[e]
  }

  /** AgentMovementSystem::update / CompoundMovementSystem::update: only the
      bodies change; the particle components are read, not written. */
  method Update(w: World, ms: int)
    requires w.Valid()
    modifies w`bodies
    ensures w.Valid()
    ensures w.bodies == Moved(old(w.bodies), w.particles, ms)
  {
    ghost var b0 := w.bodies;
    var todo := w.particles.Keys * w.bodies.Keys;
    assert w.bodies == PartlyMoved(b0, w.particles, ms, todo);
    while todo != {}
      invariant w.Valid()
      invariant todo <= w.particles.Keys * b0.Keys
      invariant w.bodies == PartlyMoved(b0, w.particles, ms, todo)
      decreases todo
    {
      var e :| e in todo;
      var delta := Delta(w.particles[e].velocity, ms);
      w.bodies := w.bodies[e := Add(w.bodies[e], delta)];
      todo := todo - {e};
      assert w.bodies == PartlyMoved(b0, w.particles, ms, todo);
    }
    assert w.bodies == Moved(b0, w.particles, ms);
  }
}
