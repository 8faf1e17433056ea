/** The timed emitters (AgentEmitterSystem with emitAgent, and
    CompoundEmitterSystem): each tick adds the elapsed time to the emitter's
    accumulator, and while a whole interval has built up, takes it off and
    fires a burst of particlesPerEmission particles. */
module Emission {
  import opened Components
  import opened World

  /** The catch-up loop as a function of the accumulator on entry: the
      number of bursts it fires and the accumulator it leaves. With a
      positive interval and a non-negative accumulator, less than one
      interval is left; otherwise the loop fires nothing. */
  function CatchUp(acc: int, interval: int): (r: (nat, int))
    ensures interval > 0 && acc >= 0 ==> 0 <= r.1 < interval
    ensures !(interval > 0 && acc >= interval) ==> r == (0, acc)
    decreases if interval > 0 && acc >= interval then acc else 0
  {
    if interval > 0 && acc >= interval then
      var rest := CatchUp(acc - interval, interval);
      (rest.0 + 1, rest.1)
    else
      (0, acc)
  }

  /** The bursts account for all of the accumulated time: each takes one
      interval off the accumulator. */
  lemma {:induction false} CatchUpAccounts(acc: int, interval: int)
    requires interval > 0 && acc >= 0
    ensures acc == CatchUp(acc, interval).0 * interval + CatchUp(acc, interval).1
    decreases acc
  {
    if acc >= interval {
      var rest := CatchUp(acc - interval, interval);
      CatchUpAccounts(acc - interval, interval);
      MulDistributes(rest.0, interval);
    }
  }

  /** At least one whole interval d is at least d. */
  lemma {:induction false} MulAtLeast(x: int, d: int)
    requires x >= 1 && d >= 0
    ensures x * d >= d
  {
    if x > 1 {
      MulAtLeast(x - 1, d);
      assert x * d == (x - 1) * d + d;
    }
  }

  /** Quotient and remainder are unique. */
  lemma DivModUnique(a: int, d: int, q: int, r: int)
    requires d > 0 && 0 <= r < d && a == q * d + r
    ensures a / d == q && a % d == r
  {
    var q', r' := a / d, a % d;
    assert a == q' * d + r';
    assert (q - q') * d == r' - r by {
      assert (q - q') * d == q * d - q' * d;
    }
    if q > q' {
      MulAtLeast(q - q', d);
    } else if q < q' {
      MulAtLeast(q' - q, d);
    }
  }

  /** The bursts are the accumulated time divided by the interval, and what
      is left is the remainder. */
  lemma CatchUpIsDivMod(acc: int, interval: int)
    requires interval > 0 && acc >= 0
    ensures CatchUp(acc, interval) == (acc / interval, acc % interval)
  {
    var r := CatchUp(acc, interval);
    CatchUpAccounts(acc, interval);
    DivModUnique(acc, interval, r.0, r.1);
  }

  /** One turn of the catch-up loop: taking an interval off an accumulator
      that holds at least one leaves one burst fewer to fire and the same
      final remainder. */
  lemma CatchUpStep(acc: int, interval: int)
    requires interval > 0 && acc >= interval
    ensures CatchUp(acc, interval).0 >= 1
    ensures CatchUp(acc - interval, interval) == (CatchUp(acc, interval).0 - 1, CatchUp(acc, interval).1)
  {
  }

  /** No drift: a tick of a then a tick of b fire as many bursts in total,
      and leave the same accumulator, as a single tick of a + b. */
  lemma {:induction false} CatchUpSplit(acc: int, interval: int, b: int)
    requires interval > 0 && acc >= 0 && b >= 0
    ensures CatchUp(acc, interval).0 + CatchUp(CatchUp(acc, interval).1 + b, interval).0
            == CatchUp(acc + b, interval).0
    ensures CatchUp(CatchUp(acc, interval).1 + b, interval).1 == CatchUp(acc + b, interval).1
    decreases acc
  {
    if acc >= interval {
      CatchUpSplit(acc - interval, interval, b);
      assert CatchUp(acc + b, interval) == (CatchUp(acc - interval + b, interval).0 + 1, CatchUp(acc - interval + b, interval).1);
    }
  }

  /** An interval of 100 ms and 350 ms of accumulated time: three bursts,
      50 ms carried over. */
  lemma CatchUpExample()
    ensures CatchUp(350, 100) == (3, 50)
  {
  }

  /** The timer after a tick of ms milliseconds, and the bursts the tick fires. */
  function Advance(t: Timer, ms: int): Timer
  {
    t.(timeSinceLastEmission := CatchUp(t.timeSinceLastEmission + ms, t.emitInterval).1)
  }

  function Bursts(t: Timer, ms: int): nat
  {
    CatchUp(t.timeSinceLastEmission + ms, t.emitInterval).0
  }

  /** No drift for timers: a tick of a and then a tick of b (b not negative)
      leave the timer as one tick of a + b, and fire as many bursts. */
  lemma AdvanceSplit(t: Timer, a: int, b: int)
    requires b >= 0
    ensures Advance(Advance(t, a), b) == Advance(t, a + b)
    ensures Bursts(t, a) + Bursts(Advance(t, a), b) == Bursts(t, a + b)
  {
    if t.emitInterval > 0 && t.timeSinceLastEmission + a >= 0 {
      CatchUpSplit(t.timeSinceLastEmission + a, t.emitInterval, b);
    }
  }

  /** A timer whose interval is not positive never fires, and its
      accumulator still grows by the elapsed time. */
  lemma DisabledTimer(t: Timer, ms: int)
    requires t.emitInterval <= 0
    ensures Bursts(t, ms) == 0
    ensures Advance(t, ms).timeSinceLastEmission == t.timeSinceLastEmission + ms
  {
  }

  /** A default emitter: its first tick of ms in [0, 1000) milliseconds fires
      nothing and leaves ms on the accumulator, and whatever it fires, a burst
      of it holds no particle. */
  lemma DefaultEmitterTick(ms: int)
    requires 0 <= ms < 1000
    ensures Bursts(DEFAULT_COMPOUND_EMITTER.timer, ms) == 0
    ensures Advance(DEFAULT_COMPOUND_EMITTER.timer, ms).timeSinceLastEmission == ms
    ensures DEFAULT_COMPOUND_EMITTER.profile.particlesPerEmission == 0
  {
  }

  /** The direction and speed of one launch, and where the particle starts
      relative to the emitter. */
  datatype Launch = Launch(speed: real, velocity: Vec3, offset: Vec3)

  /** The launch whose two random draws (the angle, then the speed) are the
      generator's calls number u and u + 1. */
  function LaunchAt(env: Env, em: EmissionProfile, u: nat): Launch
  {
    var angle := env.getDouble(u, em.minEmissionAngle, em.maxEmissionAngle);
    var speed := env.getDouble(u + 1, em.minInitialSpeed, em.maxInitialSpeed);
    var s, c := env.sinDeg(angle), env.cosDeg(angle);
    Launch(speed, Vec3(speed * s, speed * c, 0.0), Vec3(em.emissionRadius * s, em.emissionRadius * c, 0.0))
  }

  /** A particle leaves in the plane of the emitter, radially: its velocity
      points the same way as its offset from the emitter. */
  lemma LaunchRadial(env: Env, em: EmissionProfile, u: nat)
    ensures var l := LaunchAt(env, em, u);
            && l.velocity.z == 0.0 && l.offset.z == 0.0
            && Scale(l.velocity, em.emissionRadius) == Scale(l.offset, l.speed)
  {
    var l := LaunchAt(env, em, u);
    var angle := env.getDouble(u, em.minEmissionAngle, em.maxEmissionAngle);
    var s, c := env.sinDeg(angle), env.cosDeg(angle);
    assert l.speed * s * em.emissionRadius == em.emissionRadius * s * l.speed;
    assert l.speed * c * em.emissionRadius == em.emissionRadius * c * l.speed;
  }

  /** With equal angle bounds of 0 degrees and equal speed bounds of 2, every
      particle flies straight along y at speed 2, as long as the generator
      keeps its draws within their bounds. */
  lemma DeterministicLaunch(env: Env, em: EmissionProfile, u: nat)
    requires em.minEmissionAngle == 0.0 && em.maxEmissionAngle == 0.0
    requires em.minInitialSpeed == 2.0 && em.maxInitialSpeed == 2.0
    requires forall k, low, high :: low <= high ==> low <= env.getDouble(k, low, high) <= high
    requires env.sinDeg(0.0) == 0.0 && env.cosDeg(0.0) == 1.0
    ensures LaunchAt(env, em, u).velocity == Vec3(0.0, 2.0, 0.0)
    ensures LaunchAt(env, em, u).offset == Vec3(0.0, em.emissionRadius, 0.0)
  {
  }

  /** A float-to-int conversion: truncation toward zero. */
  function TruncateToInt(r: real): (n: int)
    ensures r >= 0.0 ==> 0 <= n && n as real <= r < n as real + 1.0
    ensures r < 0.0 ==> n <= 0 && n as real - 1.0 < r <= n as real
  {
    if r >= 0.0 then r.Floor else -((-r).Floor)
  }

  /** The particle spawned by em with the given potency, whose launch uses
      the generator's calls number u and u + 1. */
  function Emitted(env: Env, em: EmissionProfile, potency: real, u: nat): Particle
  {
    Particle(em.typeId, potency, em.particleLifetime, LaunchAt(env, em, u).velocity)
  }

  /** The particle table after one emitter has spawned n particles, the
      first under entity id `first` with the launch drawn from call u on,
      each next one under the next id with the next two draws. */
  function Spawned(ps: map<EntityId, Particle>, env: Env, em: EmissionProfile, potency: real,
                   first: EntityId, u: nat, n: nat): map<EntityId, Particle>
    decreases n
  {
    if n == 0 then ps
    else Spawned(ps[first := Emitted(env, em, potency, u)], env, em, potency, first + 1, u + 2, n - 1)
  }

  /** The body table after the same spawns: each body starts at the
      emitter's position plus its launch's radial offset. */
  function SpawnedBodies(bodies: map<EntityId, Vec3>, env: Env, em: EmissionProfile, origin: Vec3,
                         first: EntityId, u: nat, n: nat): map<EntityId, Vec3>
    decreases n
  {
    if n == 0 then bodies
    else SpawnedBodies(bodies[first := Add(origin, LaunchAt(env, em, u).offset)], env, em, origin, first + 1, u + 2, n - 1)
  }

  /** Spawning gives an entity e a particle exactly when it had one or its id
      is one of first .. first + n - 1. */
  lemma {:induction false} SpawnedKeys(ps: map<EntityId, Particle>, env: Env, em: EmissionProfile, potency: real,
                                       first: EntityId, u: nat, n: nat, e: EntityId)
    ensures e in Spawned(ps, env, em, potency, first, u, n) <==> e in ps || first <= e < first + n
    decreases n
  {
    if n > 0 {
      SpawnedKeys(ps[first := Emitted(env, em, potency, u)], env, em, potency, first + 1, u + 2, n - 1, e);
    }
  }

  /** The same for the bodies. */
  lemma {:induction false} SpawnedBodiesKeys(bodies: map<EntityId, Vec3>, env: Env, em: EmissionProfile, origin: Vec3,
                                             first: EntityId, u: nat, n: nat, e: EntityId)
    ensures e in SpawnedBodies(bodies, env, em, origin, first, u, n) <==> e in bodies || first <= e < first + n
    decreases n
  {
    if n > 0 {
      SpawnedBodiesKeys(bodies[first := Add(origin, LaunchAt(env, em, u).offset)], env, em, origin, first + 1, u + 2, n - 1, e);
    }
  }

  /** An entity whose id is outside the spawned range keeps its particle. */
  lemma {:induction false} SpawnedKeeps(ps: map<EntityId, Particle>, env: Env, em: EmissionProfile, potency: real,
                                        first: EntityId, u: nat, n: nat, e: EntityId)
    requires e in ps && !(first <= e < first + n)
    ensures e in Spawned(ps, env, em, potency, first, u, n)
    ensures Spawned(ps, env, em, potency, first, u, n)[e] == ps[e]
    decreases n
  {
    if n > 0 {
      SpawnedKeeps(ps[first := Emitted(env, em, potency, u)], env, em, potency, first + 1, u + 2, n - 1, e);
    }
  }

  /** The same for the bodies. */
  lemma {:induction false} SpawnedBodiesKeeps(bodies: map<EntityId, Vec3>, env: Env, em: EmissionProfile, origin: Vec3,
                                              first: EntityId, u: nat, n: nat, e: EntityId)
    requires e in bodies && !(first <= e < first + n)
    ensures e in SpawnedBodies(bodies, env, em, origin, first, u, n)
    ensures SpawnedBodies(bodies, env, em, origin, first, u, n)[e] == bodies[e]
    decreases n
  {
    if n > 0 {
      SpawnedBodiesKeeps(bodies[first := Add(origin, LaunchAt(env, em, u).offset)], env, em, origin, first + 1, u + 2, n - 1, e);
    }
  }

  /** A particle carries em's template with the given potency: em's type
      and em's lifetime. */
  predicate Carries(q: Particle, em: EmissionProfile, potency: real)
  {
    q.typeId == em.typeId && q.potency == potency && q.timeToLive == em.particleLifetime
  }

  /** The k-th spawned particle (k counted from 0) has the emitter's type,
      the given potency, the emitter's lifetime and the velocity of the
      launch drawn from call u + 2k on. */
  lemma {:induction false} SpawnedNew(ps: map<EntityId, Particle>, env: Env, em: EmissionProfile, potency: real,
                                      first: EntityId, u: nat, n: nat, e: EntityId)
    requires first <= e < first + n
    ensures e in Spawned(ps, env, em, potency, first, u, n)
    ensures var p := Spawned(ps, env, em, potency, first, u, n)[e];
            && p.typeId == em.typeId && p.potency == potency && p.timeToLive == em.particleLifetime
            && p.velocity == LaunchAt(env, em, u + 2 * (e - first)).velocity
    decreases n
  {
    var ps' := ps[first := Emitted(env, em, potency, u)];
    if e == first {
      SpawnedKeeps(ps', env, em, potency, first + 1, u + 2, n - 1, e);
    } else {
      SpawnedNew(ps', env, em, potency, first + 1, u + 2, n - 1, e);
      assert u + 2 + 2 * (e - (first + 1)) == u + 2 * (e - first);
    }
  }

  /** Spawning under fresh ids: every particle and body already there keeps its
      entry, the new ones take the ids first .. first + n - 1 in both tables
      and carry em's template, and every id in the tables stays below the
      next free one. */
  lemma SpawnedFresh(ps: map<EntityId, Particle>, bodies: map<EntityId, Vec3>, env: Env, em: EmissionProfile,
                     potency: real, origin: Vec3, first: EntityId, u: nat, n: nat)
    requires IdsBelow(ps, first) && IdsBelow(bodies, first)
    ensures forall e :: e in ps ==> e in Spawned(ps, env, em, potency, first, u, n)
                                    && Spawned(ps, env, em, potency, first, u, n)[e] == ps[e]
    ensures forall e :: e in Spawned(ps, env, em, potency, first, u, n) && e !in ps ==> first <= e < first + n
    ensures forall e :: first <= e < first + n ==> e in Spawned(ps, env, em, potency, first, u, n)
    ensures IdsBelow(Spawned(ps, env, em, potency, first, u, n), first + n)
    ensures IdsBelow(SpawnedBodies(bodies, env, em, origin, first, u, n), first + n)
    ensures forall e :: e in Spawned(ps, env, em, potency, first, u, n) && e !in ps ==>
                          Carries(Spawned(ps, env, em, potency, first, u, n)[e], em, potency)
    ensures forall e :: e in bodies ==> e in SpawnedBodies(bodies, env, em, origin, first, u, n)
                                        && SpawnedBodies(bodies, env, em, origin, first, u, n)[e] == bodies[e]
    ensures SpawnedBodies(bodies, env, em, origin, first, u, n).Keys - bodies.Keys
            == Spawned(ps, env, em, potency, first, u, n).Keys - ps.Keys
  {
    forall e | e in ps
      ensures e in Spawned(ps, env, em, potency, first, u, n) && Spawned(ps, env, em, potency, first, u, n)[e] == ps[e]
    {
      SpawnedKeeps(ps, env, em, potency, first, u, n, e);
    }
    forall e | e in Spawned(ps, env, em, potency, first, u, n) || first <= e < first + n
      ensures e in Spawned(ps, env, em, potency, first, u, n) <==> e in ps || first <= e < first + n
    {
      SpawnedKeys(ps, env, em, potency, first, u, n, e);
    }
    forall e | e in SpawnedBodies(bodies, env, em, origin, first, u, n)
      ensures e < first + n
    {
      SpawnedBodiesKeys(bodies, env, em, origin, first, u, n, e);
    }
    forall e | e in Spawned(ps, env, em, potency, first, u, n) && e !in ps
      ensures Carries(Spawned(ps, env, em, potency, first, u, n)[e], em, potency)
    {
      SpawnedKeys(ps, env, em, potency, first, u, n, e);
      SpawnedNew(ps, env, em, potency, first, u, n, e);
    }
    forall e | e in bodies
      ensures e in SpawnedBodies(bodies, env, em, origin, first, u, n)
              && SpawnedBodies(bodies, env, em, origin, first, u, n)[e] == bodies[e]
    {
      SpawnedBodiesKeeps(bodies, env, em, origin, first, u, n, e);
    }
    forall e
      ensures e in SpawnedBodies(bodies, env, em, origin, first, u, n).Keys - bodies.Keys
              <==> e in Spawned(ps, env, em, potency, first, u, n).Keys - ps.Keys
    {
      SpawnedKeys(ps, env, em, potency, first, u, n, e);
      SpawnedBodiesKeys(bodies, env, em, origin, first, u, n, e);
    }
  }

  /** A series of n spawns followed by a series of m spawns, which takes the next
      ids and the next draws, is one series of n + m spawns. */
  lemma {:induction false} SpawnedAppend(ps: map<EntityId, Particle>, env: Env, em: EmissionProfile, potency: real,
                                         first: EntityId, u: nat, n: nat, next: EntityId, v: nat, m: nat)
    requires next == first + n && v == u + 2 * n
    ensures Spawned(Spawned(ps, env, em, potency, first, u, n), env, em, potency, next, v, m)
            == Spawned(ps, env, em, potency, first, u, n + m)
    decreases n
  {
    if n > 0 {
      SpawnedAppend(ps[first := Emitted(env, em, potency, u)], env, em, potency, first + 1, u + 2, n - 1, next, v, m);
    }
  }

  /** The same for the bodies. */
  lemma {:induction false} SpawnedBodiesAppend(bodies: map<EntityId, Vec3>, env: Env, em: EmissionProfile, origin: Vec3,
                                               first: EntityId, u: nat, n: nat, next: EntityId, v: nat, m: nat)
    requires next == first + n && v == u + 2 * n
    ensures SpawnedBodies(SpawnedBodies(bodies, env, em, origin, first, u, n), env, em, origin, next, v, m)
            == SpawnedBodies(bodies, env, em, origin, first, u, n + m)
    decreases n
  {
    if n > 0 {
      SpawnedBodiesAppend(bodies[first := Add(origin, LaunchAt(env, em, u).offset)], env, em, origin, first + 1, u + 2, n - 1, next, v, m);
    }
  }

  /** Running the rest spawns from next and v on turns ps into target. */
  predicate Pending(ps: map<EntityId, Particle>, env: Env, em: EmissionProfile, potency: real,
                   next: EntityId, v: nat, rest: nat, target: map<EntityId, Particle>)
  {
    Spawned(ps, env, em, potency, next, v, rest) == target
  }

  /** The same for the bodies. */
  predicate PendingBodies(bodies: map<EntityId, Vec3>, env: Env, em: EmissionProfile, origin: Vec3,
                          next: EntityId, v: nat, rest: nat, target: map<EntityId, Vec3>)
  {
    SpawnedBodies(bodies, env, em, origin, next, v, rest) == target
  }

  /** Bookkeeping for a catch-up loop: after a burst of k spawns, the spawns
      still to come are the rest of those that were still to come. */
  lemma SpawnedAfterBurst(ps: map<EntityId, Particle>, env: Env, em: EmissionProfile, potency: real,
                          next: EntityId, v: nat, k: nat, rest: nat, rest': nat,
                          target: map<EntityId, Particle>, ps': map<EntityId, Particle>)
    requires Pending(ps, env, em, potency, next, v, rest, target)
    requires rest == k + rest'
    requires ps' == Spawned(ps, env, em, potency, next, v, k)
    ensures Pending(ps', env, em, potency, next + k, v + 2 * k, rest', target)
  {
    SpawnedAppend(ps, env, em, potency, next, v, k, next + k, v + 2 * k, rest');
  }

  /** The same for the bodies. */
  lemma SpawnedBodiesAfterBurst(bodies: map<EntityId, Vec3>, env: Env, em: EmissionProfile, origin: Vec3,
                                next: EntityId, v: nat, k: nat, rest: nat, rest': nat,
                                target: map<EntityId, Vec3>, bodies': map<EntityId, Vec3>)
    requires PendingBodies(bodies, env, em, origin, next, v, rest, target)
    requires rest == k + rest'
    requires bodies' == SpawnedBodies(bodies, env, em, origin, next, v, k)
    ensures PendingBodies(bodies', env, em, origin, next + k, v + 2 * k, rest', target)
  {
    SpawnedBodiesAppend(bodies, env, em, origin, next, v, k, next + k, v + 2 * k, rest');
  }

  /** The particles b bursts of k particles spawn, counted burst by burst. */
  function Times(b: nat, k: nat): nat
  {
    if b == 0 then 0 else k + Times(b - 1, k)
  }

  /** Counted burst by burst, b bursts of k particles are b * k particles. */
  lemma {:induction false} TimesIsMul(b: nat, k: nat)
    ensures Times(b, k) == b * k
  {
    if b > 0 {
      TimesIsMul(b - 1, k);
      assert b * k == (b - 1) * k + k by {
        MulDistributes(b - 1, k);
      }
    }
  }

  /** (x + 1) * k == x * k + k. */
  lemma MulDistributes(x: int, k: int)
    ensures (x + 1) * k == x * k + k
  {
  }

  /** AgentEmitterComponent::emitAgent(agentId, amount, useAbsolutePosition,
      emissionPosition): draws an angle and a speed, and spawns one particle
      of type agentId with potency amount, at the given position, or at the
      radial offset from it when the position is not absolute. */
  method EmitAgent(w: World, em: EmissionProfile, agentId: TypeId, amount: int,
                   useAbsolutePosition: bool, emissionPosition: Vec3)
    modifies w`particles, w`bodies, w`nextId, w`drawn
    ensures w.nextId == old(w.nextId) + 1 && w.drawn == old(w.drawn) + 2
    ensures var l := LaunchAt(w.env, em, old(w.drawn));
            && w.particles == old(w.particles)[old(w.nextId) := Particle(agentId, amount as real, em.particleLifetime, l.velocity)]
            && w.bodies == old(w.bodies)[old(w.nextId) :=
                 if useAbsolutePosition then emissionPosition else Add(emissionPosition, l.offset)]
  {
    var emissionOffset := ZERO;
    var emissionAngle := w.Draw(em.minEmissionAngle, em.maxEmissionAngle);
    var emissionSpeed := w.Draw(em.minInitialSpeed, em.maxInitialSpeed);
    var s, c := w.env.sinDeg(emissionAngle), w.env.cosDeg(emissionAngle);
    var emissionVelocity := Vec3(emissionSpeed * s, emissionSpeed * c, 0.0);
    ghost var l := LaunchAt(w.env, em, old(w.drawn));
    assert emissionAngle == w.env.getDouble(old(w.drawn), em.minEmissionAngle, em.maxEmissionAngle);
    assert emissionSpeed == w.env.getDouble(old(w.drawn) + 1, em.minInitialSpeed, em.maxInitialSpeed);
    assert l.velocity == emissionVelocity;
    if !useAbsolutePosition {
      emissionOffset := Vec3(em.emissionRadius * s, em.emissionRadius * c, 0.0);
      assert l.offset == emissionOffset;
    } else {
      assert Add(emissionPosition, emissionOffset) == emissionPosition;
    }
    var _ := w.Spawn(Particle(agentId, amount as real, em.particleLifetime, emissionVelocity),
                     Add(emissionPosition, emissionOffset));
  }

  /** AgentEmitterComponent::emitAgent(emittorPosition): the emitter's own
      type and potency, the potency truncated to an int, at the radial offset. */
  method EmitAgentDefault(w: World, em: EmissionProfile, emittorPosition: Vec3)
    modifies w`particles, w`bodies, w`nextId, w`drawn
    ensures w.nextId == old(w.nextId) + 1 && w.drawn == old(w.drawn) + 2
    ensures w.particles == old(w.particles)[old(w.nextId) := Emitted(w.env, em, TruncateToInt(em.potencyPerParticle) as real, old(w.drawn))]
    ensures w.bodies == old(w.bodies)[old(w.nextId) := Add(emittorPosition, LaunchAt(w.env, em, old(w.drawn)).offset)]
  {
    EmitAgent(w, em, em.typeId, TruncateToInt(em.potencyPerParticle), false, emittorPosition);
  }

  /** One burst of AgentEmitterSystem::update: particlesPerEmission calls
      of emitAgent at the emitter's position. */
  method AgentBurst(w: World, em: EmissionProfile, origin: Vec3)
    modifies w`particles, w`bodies, w`nextId, w`drawn
    ensures var n := em.particlesPerEmission;
            && w.nextId == old(w.nextId) + n && w.drawn == old(w.drawn) + 2 * n
            && w.particles == Spawned(old(w.particles), w.env, em, TruncateToInt(em.potencyPerParticle) as real, old(w.nextId), old(w.drawn), n)
            && w.bodies == SpawnedBodies(old(w.bodies), w.env, em, origin, old(w.nextId), old(w.drawn), n)
  {
    ghost var potency := TruncateToInt(em.potencyPerParticle) as real;
    var n := em.particlesPerEmission;
    ghost var id0, u0 := w.nextId, w.drawn;
    ghost var targetParticles := Spawned(w.particles, w.env, em, potency, id0, u0, n);
    ghost var targetBodies := SpawnedBodies(w.bodies, w.env, em, origin, id0, u0, n);
    for i := 0 to n
      invariant w.nextId == id0 + i && w.drawn == u0 + 2 * i
      invariant Pending(w.particles, w.env, em, potency, w.nextId, w.drawn, n - i, targetParticles)
      invariant PendingBodies(w.bodies, w.env, em, origin, w.nextId, w.drawn, n - i, targetBodies)
    {
      EmitAgentDefault(w, em, origin);
    }
  }

  /** The body of the inner loop of CompoundEmitterSystem::update: draw an
      angle and a speed and spawn one compound particle with the emitter's
      type, potency and lifetime, at the radial offset from the emitter. */
  method EmitCompound(w: World, em: EmissionProfile, origin: Vec3)
    modifies w`particles, w`bodies, w`nextId, w`drawn
    ensures w.nextId == old(w.nextId) + 1 && w.drawn == old(w.drawn) + 2
    ensures w.particles == old(w.particles)[old(w.nextId) := Emitted(w.env, em, em.potencyPerParticle, old(w.drawn))]
    ensures w.bodies == old(w.bodies)[old(w.nextId) := Add(origin, LaunchAt(w.env, em, old(w.drawn)).offset)]
  {
    var emissionAngle := w.Draw(em.minEmissionAngle, em.maxEmissionAngle);
    var emissionSpeed := w.Draw(em.minInitialSpeed, em.maxInitialSpeed);
    var s, c := w.env.sinDeg(emissionAngle), w.env.cosDeg(emissionAngle);
    var emissionVelocity := Vec3(emissionSpeed * s, emissionSpeed * c, 0.0);
    var emissionPosition := Vec3(em.emissionRadius * s, em.emissionRadius * c, 0.0);
    ghost var l := LaunchAt(w.env, em, old(w.drawn));
    assert emissionAngle == w.env.getDouble(old(w.drawn), em.minEmissionAngle, em.maxEmissionAngle);
    assert emissionSpeed == w.env.getDouble(old(w.drawn) + 1, em.minInitialSpeed, em.maxInitialSpeed);
    assert l.velocity == emissionVelocity;
    assert l.offset == emissionPosition;
    var _ := w.Spawn(Particle(em.typeId, em.potencyPerParticle, em.particleLifetime, emissionVelocity),
                     Add(origin, emissionPosition));
  }

  /** One burst of CompoundEmitterSystem::update. */
  method CompoundBurst(w: World, em: EmissionProfile, origin: Vec3)
    modifies w`particles, w`bodies, w`nextId, w`drawn
    ensures var n := em.particlesPerEmission;
            && w.nextId == old(w.nextId) + n && w.drawn == old(w.drawn) + 2 * n
            && w.particles == Spawned(old(w.particles), w.env, em, em.potencyPerParticle, old(w.nextId), old(w.drawn), n)
            && w.bodies == SpawnedBodies(old(w.bodies), w.env, em, origin, old(w.nextId), old(w.drawn), n)
  {
    var n := em.particlesPerEmission;
    ghost var id0, u0 := w.nextId, w.drawn;
    ghost var targetParticles := Spawned(w.particles, w.env, em, em.potencyPerParticle, id0, u0, n);
    ghost var targetBodies := SpawnedBodies(w.bodies, w.env, em, origin, id0, u0, n);
    for i := 0 to n
      invariant w.nextId == id0 + i && w.drawn == u0 + 2 * i
      invariant Pending(w.particles, w.env, em, em.potencyPerParticle, w.nextId, w.drawn, n - i, targetParticles)
      invariant PendingBodies(w.bodies, w.env, em, origin, w.nextId, w.drawn, n - i, targetBodies)
    {
      EmitCompound(w, em, origin);
    }
  }

  /** A burst that uses up particlesPerEmission of the spawns still to come. */
  method AgentBurstOf(w: World, em: EmissionProfile, origin: Vec3, ghost potency: real, ghost rest: nat,
                  ghost targetParticles: map<EntityId, Particle>, ghost targetBodies: map<EntityId, Vec3>)
    returns (ghost rest': nat)
    requires potency == TruncateToInt(em.potencyPerParticle) as real && rest >= em.particlesPerEmission
    requires Pending(w.particles, w.env, em, potency, w.nextId, w.drawn, rest, targetParticles)
    requires PendingBodies(w.bodies, w.env, em, origin, w.nextId, w.drawn, rest, targetBodies)
    modifies w`particles, w`bodies, w`nextId, w`drawn
    ensures w.nextId == old(w.nextId) + em.particlesPerEmission && w.drawn == old(w.drawn) + 2 * em.particlesPerEmission
    ensures rest' == rest - em.particlesPerEmission
    ensures Pending(w.particles, w.env, em, potency, w.nextId, w.drawn, rest', targetParticles)
    ensures PendingBodies(w.bodies, w.env, em, origin, w.nextId, w.drawn, rest', targetBodies)
  {
    ghost var k := em.particlesPerEmission;
    rest' := rest - k;
    ghost var ps, bs, next, v := w.particles, w.bodies, w.nextId, w.drawn;
    AgentBurst(w, em, origin);
    SpawnedAfterBurst(ps, w.env, em, potency, next, v, k, rest, rest - k, targetParticles, w.particles);
    SpawnedBodiesAfterBurst(bs, w.env, em, origin, next, v, k, rest, rest - k, targetBodies, w.bodies);
  }

  /** The catch-up loop of AgentEmitterSystem::update on a timer whose
      accumulator already holds the elapsed time: every whole interval is
      taken off and pays for one burst. */
  method AgentCatchUp(w: World, em: EmissionProfile, origin: Vec3, t: Timer) returns (t': Timer)
    modifies w`particles, w`bodies, w`nextId, w`drawn
    ensures var n := Times(CatchUp(t.timeSinceLastEmission, t.emitInterval).0, em.particlesPerEmission);
            && t' == t.(timeSinceLastEmission := CatchUp(t.timeSinceLastEmission, t.emitInterval).1)
            && w.nextId == old(w.nextId) + n && w.drawn == old(w.drawn) + 2 * n
            && w.particles == Spawned(old(w.particles), w.env, em, TruncateToInt(em.potencyPerParticle) as real, old(w.nextId), old(w.drawn), n)
            && w.bodies == SpawnedBodies(old(w.bodies), w.env, em, origin, old(w.nextId), old(w.drawn), n)
  {
    ghost var potency := TruncateToInt(em.potencyPerParticle) as real;
    ghost var k := em.particlesPerEmission;
    ghost var total, final := CatchUp(t.timeSinceLastEmission, t.emitInterval).0, CatchUp(t.timeSinceLastEmission, t.emitInterval).1;
    ghost var targetParticles := Spawned(w.particles, w.env, em, potency, w.nextId, w.drawn, Times(total, k));
    ghost var targetBodies := SpawnedBodies(w.bodies, w.env, em, origin, w.nextId, w.drawn, Times(total, k));
    ghost var id0, u0 := w.nextId, w.drawn;
    ghost var left, done, rest := total, 0, Times(total, k);
    t' := t;
    while t'.emitInterval > 0 && t'.timeSinceLastEmission >= t'.emitInterval
      invariant t' == t.(timeSinceLastEmission := t'.timeSinceLastEmission)
      invariant CatchUp(t'.timeSinceLastEmission, t'.emitInterval) == (left, final)
      invariant rest == Times(left, k) && done + rest == Times(total, k)
      invariant w.nextId == id0 + done && w.drawn == u0 + 2 * done
      invariant Pending(w.particles, w.env, em, potency, w.nextId, w.drawn, rest, targetParticles)
      invariant PendingBodies(w.bodies, w.env, em, origin, w.nextId, w.drawn, rest, targetBodies)
      decreases t'.timeSinceLastEmission
    {
      CatchUpStep(t'.timeSinceLastEmission, t'.emitInterval);
      t' := t'.(timeSinceLastEmission := t'.timeSinceLastEmission - t'.emitInterval);
      rest := AgentBurstOf(w, em, origin, potency, rest, targetParticles, targetBodies);
      left, done := left - 1, done + k;
    }
  }

  /** One emitter's share of AgentEmitterSystem::update: advance the timer,
      then fire every burst the accumulated time pays for. */
  method AgentEmitterTick(w: World, e: EntityId, ms: int)
    requires e in w.agentEmitters && e in w.agentTimers && e in w.nodes
    modifies w`agentTimers, w`particles, w`bodies, w`nextId, w`drawn
    ensures var em, t := w.agentEmitters[e], old(w.agentTimers[e]);
            var n := Bursts(t, ms) * em.particlesPerEmission;
            && w.agentTimers == old(w.agentTimers)[e := Advance(t, ms)]
            && w.nextId == old(w.nextId) + n && w.drawn == old(w.drawn) + 2 * n
            && w.particles == Spawned(old(w.particles), w.env, em, TruncateToInt(em.potencyPerParticle) as real, old(w.nextId), old(w.drawn), n)
            && w.bodies == SpawnedBodies(old(w.bodies), w.env, em, w.nodes[e], old(w.nextId), old(w.drawn), n)
  {
    var em := w.agentEmitters[e];
    var timer := w.agentTimers[e];
    ghost var t0 := timer;
    timer := timer.(timeSinceLastEmission := timer.timeSinceLastEmission + ms);
    timer := AgentCatchUp(w, em, w.nodes[e], timer);
    w.agentTimers := w.agentTimers[e := timer];
    TimesIsMul(Bursts(t0, ms), em.particlesPerEmission);
  }

  /** A compound burst that uses up particlesPerEmission of the spawns still to come. */
  method CompoundBurstOf(w: World, em: EmissionProfile, origin: Vec3, ghost potency: real, ghost rest: nat,
                  ghost targetParticles: map<EntityId, Particle>, ghost targetBodies: map<EntityId, Vec3>)
    returns (ghost rest': nat)
    requires potency == em.potencyPerParticle && rest >= em.particlesPerEmission
    requires Pending(w.particles, w.env, em, potency, w.nextId, w.drawn, rest, targetParticles)
    requires PendingBodies(w.bodies, w.env, em, origin, w.nextId, w.drawn, rest, targetBodies)
    modifies w`particles, w`bodies, w`nextId, w`drawn
    ensures w.nextId == old(w.nextId) + em.particlesPerEmission && w.drawn == old(w.drawn) + 2 * em.particlesPerEmission
    ensures rest' == rest - em.particlesPerEmission
    ensures Pending(w.particles, w.env, em, potency, w.nextId, w.drawn, rest', targetParticles)
    ensures PendingBodies(w.bodies, w.env, em, origin, w.nextId, w.drawn, rest', targetBodies)
  {
    ghost var k := em.particlesPerEmission;
    rest' := rest - k;
    ghost var ps, bs, next, v := w.particles, w.bodies, w.nextId, w.drawn;
    CompoundBurst(w, em, origin);
    SpawnedAfterBurst(ps, w.env, em, potency, next, v, k, rest, rest - k, targetParticles, w.particles);
    SpawnedBodiesAfterBurst(bs, w.env, em, origin, next, v, k, rest, rest - k, targetBodies, w.bodies);
  }

  /** The catch-up loop of CompoundEmitterSystem::update, the same as the
      agent emitter's with the compound burst. */
  method CompoundCatchUp(w: World, em: EmissionProfile, origin: Vec3, t: Timer) returns (t': Timer)
    modifies w`particles, w`bodies, w`nextId, w`drawn
    ensures var n := Times(CatchUp(t.timeSinceLastEmission, t.emitInterval).0, em.particlesPerEmission);
            && t' == t.(timeSinceLastEmission := CatchUp(t.timeSinceLastEmission, t.emitInterval).1)
            && w.nextId == old(w.nextId) + n && w.drawn == old(w.drawn) + 2 * n
            && w.particles == Spawned(old(w.particles), w.env, em, em.potencyPerParticle, old(w.nextId), old(w.drawn), n)
            && w.bodies == SpawnedBodies(old(w.bodies), w.env, em, origin, old(w.nextId), old(w.drawn), n)
  {
    ghost var potency := em.potencyPerParticle;
    ghost var k := em.particlesPerEmission;
    ghost var total, final := CatchUp(t.timeSinceLastEmission, t.emitInterval).0, CatchUp(t.timeSinceLastEmission, t.emitInterval).1;
    ghost var targetParticles := Spawned(w.particles, w.env, em, potency, w.nextId, w.drawn, Times(total, k));
    ghost var targetBodies := SpawnedBodies(w.bodies, w.env, em, origin, w.nextId, w.drawn, Times(total, k));
    ghost var id0, u0 := w.nextId, w.drawn;
    ghost var left, done, rest := total, 0, Times(total, k);
    t' := t;
    while t'.emitInterval > 0 && t'.timeSinceLastEmission >= t'.emitInterval
      invariant t' == t.(timeSinceLastEmission := t'.timeSinceLastEmission)
      invariant CatchUp(t'.timeSinceLastEmission, t'.emitInterval) == (left, final)
      invariant rest == Times(left, k) && done + rest == Times(total, k)
      invariant w.nextId == id0 + done && w.drawn == u0 + 2 * done
      invariant Pending(w.particles, w.env, em, potency, w.nextId, w.drawn, rest, targetParticles)
      invariant PendingBodies(w.bodies, w.env, em, origin, w.nextId, w.drawn, rest, targetBodies)
      decreases t'.timeSinceLastEmission
    {
      CatchUpStep(t'.timeSinceLastEmission, t'.emitInterval);
      t' := t'.(timeSinceLastEmission := t'.timeSinceLastEmission - t'.emitInterval);
      rest := CompoundBurstOf(w, em, origin, potency, rest, targetParticles, targetBodies);
      left, done := left - 1, done + k;
    }
  }

  /** One emitter's share of CompoundEmitterSystem::update: the same catch-up
      loop on the timer inside the component, spawning each particle with the
      untruncated potency, at the emitter's position plus the radial offset. */
  method CompoundEmitterTick(w: World, e: EntityId, ms: int)
    requires e in w.compoundEmitters && e in w.nodes
    modifies w`compoundEmitters, w`particles, w`bodies, w`nextId, w`drawn
    ensures var ce := old(w.compoundEmitters[e]);
            var n := Bursts(ce.timer, ms) * ce.profile.particlesPerEmission;
            && w.compoundEmitters == old(w.compoundEmitters)[e := ce.(timer := Advance(ce.timer, ms))]
            && w.nextId == old(w.nextId) + n && w.drawn == old(w.drawn) + 2 * n
            && w.particles == Spawned(old(w.particles), w.env, ce.profile, ce.profile.potencyPerParticle, old(w.nextId), old(w.drawn), n)
            && w.bodies == SpawnedBodies(old(w.bodies), w.env, ce.profile, w.nodes[e], old(w.nextId), old(w.drawn), n)
  {
    var emitter := w.compoundEmitters[e];
    var timer := emitter.timer;
    timer := timer.(timeSinceLastEmission := timer.timeSinceLastEmission + ms);
    timer := CompoundCatchUp(w, emitter.profile, w.nodes[e], timer);
    w.compoundEmitters := w.compoundEmitters[e := emitter.(timer := timer)];
    TimesIsMul(Bursts(emitter.timer, ms), emitter.profile.particlesPerEmission);
  }
}
