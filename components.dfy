/** The data model shared by the agent and the compound particle families:
    ids, vectors, the particle record, the emitter records, and the default
    values the component declarations give them. */
module Components {

  /** Entity ids handed out by the entity manager. */
  type EntityId = nat

  /** Registry id of a particle type (an agent or a compound type). */
  type TypeId = nat

  /** The id that names no particle type. */
  const NULL_AGENT: TypeId := 0

  /** A 3D vector with exact (real) coordinates; float rounding is not modelled. */
  datatype Vec3 = Vec3(x: real, y: real, z: real)

  const ZERO: Vec3 := Vec3(0.0, 0.0, 0.0)

  function Add(a: Vec3, b: Vec3): Vec3
  {
    Vec3(a.x + b.x, a.y + b.y, a.z + b.z)
  }

  function Scale(v: Vec3, k: real): Vec3
  {
    Vec3(v.x * k, v.y * k, v.z * k)
  }

  /** One particle entity's payload: AgentComponent, or CompoundComponent,
      which has the same four fields. timeToLive is in milliseconds and may
      go negative before the lifetime pass removes the entity. */
  datatype Particle = Particle(typeId: TypeId, potency: real, timeToLive: int, velocity: Vec3)

  /** A default-constructed particle component. */
  const DEFAULT_PARTICLE: Particle := Particle(NULL_AGENT, 0.0, 0, ZERO)

  /** How an emitter launches particles: the kinematic ranges and the
      template every spawned particle copies. Angles are in degrees.
      The mesh name and the particle scale only matter to rendering. */
  datatype EmissionProfile = EmissionProfile(
    typeId: TypeId,
    emissionRadius: real,
    minInitialSpeed: real,
    maxInitialSpeed: real,
    minEmissionAngle: real,
    maxEmissionAngle: real,
    particlesPerEmission: nat,
    particleLifetime: int,
    potencyPerParticle: real)

  /** The timed-emission state: a burst fires every emitInterval
      milliseconds; an interval <= 0 disables timed emission. */
  datatype Timer = Timer(emitInterval: int, timeSinceLastEmission: int)

  /** CompoundEmitterComponent: the profile and the timer in one component. */
  datatype CompoundEmitter = CompoundEmitter(profile: EmissionProfile, timer: Timer)

  /** A default-constructed CompoundEmitterComponent. Ogre's Degree defaults to 0. */
  const DEFAULT_COMPOUND_EMITTER: CompoundEmitter :=
    CompoundEmitter(
      EmissionProfile(NULL_AGENT, 0.0, 0.0, 0.0, 0.0, 0.0, 0, 1000, 1.0),
      Timer(1000, 0))
}
