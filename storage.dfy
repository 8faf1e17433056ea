/** Saving and loading the particle component (AgentComponent,
    CompoundComponent) and the emitter components. A saved
    component is a container of named values; load() reads each value back
    by name, and a missing name yields the default the call gives, or the
    zero value of the type when the call gives none. The mesh name and the
    particle scale, which only rendering uses, are not modelled. The agent
    emitter keeps its profile and its timer in two components
    (AgentEmitterComponent, TimedAgentEmitterComponent) and saves them in
    two containers; the compound emitter saves both in one. */
module Storage {
  import opened Components

  /** A stored value. Ids, milliseconds and counts are integers; potencies,
      radii, speeds and angles are reals. */
  datatype Value = IntValue(i: int) | RealValue(r: real) | VecValue(v: Vec3)

  /** StorageContainer: values by name. StorageContainer is a library
      outside this model; the getters below state what the model assumes
      of it: get returns the value stored under the name when it has the
      requested type, and the given default otherwise. */
  type Container = map<string, Value>

  /** get<integer type>(key, default). */
  function GetInt(c: Container, key: string, default: int): int
  {
    if key in c && c[key].IntValue? then c[key].i else default
  }

  /** get<id or count>(key, default): an unsigned integer. */
  function GetNat(c: Container, key: string, default: nat): nat
  {
    if key in c && c[key].IntValue? && c[key].i >= 0 then c[key].i else default
  }

  /** get<float or Real or Degree>(key, default). */
  function GetReal(c: Container, key: string, default: real): real
  {
    if key in c && c[key].RealValue? then c[key].r else default
  }

  /** get<Ogre::Vector3>(key, default). */
  function GetVec(c: Container, key: string, default: Vec3): Vec3
  {
    if key in c && c[key].VecValue? then c[key].v else default
  }

  /** The name the type id is saved under: "agentId" for agents,
      "compoundId" for compounds. */
  const AGENT_ID_KEY := "agentId"
  const COMPOUND_ID_KEY := "compoundId"

  /** AgentComponent::storage / CompoundComponent::storage. */
  function SaveParticle(p: Particle, idKey: string): Container
  {
    map[idKey := IntValue(p.typeId), "potency" := RealValue(p.potency),
        "timeToLive" := IntValue(p.timeToLive), "velocity" := VecValue(p.velocity)]
  }

  /** AgentComponent::load / CompoundComponent::load: the type id defaults
      to NULL_AGENT, the other fields to zero. */
  function LoadParticle(c: Container, idKey: string): Particle
  {
    Particle(GetNat(c, idKey, NULL_AGENT), GetReal(c, "potency", 0.0),
             GetInt(c, "timeToLive", 0), GetVec(c, "velocity", ZERO))
  }

  /** Loading what was saved gives the particle back, for either family. */
  lemma ParticleRoundTrip(p: Particle, idKey: string)
    requires idKey == AGENT_ID_KEY || idKey == COMPOUND_ID_KEY
    ensures LoadParticle(SaveParticle(p, idKey), idKey) == p
  {
    var c := SaveParticle(p, idKey);
    assert c[idKey] == IntValue(p.typeId);
    assert c["potency"] == RealValue(p.potency);
    assert c["timeToLive"] == IntValue(p.timeToLive);
  }

  /** Loading an empty container gives the default-constructed particle. */
  lemma LoadEmptyParticle(idKey: string)
    ensures LoadParticle(map[], idKey) == DEFAULT_PARTICLE
  {
  }

  /** The emission fields of AgentEmitterComponent::storage and
      CompoundEmitterComponent::storage, the type id under idKey. */
  function SaveProfile(p: EmissionProfile, idKey: string): Container
  {
    map[idKey := IntValue(p.typeId),
        "emissionRadius" := RealValue(p.emissionRadius),
        "maxInitialSpeed" := RealValue(p.maxInitialSpeed),
        "minInitialSpeed" := RealValue(p.minInitialSpeed),
        "maxEmissionAngle" := RealValue(p.maxEmissionAngle),
        "minEmissionAngle" := RealValue(p.minEmissionAngle),
        "particlesPerEmission" := IntValue(p.particlesPerEmission),
        "particleLifetime" := IntValue(p.particleLifetime),
        "potencyPerParticle" := RealValue(p.potencyPerParticle)]
  }

  /** The emission fields of AgentEmitterComponent::load and
      CompoundEmitterComponent::load: explicit defaults for the id, the
      radius and the speeds; the angles, the count, the lifetime and the
      potency default to zero. */
  function LoadProfile(c: Container, idKey: string): EmissionProfile
  {
    EmissionProfile(
      GetNat(c, idKey, NULL_AGENT),
      GetReal(c, "emissionRadius", 0.0),
      GetReal(c, "minInitialSpeed", 0.0),
      GetReal(c, "maxInitialSpeed", 0.0),
      GetReal(c, "minEmissionAngle", 0.0),
      GetReal(c, "maxEmissionAngle", 0.0),
      GetNat(c, "particlesPerEmission", 0),
      GetInt(c, "particleLifetime", 0),
      GetReal(c, "potencyPerParticle", 0.0))
  }

  /** TimedAgentEmitterComponent::storage, and the timer fields of
      CompoundEmitterComponent::storage. */
  function SaveTimer(t: Timer): Container
  {
    map["emitInterval" := IntValue(t.emitInterval),
        "timeSinceLastEmission" := IntValue(t.timeSinceLastEmission)]
  }

  /** TimedAgentEmitterComponent::load, and the timer fields of
      CompoundEmitterComponent::load: the interval defaults to 1000 ms, the
      accumulator to zero. */
  function LoadTimer(c: Container): Timer
  {
    Timer(GetInt(c, "emitInterval", 1000), GetInt(c, "timeSinceLastEmission", 0))
  }

  /** CompoundEmitterComponent::storage: profile and timer in one container. */
  function SaveEmitter(ce: CompoundEmitter): (c: Container)
    ensures c.Keys == SaveProfile(ce.profile, COMPOUND_ID_KEY).Keys + SaveTimer(ce.timer).Keys
  {
    SaveProfile(ce.profile, COMPOUND_ID_KEY) + SaveTimer(ce.timer)
  }

  /** CompoundEmitterComponent::load. */
  function LoadEmitter(c: Container): CompoundEmitter
  {
    CompoundEmitter(LoadProfile(c, COMPOUND_ID_KEY), LoadTimer(c))
  }

  /** Loading what was saved gives the profile back, for either family. */
  lemma ProfileRoundTrip(p: EmissionProfile, idKey: string)
    requires idKey == AGENT_ID_KEY || idKey == COMPOUND_ID_KEY
    ensures LoadProfile(SaveProfile(p, idKey), idKey) == p
  {
    var c := SaveProfile(p, idKey);
    assert c[idKey] == IntValue(p.typeId);
    assert c["emissionRadius"] == RealValue(p.emissionRadius);
    assert c["maxInitialSpeed"] == RealValue(p.maxInitialSpeed);
    assert c["minInitialSpeed"] == RealValue(p.minInitialSpeed);
    assert c["maxEmissionAngle"] == RealValue(p.maxEmissionAngle);
    assert c["minEmissionAngle"] == RealValue(p.minEmissionAngle);
    assert c["particlesPerEmission"] == IntValue(p.particlesPerEmission);
    assert c["particleLifetime"] == IntValue(p.particleLifetime);
    assert c["potencyPerParticle"] == RealValue(p.potencyPerParticle);
  }

  /** Loading what was saved gives the timer back. */
  lemma TimerRoundTrip(t: Timer)
    ensures LoadTimer(SaveTimer(t)) == t
  {
    var c := SaveTimer(t);
    assert c["emitInterval"] == IntValue(t.emitInterval);
  }

  /** Loading what was saved gives the compound emitter back: the profile
      and the timer use disjoint names, so neither overwrites the other. */
  lemma EmitterRoundTrip(ce: CompoundEmitter)
    ensures LoadEmitter(SaveEmitter(ce)) == ce
  {
    var c, cp, ct := SaveEmitter(ce), SaveProfile(ce.profile, COMPOUND_ID_KEY), SaveTimer(ce.timer);
    assert LoadProfile(c, COMPOUND_ID_KEY) == LoadProfile(cp, COMPOUND_ID_KEY) by {
      forall k | k in cp ensures k in c && c[k] == cp[k] { assert k !in ct; }
      assert "emitInterval" !in cp && "timeSinceLastEmission" !in cp;
    }
    ProfileRoundTrip(ce.profile, COMPOUND_ID_KEY);
    TimerRoundTrip(ce.timer);
  }

  /** An empty container loads the default interval of 1000 ms, but not the
      default-constructed emitter: its particles would live 0 ms instead of
      1000 and carry potency 0 instead of 1. */
  lemma LoadEmptyEmitter()
    ensures LoadEmitter(map[]).timer == DEFAULT_COMPOUND_EMITTER.timer
    ensures LoadEmitter(map[]).profile.particleLifetime == 0 != DEFAULT_COMPOUND_EMITTER.profile.particleLifetime
    ensures LoadEmitter(map[]).profile.potencyPerParticle == 0.0 != DEFAULT_COMPOUND_EMITTER.profile.potencyPerParticle
    ensures LoadEmitter(map[]).profile == DEFAULT_COMPOUND_EMITTER.profile.(particleLifetime := 0, potencyPerParticle := 0.0)
  {
  }
}
