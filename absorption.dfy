/** The absorber systems (AgentAbsorberSystem, CompoundAbsorberSystem): every
    tick clears each absorber's amounts, then walks the contacts of the step.
    A contact between a particle and an absorber that may absorb the
    particle's type, while the particle still has time to live, adds the
    particle's potency to the absorber's amount for that type and sets the
    particle's timeToLive to 0, so that the lifetime system removes it. */
module Absorption {
  import opened Components
  import opened Absorber
  import opened World

  datatype Option<T> = None | Some(value: T)

  /** The part of the world the absorber systems read and write: the
      particle table and each absorber entity's amounts. */
  datatype State = State(particles: map<EntityId, Particle>, ledgers: map<EntityId, map<TypeId, real>>)

  /** One consumption: `particle`, of type typeId and with the given potency,
      went into the absorber of entity `absorber`. */
  datatype Event = Event(particle: EntityId, absorber: EntityId, typeId: TypeId, potency: real)

  /** Which entity of a contact is the particle and which the absorber: the
      first entity as the particle and the second as the absorber is tried
      before the other way round; any other contact matches nothing. */
  function Match(particles: map<EntityId, Particle>, allowed: map<EntityId, set<TypeId>>, c: Contact): (r: Option<(EntityId, EntityId)>)
    ensures c.0 in particles && c.1 in allowed ==> r == Some(c)
    ensures !(c.0 in particles && c.1 in allowed) && c.0 in allowed && c.1 in particles ==> r == Some((c.1, c.0))
    ensures r.None? <==> !(c.0 in particles && c.1 in allowed) && !(c.0 in allowed && c.1 in particles)
  {
    if c.0 in particles && c.1 in allowed then Some(c)
    else if c.0 in allowed && c.1 in particles then Some((c.1, c.0))
    else None
  }

  /** The consumption a contact causes in state s: only a matched particle
      that is still alive and whose type the absorber may absorb is taken. */
  function EventOf(s: State, allowed: map<EntityId, set<TypeId>>, c: Contact): (r: Option<Event>)
    ensures r.Some? <==> && Match(s.particles, allowed, c).Some?
                         && var (p, a) := Match(s.particles, allowed, c).value;
                            s.particles[p].typeId in allowed[a] && s.particles[p].timeToLive > 0
    ensures r.Some? ==> && (r.value.particle, r.value.absorber) == Match(s.particles, allowed, c).value
                        && r.value.typeId == s.particles[r.value.particle].typeId
                        && r.value.potency == s.particles[r.value.particle].potency
  {
    match Match(s.particles, allowed, c)
    case None => None
    case Some((p, a)) =>
      var q := s.particles[p];
      if q.typeId in allowed[a] && q.timeToLive > 0 then Some(Event(p, a, q.typeId, q.potency)) else None
  }

  /** An absorber's amounts; an entity without a record has none. */
  function LedgerOf(ledgers: map<EntityId, map<TypeId, real>>, a: EntityId): map<TypeId, real>
  {
    if a in ledgers then ledgers[a] else map[]
  }

  /** The effect of one consumption: the particle's timeToLive becomes 0,
      and the absorber's amount for the type grows by the potency. */
  function Apply(s: State, ev: Event): State
    requires ev.particle in s.particles
  {
    var ledger := LedgerOf(s.ledgers, ev.absorber);
    State(s.particles[ev.particle := s.particles[ev.particle].(timeToLive := 0)],
          s.ledgers[ev.absorber := ledger[ev.typeId := AmountIn(ledger, ev.typeId) + ev.potency]])
  }

  /** One contact. */
  function Step(s: State, allowed: map<EntityId, set<TypeId>>, c: Contact): State
  {
    match EventOf(s, allowed, c)
    case None => s
    case Some(ev) => Apply(s, ev)
  }

  /** The state after walking the contacts in order. */
  function AbsorbAll(s: State, allowed: map<EntityId, set<TypeId>>, cs: seq<Contact>): State
  {
    if cs == [] then s
    else Step(AbsorbAll(s, allowed, cs[..|cs| - 1]), allowed, cs[|cs| - 1])
  }

  /** The consumptions of that walk, in order. */
  function Events(s: State, allowed: map<EntityId, set<TypeId>>, cs: seq<Contact>): seq<Event>
  {
    if cs == [] then []
    else
      var before := AbsorbAll(s, allowed, cs[..|cs| - 1]);
      Events(s, allowed, cs[..|cs| - 1])
        + match EventOf(before, allowed, cs[|cs| - 1]) case None => [] case Some(ev) => [ev]
  }

  /** Every absorber's amounts, cleared. */
  function Cleared(allowed: map<EntityId, set<TypeId>>): map<EntityId, map<TypeId, real>>
  {
    map a | a in allowed :: map[]
  }

  /** The whole update: clear every absorber, then walk the contacts. */
  function Absorb(particles: map<EntityId, Particle>, allowed: map<EntityId, set<TypeId>>, cs: seq<Contact>): State
  {
    AbsorbAll(State(particles, Cleared(allowed)), allowed, cs)
  }

  /** The particles that were consumed. */
  function ConsumedBy(evs: seq<Event>): set<EntityId>
  {
    set i | 0 <= i < |evs| :: evs[i].particle
  }

  /** The potency a consumption gives absorber a of type id. */
  function ShareOf(ev: Event, a: EntityId, id: TypeId): real
  {
    if ev.absorber == a && ev.typeId == id then ev.potency else 0.0
  }

  /** The potency absorber a took of type id over the events. */
  function Gain(evs: seq<Event>, a: EntityId, id: TypeId): real
  {
    if evs == [] then 0.0
    else Gain(evs[..|evs| - 1], a, id) + ShareOf(evs[|evs| - 1], a, id)
  }

  /** A contact that is not one particle and one absorber changes nothing. */
  lemma NonMatchingContact(s: State, allowed: map<EntityId, set<TypeId>>, c: Contact)
    requires !(c.0 in s.particles && c.1 in allowed) && !(c.0 in allowed && c.1 in s.particles)
    ensures Step(s, allowed, c) == s
  {
  }

  /** Each consumption is of a particle that was there, alive, and of a type
      its absorber may absorb at the start of the walk, with that particle's
      type and potency. */
  lemma {:induction false} EventsAreOfLiveParticles(s: State, allowed: map<EntityId, set<TypeId>>, cs: seq<Contact>)
    ensures forall i :: 0 <= i < |Events(s, allowed, cs)| ==>
              var ev := Events(s, allowed, cs)[i];
              && ev.particle in s.particles && ev.absorber in allowed
              && s.particles[ev.particle].timeToLive > 0
              && ev.typeId == s.particles[ev.particle].typeId && ev.typeId in allowed[ev.absorber]
              && ev.potency == s.particles[ev.particle].potency
    ensures AbsorbAll(s, allowed, cs).particles.Keys == s.particles.Keys
    ensures forall p :: p in s.particles ==>
              AbsorbAll(s, allowed, cs).particles[p]
                == if p in ConsumedBy(Events(s, allowed, cs)) then s.particles[p].(timeToLive := 0) else s.particles[p]
    decreases |cs|
  {
    if cs != [] {
      var front, c := cs[..|cs| - 1], cs[|cs| - 1];
      EventsAreOfLiveParticles(s, allowed, front);
      var evs, before := Events(s, allowed, front), AbsorbAll(s, allowed, front);
      match EventOf(before, allowed, c)
      case None =>
        assert Events(s, allowed, cs) == evs + [] == evs;
        assert AbsorbAll(s, allowed, cs) == before;
      case Some(ev) =>
        assert Events(s, allowed, cs) == evs + [ev];
        ConsumedByAppend(evs, ev);
        assert before.particles[ev.particle] == s.particles[ev.particle];
    }
  }

  /** One more consumption adds its particle to the consumed ones. */
  lemma ConsumedByAppend(evs: seq<Event>, ev: Event)
    ensures ConsumedBy(evs + [ev]) == ConsumedBy(evs) + {ev.particle}
  {
    var evs' := evs + [ev];
    forall p | p in ConsumedBy(evs)
      ensures p in ConsumedBy(evs')
    {
      var i :| 0 <= i < |evs| && evs[i].particle == p;
      assert evs'[i].particle == p;
    }
    assert evs'[|evs|].particle == ev.particle;
  }

  /** At most once: no particle is consumed twice in one walk, however many
      contacts name it, and each consumed particle ends with timeToLive 0. */
  lemma {:induction false} ConsumedOnce(s: State, allowed: map<EntityId, set<TypeId>>, cs: seq<Contact>)
    ensures forall i, j :: 0 <= i < j < |Events(s, allowed, cs)| ==>
              Events(s, allowed, cs)[i].particle != Events(s, allowed, cs)[j].particle
    ensures forall p :: p in ConsumedBy(Events(s, allowed, cs)) ==>
              p in AbsorbAll(s, allowed, cs).particles && AbsorbAll(s, allowed, cs).particles[p].timeToLive == 0
    decreases |cs|
  {
    if cs != [] {
      var front := cs[..|cs| - 1];
      ConsumedOnce(s, allowed, front);
      EventsAreOfLiveParticles(s, allowed, front);
      var evs, evs' := Events(s, allowed, front), Events(s, allowed, cs);
      var before := AbsorbAll(s, allowed, front);
      assert evs'[..|evs|] == evs;
      if |evs'| > |evs| {
        var ev := evs'[|evs|];
        forall i | 0 <= i < |evs|
          ensures evs[i].particle != ev.particle
        {
          assert evs[i].particle in ConsumedBy(evs);
        }
      }
      forall p | p in ConsumedBy(evs')
        ensures p in AbsorbAll(s, allowed, cs).particles && AbsorbAll(s, allowed, cs).particles[p].timeToLive == 0
      {
        var i :| 0 <= i < |evs'| && evs'[i].particle == p;
        if i < |evs| {
          assert evs[i].particle == p;
        }
      }
    }
  }

  /** One consumption adds its share to every amount. */
  lemma ApplyLedger(s: State, ev: Event, a: EntityId, id: TypeId)
    requires ev.particle in s.particles
    ensures AmountIn(LedgerOf(Apply(s, ev).ledgers, a), id) == AmountIn(LedgerOf(s.ledgers, a), id) + ShareOf(ev, a, id)
  {
  }

  /** The amounts add up: an absorber's amount of a type at the end is its
      amount at the start plus the potency of each particle of that type it
      consumed on the way. */
  lemma {:induction false} LedgerAccounts(s: State, allowed: map<EntityId, set<TypeId>>, cs: seq<Contact>, a: EntityId, id: TypeId)
    ensures AmountIn(LedgerOf(AbsorbAll(s, allowed, cs).ledgers, a), id)
            == AmountIn(LedgerOf(s.ledgers, a), id) + Gain(Events(s, allowed, cs), a, id)
    decreases |cs|
  {
    if cs != [] {
      var front := cs[..|cs| - 1];
      LedgerAccounts(s, allowed, front, a, id);
      var before := AbsorbAll(s, allowed, front);
      var evs := Events(s, allowed, front);
      match EventOf(before, allowed, cs[|cs| - 1])
      case None =>
        assert Events(s, allowed, cs) == evs + [];
        assert evs + [] == evs;
      case Some(ev) =>
        ApplyLedger(before, ev, a, id);
        assert Events(s, allowed, cs) == evs + [ev];
        assert (evs + [ev])[..|evs|] == evs;
    }
  }

  /** The update's absorbers: exactly the absorber entities have amounts,
      the consumed ones added up from zero. */
  lemma AbsorbLedgers(particles: map<EntityId, Particle>, allowed: map<EntityId, set<TypeId>>, cs: seq<Contact>, a: EntityId, id: TypeId)
    requires a in allowed
    ensures AmountIn(LedgerOf(Absorb(particles, allowed, cs).ledgers, a), id)
            == Gain(Events(State(particles, Cleared(allowed)), allowed, cs), a, id)
  {
    LedgerAccounts(State(particles, Cleared(allowed)), allowed, cs, a, id);
  }

  /** A contact seen twice in a row counts once: the particle it consumed
      the first time has no time to live the second time. */
  lemma DuplicateContact(s: State, allowed: map<EntityId, set<TypeId>>, c: Contact)
    ensures Step(Step(s, allowed, c), allowed, c) == Step(s, allowed, c)
  {
    var s' := Step(s, allowed, c);
    if EventOf(s, allowed, c).Some? {
      assert Match(s'.particles, allowed, c) == Match(s.particles, allowed, c);
    }
  }

  /** Two particles of type 1 with potency 5 and 7 touching an absorber that
      may absorb type 1, one of them twice: the absorber records 12 and both
      particles end with no time to live. */
  lemma AbsorbExample()
    ensures var particles := map[1 := Particle(1, 5.0, 100, ZERO), 2 := Particle(1, 7.0, 100, ZERO)];
            var allowed := map[3 := {1}];
            var r := Absorb(particles, allowed, [(1, 3), (3, 2), (1, 3)]);
            && r.ledgers == map[3 := map[1 := 12.0]]
            && r.particles == map[1 := Particle(1, 5.0, 0, ZERO), 2 := Particle(1, 7.0, 0, ZERO)]
  {
    var particles := map[1 := Particle(1, 5.0, 100, ZERO), 2 := Particle(1, 7.0, 100, ZERO)];
    var allowed := map[3 := {1}];
    var cs: seq<Contact> := [(1, 3), (3, 2), (1, 3)];
    var s0 := State(particles, Cleared(allowed));
    assert Cleared(allowed) == map[3 := map[]];
    var s1 := State(particles[1 := Particle(1, 5.0, 0, ZERO)], map[3 := map[1 := 5.0]]);
    var s2 := State(s1.particles[2 := Particle(1, 7.0, 0, ZERO)], map[3 := map[1 := 12.0]]);
    assert |cs[..2][..1][..0]| == 0 && cs[..2][..1] == [(1, 3)] && cs[..2] == [(1, 3), (3, 2)];
    assert Step(s0, allowed, (1, 3)) == s1;
    assert AbsorbAll(s0, allowed, cs[..1]) == s1;
    assert EventOf(s1, allowed, (3, 2)) == Some(Event(2, 3, 1, 7.0));
    assert map[1 := 5.0][1 := 5.0 + 7.0] == map[1 := 12.0];
    assert Step(s1, allowed, (3, 2)) == s2;
    assert AbsorbAll(s0, allowed, cs[..2]) == s2;
    assert Step(s2, allowed, (1, 3)) == s2;
  }

  /** Clears every absorber's amounts. */
  method ClearLedgers(w: World)
    requires w.Valid()
    modifies w.absorbers.Values
    ensures w.Ledgers() == Cleared(old(w.Allowed()))
    ensures w.Allowed() == old(w.Allowed())
  {
    var todo := w.absorbers.Keys;
    while todo != {}
      invariant todo <= w.absorbers.Keys
      invariant forall e :: e in w.absorbers ==> w.absorbers[e].allowed == old(w.absorbers[e].allowed)
      invariant forall e :: e in w.absorbers && e !in todo ==> w.absorbers[e].absorbed == map[]
      decreases todo
    {
      var e :| e in todo;
      w.absorbers[e].absorbed := map[];
      todo := todo - {e};
    }
    assert w.Ledgers() == Cleared(old(w.Allowed())) by {
      assert w.Ledgers().Keys == Cleared(old(w.Allowed())).Keys;
    }
    assert w.Allowed() == old(w.Allowed()) by {
      assert w.Allowed().Keys == old(w.Allowed()).Keys;
    }
  }

  /** A contact that matches a live particle of a type its absorber may
      absorb consumes it. */
  lemma StepConsumes(s: State, allowed: map<EntityId, set<TypeId>>, c: Contact, p: EntityId, a: EntityId)
    requires Match(s.particles, allowed, c) == Some((p, a))
    requires s.particles[p].typeId in allowed[a] && s.particles[p].timeToLive > 0
    ensures Step(s, allowed, c) == Apply(s, Event(p, a, s.particles[p].typeId, s.particles[p].potency))
  {
  }

  /** Which entity of the contact is the particle and which the absorber. */
  method MatchContact(w: World, c: Contact) returns (found: bool, particle: EntityId, a: EntityId)
    ensures found <==> Match(w.particles, w.Allowed(), c).Some?
    ensures found ==> Match(w.particles, w.Allowed(), c) == Some((particle, a))
  {
    var (entityA, entityB) := c;
    found, particle, a := false, 0, 0;
    if entityA in w.particles && entityB in w.absorbers {
      found, particle, a := true, entityA, entityB;
    } else if entityA in w.absorbers && entityB in w.particles {
      found, a, particle := true, entityA, entityB;
    }
  }

  /** The body of the contact loop: one contact, handled as Step says. */
  method AbsorbContact(w: World, c: Contact, ghost allowed: map<EntityId, set<TypeId>>)
    requires w.DistinctAbsorbers() && w.Allowed() == allowed
    modifies w`particles, w.absorbers.Values
    ensures w.Allowed() == allowed
    ensures State(w.particles, w.Ledgers()) == Step(State(old(w.particles), old(w.Ledgers())), allowed, c)
  {
    ghost var s := State(w.particles, w.Ledgers());
    var found, particle, a := MatchContact(w, c);
    if found && w.absorbers[a].CanAbsorb(w.particles[particle].typeId) && w.particles[particle].timeToLive > 0 {
      StepConsumes(s, allowed, c, particle, a);
      w.Consume(particle, a);
    }
  }

  /** AgentAbsorberSystem::update, with the contact manifolds physics
      reported as the sequence of contacts: clear, then walk the contacts. */
  method AbsorberUpdate(w: World, contacts: seq<Contact>)
    requires w.Valid()
    modifies w`particles, w.absorbers.Values
    ensures w.Valid() && w.Allowed() == old(w.Allowed())
    ensures State(w.particles, w.Ledgers()) == Absorb(old(w.particles), old(w.Allowed()), contacts)
  {
    ghost var allowed := w.Allowed();
    ghost var s0 := State(w.particles, Cleared(allowed));
    ClearLedgers(w);
    for i := 0 to |contacts|
      invariant w.Valid() && w.Allowed() == allowed
      invariant State(w.particles, w.Ledgers()) == AbsorbAll(s0, allowed, contacts[..i])
    {
      assert contacts[..i + 1][..i] == contacts[..i];
      AbsorbContact(w, contacts[i], allowed);
    }
    assert contacts[..|contacts|] == contacts;
  }

  /** CompoundAbsorberSystem::update: the same walk over the contacts the
      collision filter buffered. The buffer is emptied at once and the walk
      works on the copy taken before. */
  method CompoundAbsorberUpdate(w: World)
    requires w.Valid()
    modifies w`particles, w`collisions, w.absorbers.Values
    ensures w.Valid() && w.Allowed() == old(w.Allowed())
    ensures State(w.particles, w.Ledgers()) == Absorb(old(w.particles), old(w.Allowed()), old(w.collisions))
    ensures w.collisions == []
  {
    var contacts := w.collisions;
    w.collisions := [];
    AbsorberUpdate(w, contacts);
  }
}
