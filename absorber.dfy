/** The absorber component (AgentAbsorberComponent, CompoundAbsorberComponent):
    the amount of each particle type absorbed in the last time step, and the
    set of types the entity may absorb. */
module Absorber {
  import opened Components

  /** The amount recorded for a type; a type with no record reads as 0. */
  function AmountIn(absorbed: map<TypeId, real>, id: TypeId): real
  {
    if id in absorbed then absorbed[id] else 0.0
  }

  /** One element of the saved list: a type id and its amount. */
  datatype StoredAmount = StoredAmount(id: TypeId, amount: real)

  function IdsOf(list: seq<StoredAmount>): (ids: set<TypeId>)
    ensures forall i :: 0 <= i < |list| ==> list[i].id in ids
    ensures forall id :: id in ids ==> exists i :: 0 <= i < |list| && list[i].id == id
  {
    if list == [] then {} else IdsOf(list[..|list| - 1]) + {list[|list| - 1].id}
  }

  /** What storage() writes: one element per allowed type, no type twice,
      each with its current amount (0 when nothing is recorded). The order
      is that of an unordered set, so any order is allowed. */
  ghost predicate IsStorageOf(list: seq<StoredAmount>, absorbed: map<TypeId, real>, allowed: set<TypeId>)
  {
    && (forall i, j :: 0 <= i < j < |list| ==> list[i].id != list[j].id)
    && IdsOf(list) == allowed
    && (forall i :: 0 <= i < |list| ==> list[i].amount == AmountIn(absorbed, list[i].id))
  }

  /** The amounts after load() has read the list in order into `absorbed`:
      each element overwrites the amount of its type. */
  function LoadAmounts(absorbed: map<TypeId, real>, list: seq<StoredAmount>): map<TypeId, real>
  {
    if list == [] then absorbed
    else LoadAmounts(absorbed, list[..|list| - 1])[list[|list| - 1].id := list[|list| - 1].amount]
  }

  /** Reading a list with distinct types gives each listed type its listed
      amount, and leaves every other type as it was. */
  lemma {:induction false} LoadAmountsDistinct(absorbed: map<TypeId, real>, list: seq<StoredAmount>)
    requires forall i, j :: 0 <= i < j < |list| ==> list[i].id != list[j].id
    ensures LoadAmounts(absorbed, list).Keys == absorbed.Keys + IdsOf(list)
    ensures forall i :: 0 <= i < |list| ==> LoadAmounts(absorbed, list)[list[i].id] == list[i].amount
    ensures forall id :: id !in IdsOf(list) ==> AmountIn(LoadAmounts(absorbed, list), id) == AmountIn(absorbed, id)
  {
    if list != [] {
      var front := list[..|list| - 1];
      LoadAmountsDistinct(absorbed, front);
      forall i | 0 <= i < |list| - 1
        ensures list[i].id != list[|list| - 1].id && list[i] == front[i]
      {
      }
    }
  }

  /** Saving an absorber and loading the result into a fresh component gives
      back the allow-set, and the amounts of the allowed types; the amount of
      any other type is not saved and reads as 0 afterwards. */
  lemma {:induction false} StorageRoundTrip(list: seq<StoredAmount>, absorbed: map<TypeId, real>, allowed: set<TypeId>)
    requires IsStorageOf(list, absorbed, allowed)
    ensures LoadAmounts(map[], list).Keys == allowed
    ensures forall id :: id in allowed ==> AmountIn(LoadAmounts(map[], list), id) == AmountIn(absorbed, id)
    ensures forall id :: id !in allowed ==> AmountIn(LoadAmounts(map[], list), id) == 0.0
  {
    LoadAmountsDistinct(map[], list);
    assert IdsOf(list) == allowed;
    forall id | id in allowed
      ensures AmountIn(LoadAmounts(map[], list), id) == AmountIn(absorbed, id)
    {
      var i :| 0 <= i < |list| && list[i].id == id;
    }
  }

  class AbsorberComponent {
    /** The amounts absorbed in the last time step, by type. */
    var absorbed: map<TypeId, real>
    /** The types this entity may absorb. */
    var allowed: set<TypeId>

    constructor ()
      ensures absorbed == map[] && allowed == {}
    {
      absorbed := map[];
      allowed := {};
    }

    /** absorbedAgentAmount / absorbedCompoundAmount. */
    function Amount(id: TypeId): (r: real)
      reads this
      ensures id !in absorbed ==> r == 0.0
      ensures id in absorbed ==> r == absorbed[id]
    {
      AmountIn(absorbed, id)
    }

    /** canAbsorbAgent / canAbsorbCompound. */
    predicate CanAbsorb(id: TypeId)
      reads this
    {
      id in allowed
    }

    /** setAbsorbedAgentAmount / setAbsorbedCompoundAmount: overwrite one
        type's amount (documented as the way to reset it to zero). */
    method SetAbsorbedAmount(id: TypeId, amount: real)
      modifies this`absorbed
      ensures Amount(id) == amount
      ensures forall other :: other != id ==> Amount(other) == old(Amount(other))
      ensures absorbed.Keys == old(absorbed.Keys) + {id}
    {
      absorbed := absorbed[id := amount];
    }

    /** setCanAbsorbAgent / setCanAbsorbCompound: insert or erase one type. */
    method SetCanAbsorb(id: TypeId, canAbsorb: bool)
      modifies this`allowed
      ensures CanAbsorb(id) == canAbsorb
      ensures forall other :: other != id ==> CanAbsorb(other) == old(CanAbsorb(other))
    {
      if canAbsorb {
        allowed := allowed + {id};
      } else {
        allowed := allowed - {id};
      }
    }

    /** storage(): one element per allowed type with its current amount,
        in the unspecified order in which the set is walked. */
    method Storage() returns (list: seq<StoredAmount>)
      ensures IsStorageOf(list, absorbed, allowed)
    {
      list := [];
      var todo := allowed;
      while todo != {}
        invariant todo <= allowed
        invariant IdsOf(list) == allowed - todo
        invariant forall i, j :: 0 <= i < j < |list| ==> list[i].id != list[j].id
        invariant forall i :: 0 <= i < |list| ==> list[i].amount == AmountIn(absorbed, list[i].id)
        decreases todo
      {
        var id :| id in todo;
        assert (list + [StoredAmount(id, Amount(id))])[..|list|] == list;
        list := list + [StoredAmount(id, Amount(id))];
        todo := todo - {id};
      }
    }

    /** load(): each element sets its type's amount and makes the type
        allowed; entries already present stay unless overwritten. */
    method Load(list: seq<StoredAmount>)
      modifies this
      ensures absorbed == LoadAmounts(old(absorbed), list)
      ensures allowed == old(allowed) + IdsOf(list)
    {
      var i := 0;
      while i < |list|
        invariant 0 <= i <= |list|
        invariant absorbed == LoadAmounts(old(absorbed), list[..i])
        invariant allowed == old(allowed) + IdsOf(list[..i])
      {
        assert list[..i + 1][..i] == list[..i];
        absorbed := absorbed[list[i].id := list[i].amount];
        allowed := allowed + {list[i].id};
        i := i + 1;
      }
      assert list[..i] == list;
    }
  }
}
