/** The particle-type registry (AgentRegistry, CompoundRegistry): an
    append-only table of entries indexed by id - 1, and a map from internal
    names to ids that keeps names unique. The source keeps both tables in
    process-wide statics; here they are the fields of one owned object. */
module Registry {
  import opened Components

  datatype Entry = Entry(internalName: string, displayName: string, size: int)

  datatype RegistryError =
    | DuplicateName   // std::invalid_argument from registration
    | UnknownName     // std::out_of_range from the name lookup
    | InvalidId       // std::out_of_range from an id lookup

  datatype Result<T> = Ok(value: T) | Err(error: RegistryError)

  /** The ids and the entries describe each other: every name maps to the
      entry that carries it, and entry i is reachable under id i + 1. */
  ghost predicate Bidirectional(entries: seq<Entry>, ids: map<string, TypeId>)
  {
    && (forall name :: name in ids ==>
          1 <= ids[name] <= |entries| && entries[ids[name] - 1].internalName == name)
    && (forall i :: 0 <= i < |entries| ==>
          entries[i].internalName in ids && ids[entries[i].internalName] == i + 1)
  }

  /** The ids in use are exactly 1..n, and distinct names never share one. */
  lemma BidirectionalIdsConsecutive(entries: seq<Entry>, ids: map<string, TypeId>)
    requires Bidirectional(entries, ids)
    ensures forall i :: i in ids.Values <==> 1 <= i <= |entries|
    ensures forall a, b :: a in ids && b in ids && a != b ==> ids[a] != ids[b]
  {
    forall i | 1 <= i <= |entries|
      ensures i in ids.Values
    {
      var name := entries[i - 1].internalName;
      assert name in ids && ids[name] == i;
    }
  }

  /** The range check the source performs before indexing entries[id - 1]:
      it rejects only ids above the count. */
  predicate SourceRangeCheckPasses(id: TypeId, count: nat)
  {
    !(id > count)
  }

  /** The source's check lets NULL_AGENT through, and the lookup then reads
      index -1, which is outside the table whatever its size. */
  lemma SourceRangeCheckAdmitsNullAgent(count: nat)
    ensures SourceRangeCheckPasses(NULL_AGENT, count)
    ensures !(0 <= NULL_AGENT - 1 < count)
  {
  }

  /** The corrected range check: ids name entries 1..count. */
  predicate IsValidId(id: TypeId, count: nat)
  {
    1 <= id <= count
  }

  class TypeRegistry {
    var entries: seq<Entry>
    var ids: map<string, TypeId>

    ghost predicate Valid()
      reads this
    {
      Bidirectional(entries, ids)
    }

    constructor ()
      ensures Valid()
      ensures entries == [] && ids == map[]
    {
      entries := [];
      ids := map[];
    }

    /** registerAgentType / the two-argument registerCompoundType: size 1. */
    method Register(internalName: string, displayName: string) returns (r: Result<TypeId>)
      requires Valid()
      modifies this
      ensures Valid()
      ensures internalName in old(ids) ==>
                r == Err(DuplicateName) && entries == old(entries) && ids == old(ids)
      ensures internalName !in old(ids) ==>
                && r == Ok(|old(entries)| + 1)
                && entries == old(entries) + [Entry(internalName, displayName, 1)]
                && ids == old(ids)[internalName := r.value]
      ensures r.Ok? ==>
                && GetId(internalName) == Ok(r.value)
                && GetInternalName(r.value) == Ok(internalName)
                && GetDisplayName(r.value) == Ok(displayName)
                && GetSize(r.value) == Ok(1)
    {
      r := RegisterSized(internalName, displayName, 1);
    }

    /** The three-argument registerCompoundType, which stores the given size. */
    method RegisterSized(internalName: string, displayName: string, size: int)
      returns (r: Result<TypeId>)
      requires Valid()
      modifies this
      ensures Valid()
      ensures internalName in old(ids) ==>
                r == Err(DuplicateName) && entries == old(entries) && ids == old(ids)
      ensures internalName !in old(ids) ==>
                && r == Ok(|old(entries)| + 1)
                && entries == old(entries) + [Entry(internalName, displayName, size)]
                && ids == old(ids)[internalName := r.value]
      ensures r.Ok? ==>
                && GetId(internalName) == Ok(r.value)
                && GetInternalName(r.value) == Ok(internalName)
                && GetDisplayName(r.value) == Ok(displayName)
                && GetSize(r.value) == Ok(size)
    {
      if internalName !in ids {
        entries := entries + [Entry(internalName, displayName, size)];
        ids := ids[internalName := |entries|];
        r := Ok(|entries|);
      } else {
        r := Err(DuplicateName);
      }
    }

    /** getAgentId / getCompoundId. */
    function GetId(internalName: string): (r: Result<TypeId>)
      reads this
      requires Valid()
      ensures r.Ok? <==> internalName in ids
      ensures r.Err? ==> r.error == UnknownName
      ensures r.Ok? ==> IsValidId(r.value, |entries|)
                        && entries[r.value - 1].internalName == internalName
    {
      if internalName in ids then Ok(ids[internalName]) else Err(UnknownName)
    }

    /** getAgentInternalName / getCompoundInternalName, with the corrected range check. */
    function GetInternalName(id: TypeId): (r: Result<string>)
      reads this
      requires Valid()
      ensures r.Ok? <==> IsValidId(id, |entries|)
      ensures r.Err? ==> r.error == InvalidId
      ensures r.Ok? ==> r.value in ids && ids[r.value] == id
    {
      if IsValidId(id, |entries|) then Ok(entries[id - 1].internalName) else Err(InvalidId)
    }

    /** getAgentDisplayName / getCompoundDisplayName, with the corrected range check. */
    function GetDisplayName(id: TypeId): (r: Result<string>)
      reads this
      requires Valid()
      ensures r.Ok? <==> IsValidId(id, |entries|)
      ensures r.Err? ==> r.error == InvalidId
      ensures r.Ok? ==> r.value == entries[id - 1].displayName
    {
      if IsValidId(id, |entries|) then Ok(entries[id - 1].displayName) else Err(InvalidId)
    }

    /** getCompoundSize, with the corrected range check. */
    function GetSize(id: TypeId): (r: Result<int>)
      reads this
      requires Valid()
      ensures r.Ok? <==> IsValidId(id, |entries|)
      ensures r.Err? ==> r.error == InvalidId
      ensures r.Ok? ==> r.value == entries[id - 1].size
    {
      if IsValidId(id, |entries|) then Ok(entries[id - 1].size) else Err(InvalidId)
    }
  }
}
