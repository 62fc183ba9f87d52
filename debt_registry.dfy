/** The debt registry: an owner, an ordered list of agents that may insert
    entries, an ordered list of agents that may change an entry's creditor,
    and the table of entries keyed by their hash. Every write is gated by
    the caller's role; a refused call reverts and changes nothing. */
module Registry {
  import opened Evm

  type Bytes = seq<Uint8>

  /** What `get` returns: version, creditor, terms contract and its parameters. */
  datatype Entry = Entry(
    version: Address,
    creditor: Address,
    termsContract: Address,
    termsContractParameters: Bytes)

  /** An entry's key: keccak256 over the entry's fields and its salt, taken
      to be injective and therefore represented by those same values. */
  datatype EntryHash = EntryHash(
    version: Address,
    creditor: Address,
    termsContract: Address,
    termsContractParameters: Bytes,
    salt: Uint256)

  function HashOf(e: Entry, salt: Uint256): (h: EntryHash)
    ensures h.version == e.version && h.termsContract == e.termsContract
    ensures h.termsContractParameters == e.termsContractParameters
  {
    EntryHash(e.version, e.creditor, e.termsContract, e.termsContractParameters, salt)
  }

  /** keccak256 of the parameter blob, equally taken to be injective. */
  datatype ParametersHash = ParametersHash(parameters: Bytes)

  /** Two inserts collide exactly when they carry the same fields and salt. */
  lemma HashOfInjective(e1: Entry, salt1: Uint256, e2: Entry, salt2: Uint256)
    ensures HashOf(e1, salt1) == HashOf(e2, salt2) <==> e1 == e2 && salt1 == salt2
  {
  }

  datatype Event =
    | LogAddAuthorizedInsertAgent(agent: Address)
    | LogAddAuthorizedEditAgent(agent: Address)
    | LogRevokeInsertAgentAuthorization(agent: Address)
    | LogRevokeEditAgentAuthorization(agent: Address)
    | LogInsertEntry(entryHash: EntryHash, version: Address, creditor: Address,
                     termsContract: Address, parametersHash: ParametersHash)
    | LogModifyEntryCreditor(entryHash: EntryHash, previousCreditor: Address, newCreditor: Address)
    | OwnershipTransferred(previousOwner: Address, newOwner: Address)

  datatype Revert = Unauthorized | InvalidArgument | Collision | NotFound

  datatype Status = Done | Reverted(reason: Revert)

  /** An agent list with one agent taken out, the others keeping their order. */
  function Without(agents: seq<Address>, agent: Address): (r: seq<Address>)
    ensures forall a :: a in r <==> a in agents && a != agent
    ensures |r| <= |agents|
  {
    if agents == [] then []
    else if agents[0] == agent then Without(agents[1..], agent)
    else [agents[0]] + Without(agents[1..], agent)
  }

  /** Taking out an agent who is not listed leaves the list as it was. */
  lemma {:induction false} WithoutAbsent(agents: seq<Address>, agent: Address)
    requires agent !in agents
    ensures Without(agents, agent) == agents
  {
    if agents != [] {
      WithoutAbsent(agents[1..], agent);
      assert agents == [agents[0]] + agents[1..];
    }
  }

  /** Revoking the agent just added restores the previous list. */
  lemma {:induction false} WithoutLastAdded(agents: seq<Address>, agent: Address)
    requires agent !in agents
    ensures Without(agents + [agent], agent) == agents
  {
    if agents == [] {
      assert [] + [agent] == [agent];
    } else {
      assert (agents + [agent])[1..] == agents[1..] + [agent];
      WithoutLastAdded(agents[1..], agent);
      assert agents == [agents[0]] + agents[1..];
    }
  }

  /** Revoking keeps a list free of duplicates and shortens it by one. */
  lemma {:induction false} WithoutNoDuplicates(agents: seq<Address>, agent: Address)
    requires NoDuplicates(agents) && agent in agents
    ensures NoDuplicates(Without(agents, agent))
    ensures |Without(agents, agent)| == |agents| - 1
  {
    var rest := agents[1..];
    assert NoDuplicates(rest) by {
      forall i, j | 0 <= i < j < |rest| ensures rest[i] != rest[j] {
        assert rest[i] == agents[i + 1] && rest[j] == agents[j + 1];
      }
    }
    if agents[0] == agent {
      assert agent !in rest by {
        forall i | 0 <= i < |rest| ensures rest[i] != agent {
          assert rest[i] == agents[i + 1];
        }
      }
      WithoutAbsent(rest, agent);
    } else {
      assert agent in rest;
      WithoutNoDuplicates(rest, agent);
      assert agents[0] !in rest by {
        forall i | 0 <= i < |rest| ensures rest[i] != agents[0] {
          assert rest[i] == agents[i + 1];
        }
      }
    }
  }

  lemma AppendNoDuplicates(agents: seq<Address>, agent: Address)
    requires NoDuplicates(agents) && agent !in agents
    ensures NoDuplicates(agents + [agent])
  {
  }

  /** The fields an entry's hash fixes forever; only the creditor may change. */
  predicate Identifies(h: EntryHash, e: Entry)
  {
    && h.version == e.version
    && h.termsContract == e.termsContract
    && h.termsContractParameters == e.termsContractParameters
    && e.creditor != NULL_ADDRESS
  }

  class DebtRegistry {
    var owner: Address
    var insertAgents: seq<Address>
    var editAgents: seq<Address>
    var entries: map<EntryHash, Entry>
    var events: seq<Event>

    ghost predicate Valid()
      reads this
    {
      && NoDuplicates(insertAgents)
      && NoDuplicates(editAgents)
      && forall h :: h in entries ==> Identifies(h, entries[h])
    }

    /** Deployment: the deployer owns the registry; no agent, no entry. */
    constructor (sender: Address)
      ensures Valid()
      ensures owner == sender && insertAgents == [] && editAgents == []
      ensures entries == map[] && events == []
    {
      owner := sender;
      insertAgents := [];
      editAgents := [];
      entries := map[];
      events := [];
    }

    function GetAuthorizedInsertAgents(): (agents: seq<Address>)
      reads this
      requires Valid()
      ensures NoDuplicates(agents)
    {
      insertAgents
    }

    function GetAuthorizedEditAgents(): (agents: seq<Address>)
      reads this
      requires Valid()
      ensures NoDuplicates(agents)
    {
      editAgents
    }

    /** The gate of `insert`. */
    function IsAuthorizedInsertAgent(agent: Address): bool
      reads this
    {
      agent in insertAgents
    }

    /** The gate of `modifyCreditor`. */
    function IsAuthorizedEditAgent(agent: Address): bool
      reads this
    {
      agent in editAgents
    }

    /** `get`: the four stored fields, or NotFound for a hash never inserted. */
    function Get(entryHash: EntryHash): (r: Result<Entry, Revert>)
      reads this
      requires Valid()
      ensures r.Success? <==> entryHash in entries
      ensures r.Success? ==> r.value == entries[entryHash] && Identifies(entryHash, r.value)
      ensures r.Failure? ==> r.error == NotFound
    {
      if entryHash in entries then Success(entries[entryHash]) else Failure(NotFound)
    }

    /** `getTermsContractParametersHash`: the hash of the stored parameters. */
    function GetTermsContractParametersHash(entryHash: EntryHash): (r: Result<ParametersHash, Revert>)
      reads this
      requires Valid()
      ensures r.Success? <==> entryHash in entries
      ensures r.Success? ==> r.value == ParametersHash(entryHash.termsContractParameters)
      ensures r.Failure? ==> r.error == NotFound
    {
      if entryHash in entries then Success(ParametersHash(entries[entryHash].termsContractParameters))
      else Failure(NotFound)
    }

    /** `addAuthorizedInsertAgent`, owner only; adding a listed agent is a no-op. */
    method AddAuthorizedInsertAgent(sender: Address, agent: Address) returns (r: Status)
      requires Valid()
      modifies this
      ensures Valid()
      ensures r == Done <==> sender == old(owner)
      ensures r.Reverted? ==> r.reason == Unauthorized && unchanged(this)
      ensures r == Done && agent in old(insertAgents) ==> unchanged(this)
      ensures r == Done && agent !in old(insertAgents) ==>
                && insertAgents == old(insertAgents) + [agent]
                && events == old(events) + [LogAddAuthorizedInsertAgent(agent)]
                && owner == old(owner) && editAgents == old(editAgents) && entries == old(entries)
    {
      if sender != owner {
        return Reverted(Unauthorized);
      }
      r := Done;
      if agent !in insertAgents {
        AppendNoDuplicates(insertAgents, agent);
        insertAgents := insertAgents + [agent];
        events := events + [LogAddAuthorizedInsertAgent(agent)];
      }
    }

    /** `addAuthorizedEditAgent`, owner only; adding a listed agent is a no-op. */
    method AddAuthorizedEditAgent(sender: Address, agent: Address) returns (r: Status)
      requires Valid()
      modifies this
      ensures Valid()
      ensures r == Done <==> sender == old(owner)
      ensures r.Reverted? ==> r.reason == Unauthorized && unchanged(this)
      ensures r == Done && agent in old(editAgents) ==> unchanged(this)
      ensures r == Done && agent !in old(editAgents) ==>
                && editAgents == old(editAgents) + [agent]
                && events == old(events) + [LogAddAuthorizedEditAgent(agent)]
                && owner == old(owner) && insertAgents == old(insertAgents) && entries == old(entries)
    {
      if sender != owner {
        return Reverted(Unauthorized);
      }
      r := Done;
      if agent !in editAgents {
        AppendNoDuplicates(editAgents, agent);
        editAgents := editAgents + [agent];
        events := events + [LogAddAuthorizedEditAgent(agent)];
      }
    }

    /** `revokeInsertAgentAuthorization`, owner only; revoking an unlisted agent is a no-op. */
    method RevokeInsertAgentAuthorization(sender: Address, agent: Address) returns (r: Status)
      requires Valid()
      modifies this
      ensures Valid()
      ensures r == Done <==> sender == old(owner)
      ensures r.Reverted? ==> r.reason == Unauthorized && unchanged(this)
      ensures r == Done && agent !in old(insertAgents) ==> unchanged(this)
      ensures r == Done && agent in old(insertAgents) ==>
                && insertAgents == Without(old(insertAgents), agent)
                && |insertAgents| == |old(insertAgents)| - 1
                && events == old(events) + [LogRevokeInsertAgentAuthorization(agent)]
                && owner == old(owner) && editAgents == old(editAgents) && entries == old(entries)
      ensures agent !in insertAgents || r.Reverted?
    {
      if sender != owner {
        return Reverted(Unauthorized);
      }
      r := Done;
      if agent in insertAgents {
        WithoutNoDuplicates(insertAgents, agent);
        insertAgents := Without(insertAgents, agent);
        events := events + [LogRevokeInsertAgentAuthorization(agent)];
      }
    }

    /** `revokeEditAgentAuthorization`, owner only; revoking an unlisted agent is a no-op. */
    method RevokeEditAgentAuthorization(sender: Address, agent: Address) returns (r: Status)
      requires Valid()
      modifies this
      ensures Valid()
      ensures r == Done <==> sender == old(owner)
      ensures r.Reverted? ==> r.reason == Unauthorized && unchanged(this)
      ensures r == Done && agent !in old(editAgents) ==> unchanged(this)
      ensures r == Done && agent in old(editAgents) ==>
                && editAgents == Without(old(editAgents), agent)
                && |editAgents| == |old(editAgents)| - 1
                && events == old(events) + [LogRevokeEditAgentAuthorization(agent)]
                && owner == old(owner) && insertAgents == old(insertAgents) && entries == old(entries)
      ensures agent !in editAgents || r.Reverted?
    {
      if sender != owner {
        return Reverted(Unauthorized);
      }
      r := Done;
      if agent in editAgents {
        WithoutNoDuplicates(editAgents, agent);
        editAgents := Without(editAgents, agent);
        events := events + [LogRevokeEditAgentAuthorization(agent)];
      }
    }

    /** `insert`, insert agents only: stores a new entry under its hash and
        returns that hash; a null creditor and an existing hash are refused. */
    method Insert(sender: Address, version: Address, creditor: Address, termsContract: Address,
                  termsContractParameters: Bytes, salt: Uint256)
      returns (r: Result<EntryHash, Revert>)
      requires Valid()
      modifies this
      ensures Valid()
      ensures var h := HashOf(Entry(version, creditor, termsContract, termsContractParameters), salt);
              && (sender !in old(insertAgents) ==> r == Failure(Unauthorized))
              && (sender in old(insertAgents) && creditor == NULL_ADDRESS ==> r == Failure(InvalidArgument))
              && (sender in old(insertAgents) && creditor != NULL_ADDRESS && h in old(entries) ==>
                    r == Failure(Collision))
              && (r.Success? <==> sender in old(insertAgents) && creditor != NULL_ADDRESS && h !in old(entries))
      ensures r.Failure? ==> unchanged(this)
      ensures r.Success? ==>
                && r.value == HashOf(Entry(version, creditor, termsContract, termsContractParameters), salt)
                && entries == old(entries)[r.value := Entry(version, creditor, termsContract, termsContractParameters)]
                && events == old(events) + [LogInsertEntry(r.value, version, creditor, termsContract,
                                                           ParametersHash(termsContractParameters))]
                && owner == old(owner) && insertAgents == old(insertAgents) && editAgents == old(editAgents)
    {
      if !IsAuthorizedInsertAgent(sender) {
        return Failure(Unauthorized);
      }
      if creditor == NULL_ADDRESS {
        return Failure(InvalidArgument);
      }
      var entry := Entry(version, creditor, termsContract, termsContractParameters);
      var entryHash := HashOf(entry, salt);
      if entryHash in entries {
        return Failure(Collision);
      }
      entries := entries[entryHash := entry];
      events := events + [LogInsertEntry(entryHash, version, creditor, termsContract,
                                         ParametersHash(termsContractParameters))];
      r := Success(entryHash);
    }

    /** `modifyCreditor`, edit agents only: replaces the creditor of an
        existing entry and nothing else. */
    method ModifyCreditor(sender: Address, entryHash: EntryHash, newCreditor: Address) returns (r: Status)
      requires Valid()
      modifies this
      ensures Valid()
      ensures sender !in old(editAgents) ==> r == Reverted(Unauthorized)
      ensures sender in old(editAgents) && entryHash !in old(entries) ==> r == Reverted(NotFound)
      ensures sender in old(editAgents) && entryHash in old(entries) && newCreditor == NULL_ADDRESS ==>
                r == Reverted(InvalidArgument)
      ensures r == Done <==> sender in old(editAgents) && entryHash in old(entries) && newCreditor != NULL_ADDRESS
      ensures r.Reverted? ==> unchanged(this)
      ensures r == Done ==>
                && entries == old(entries)[entryHash := old(entries)[entryHash].(creditor := newCreditor)]
                && events == old(events) + [LogModifyEntryCreditor(entryHash, old(entries)[entryHash].creditor, newCreditor)]
                && owner == old(owner) && insertAgents == old(insertAgents) && editAgents == old(editAgents)
    {
      if !IsAuthorizedEditAgent(sender) {
        return Reverted(Unauthorized);
      }
      if entryHash !in entries {
        return Reverted(NotFound);
      }
      if newCreditor == NULL_ADDRESS {
        return Reverted(InvalidArgument);
      }
      var previous := entries[entryHash];
      entries := entries[entryHash := previous.(creditor := newCreditor)];
      events := events + [LogModifyEntryCreditor(entryHash, previous.creditor, newCreditor)];
      r := Done;
    }

    /** `transferOwnership`, owner only; the null address is refused. */
    method TransferOwnership(sender: Address, newOwner: Address) returns (r: Status)
      requires Valid()
      modifies this
      ensures Valid()
      ensures sender != old(owner) ==> r == Reverted(Unauthorized)
      ensures sender == old(owner) && newOwner == NULL_ADDRESS ==> r == Reverted(InvalidArgument)
      ensures r == Done <==> sender == old(owner) && newOwner != NULL_ADDRESS
      ensures r.Reverted? ==> unchanged(this)
      ensures r == Done ==>
                && owner == newOwner
                && events == old(events) + [OwnershipTransferred(old(owner), newOwner)]
                && insertAgents == old(insertAgents) && editAgents == old(editAgents) && entries == old(entries)
    {
      if sender != owner {
        return Reverted(Unauthorized);
      }
      if newOwner == NULL_ADDRESS {
        return Reverted(InvalidArgument);
      }
      events := events + [OwnershipTransferred(owner, newOwner)];
      owner := newOwner;
      r := Done;
    }
  }

  // The registry's test sequence, replayed in short pieces against the
  // contracts above. Addresses 100-110 stand for the test accounts.

  /** Before any agent is authorised, inserting and editing revert. */
  method ScenarioNoAgents(params: Bytes)
  {
    var owner, creditor1, terms, version, agent1 := 100, 101, 103, 110, 104;
    var reg := new DebtRegistry(owner);
    var inserted := reg.Insert(owner, version, creditor1, terms, params, 1);
    assert inserted == Failure(Unauthorized);
    var status := reg.ModifyCreditor(owner, HashOf(Entry(version, creditor1, terms, params), 1), agent1);
    assert status == Reverted(Unauthorized);
  }

  /** A fresh registry whose owner has authorized two insert agents. */
  method RegistryWithInserters(owner: Address, agent1: Address, agent2: Address) returns (reg: DebtRegistry)
    requires agent1 != agent2
    ensures fresh(reg) && reg.Valid()
    ensures reg.owner == owner && reg.insertAgents == [agent1, agent2] && reg.editAgents == []
    ensures reg.entries == map[]
    ensures reg.events == [LogAddAuthorizedInsertAgent(agent1), LogAddAuthorizedInsertAgent(agent2)]
  {
    reg := new DebtRegistry(owner);
    var status := reg.AddAuthorizedInsertAgent(owner, agent1);
    assert reg.events == [LogAddAuthorizedInsertAgent(agent1)];
    assert reg.GetAuthorizedInsertAgents() == [agent1];
    status := reg.AddAuthorizedInsertAgent(owner, agent2);
  }

  /** Insert agents are listed in order and logged; an inserted entry reads
      back; insert agents cannot edit and others cannot insert. */
  method ScenarioInsertAgents(params: Bytes)
  {
    var owner, creditor1, terms, version := 100, 101, 103, 110;
    var agent1, agent2, agent3 := 104, 105, 106;
    var reg := RegistryWithInserters(owner, agent1, agent2);
    assert reg.GetAuthorizedInsertAgents() == [agent1, agent2];

    var inserted := reg.Insert(agent3, version, creditor1, terms, params, 2);
    assert inserted == Failure(Unauthorized);

    inserted := reg.Insert(agent1, version, creditor1, terms, params, 3);
    assert inserted.Success?;
    var first := inserted.value;
    assert reg.events[|reg.events| - 1] == LogInsertEntry(first, version, creditor1, terms, ParametersHash(params));
    assert reg.Get(first) == Success(Entry(version, creditor1, terms, params));
    assert reg.GetTermsContractParametersHash(first) == Success(ParametersHash(params));
    var status := reg.ModifyCreditor(agent1, first, agent1);
    assert status == Reverted(Unauthorized);
  }

  /** Edit agents are listed in order; an edit agent changes the creditor
      and nothing else; edit agents cannot insert. */
  method ScenarioEditAgents(params: Bytes)
  {
    var owner, creditor1, creditor2, terms, version := 100, 101, 102, 103, 110;
    var agent1, agent3, agent4 := 104, 106, 107;
    var reg := new DebtRegistry(owner);
    var status := reg.AddAuthorizedInsertAgent(owner, agent1);
    status := reg.AddAuthorizedEditAgent(owner, agent3);
    assert reg.events[|reg.events| - 1] == LogAddAuthorizedEditAgent(agent3);
    assert reg.GetAuthorizedEditAgents() == [agent3];
    status := reg.AddAuthorizedEditAgent(owner, agent4);
    assert reg.GetAuthorizedEditAgents() == [agent3, agent4];

    var inserted := reg.Insert(agent1, version, creditor1, terms, params, 5);
    assert inserted.Success?;
    var edited := inserted.value;
    status := reg.ModifyCreditor(agent3, edited, creditor2);
    assert status == Done;
    assert reg.events[|reg.events| - 1] == LogModifyEntryCreditor(edited, creditor1, creditor2);
    assert reg.Get(edited) == Success(Entry(version, creditor2, terms, params));

    inserted := reg.Insert(agent3, version, creditor1, terms, params, 6);
    assert inserted == Failure(Unauthorized);
    inserted := reg.Insert(agent4, version, creditor1, terms, params, 6);
    assert inserted == Failure(Unauthorized);
  }

  /** Revocation takes the agent out of its list and its next call reverts. */
  method ScenarioRevocation(params: Bytes)
  {
    var owner, creditor1, creditor2, terms, version := 100, 101, 102, 103, 110;
    var agent1, agent2, agent3, agent4 := 104, 105, 106, 107;
    var reg := RegistryWithInserters(owner, agent1, agent2);
    var status := reg.AddAuthorizedEditAgent(owner, agent3);
    status := reg.AddAuthorizedEditAgent(owner, agent4);
    var inserted := reg.Insert(agent1, version, creditor1, terms, params, 1);
    assert inserted.Success?;
    var entry := inserted.value;
    status := reg.ModifyCreditor(agent3, entry, creditor2);
    assert status == Done;

    status := reg.RevokeInsertAgentAuthorization(owner, agent2);
    assert reg.events[|reg.events| - 1] == LogRevokeInsertAgentAuthorization(agent2);
    assert reg.GetAuthorizedInsertAgents() == [agent1];
    inserted := reg.Insert(agent2, version, creditor1, terms, params, 7);
    assert inserted == Failure(Unauthorized);

    status := reg.RevokeEditAgentAuthorization(owner, agent3);
    assert reg.events[|reg.events| - 1] == LogRevokeEditAgentAuthorization(agent3);
    assert reg.GetAuthorizedEditAgents() == [agent4];
    status := reg.ModifyCreditor(agent3, entry, creditor1);
    assert status == Reverted(Unauthorized);
  }

  /** Inserting the identical entry twice collides; editing an entry never
      inserted reverts. */
  method ScenarioCollisionAndMissing(params: Bytes)
  {
    var owner, creditor1, creditor2, terms, version := 100, 101, 102, 103, 110;
    var agent1, agent4 := 104, 107;
    var reg := new DebtRegistry(owner);
    var status := reg.AddAuthorizedInsertAgent(owner, agent1);
    status := reg.AddAuthorizedEditAgent(owner, agent4);
    var inserted := reg.Insert(agent1, version, creditor1, terms, params, 8);
    assert inserted.Success?;
    inserted := reg.Insert(agent1, version, creditor1, terms, params, 8);
    assert inserted == Failure(Collision);
    status := reg.ModifyCreditor(agent4, HashOf(Entry(version, creditor1, terms, params), 9), creditor2);
    assert status == Reverted(NotFound);
  }

  /** Only the owner manages agents and ownership. */
  method ScenarioOwnership()
  {
    var owner, attacker, newOwner := 100, 108, 109;
    var reg := new DebtRegistry(owner);
    var status := reg.AddAuthorizedInsertAgent(attacker, attacker);
    assert status == Reverted(Unauthorized);
    status := reg.AddAuthorizedEditAgent(attacker, attacker);
    assert status == Reverted(Unauthorized);
    status := reg.RevokeInsertAgentAuthorization(attacker, attacker);
    assert status == Reverted(Unauthorized);
    status := reg.RevokeEditAgentAuthorization(attacker, attacker);
    assert status == Reverted(Unauthorized);
    status := reg.TransferOwnership(attacker, attacker);
    assert status == Reverted(Unauthorized);
    status := reg.TransferOwnership(owner, newOwner);
    assert reg.owner == newOwner;
  }
}
