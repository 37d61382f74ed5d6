/**
 Properties of event sequences: what several handlers do together.
 */
module ProjectorProperties {
  import opened Lists
  import opened Projector

  /** HoldingsAdded followed by HoldingsRemoved of the same id restores the supply
      and every table other than the vault's holdings. */
  lemma HoldingsRoundTripSupply(t: Tables, vaultId: VaultId, id: int)
    requires Linked(t, vaultId)
    ensures Linked(HoldingsAdded(t, vaultId, id), vaultId)
    ensures
      var r := HoldingsRemoved(HoldingsAdded(t, vaultId, id), vaultId, id);
      && r.xTokens == t.xTokens
      && r.assets == t.assets
      && OtherVaultsUnchanged(t, r, vaultId)
      && r.vaults[vaultId] == t.vaults[vaultId].(holdings := r.vaults[vaultId].holdings)
  {
  }

  /** The same round trip restores the holdings as a multiset. As a sequence they
      come back only when the id was absent before: otherwise the removal takes the
      earlier copy and the one just appended stays at the end. */
  lemma HoldingsRoundTrip(t: Tables, vaultId: VaultId, id: int)
    requires Linked(t, vaultId)
    ensures Linked(HoldingsAdded(t, vaultId, id), vaultId)
    ensures
      var r := HoldingsRemoved(HoldingsAdded(t, vaultId, id), vaultId, id);
      var before := t.vaults[vaultId].holdings;
      && multiset(r.vaults[vaultId].holdings) == multiset(before)
      && r.vaults[vaultId].holdings == (if id in before then RemoveFirst(before, id) + [id] else before)
      && (id !in before ==> r == t)
  {
    HoldingsRoundTripSupply(t, vaultId, id);
    var v := t.vaults[vaultId];
    var mid := HoldingsAdded(t, vaultId, id);
    assert mid.vaults[vaultId].holdings == v.holdings + [id];
    AppendThenRemoveFirst(v.holdings, id);
    AppendThenRemoveFirstMultiset(v.holdings, id);
    var r := HoldingsRemoved(mid, vaultId, id);
    assert r.vaults[vaultId].holdings == RemoveFirst(v.holdings + [id], id);
    if id !in v.holdings {
      assert r.vaults[vaultId] == v;
      assert r.vaults == t.vaults;
    }
  }

  /** `totalSupply` of the linked XToken moves by exactly one unit per holding
      actually added or removed, and not at all when a removal finds nothing. */
  lemma SupplyTracksHoldings(t: Tables, vaultId: VaultId, id: int)
    requires Linked(t, vaultId)
    ensures
      var key := t.vaults[vaultId].xToken.value;
      var before := |t.vaults[vaultId].holdings|;
      var added := HoldingsAdded(t, vaultId, id);
      var removed := HoldingsRemoved(t, vaultId, id);
      && added.xTokens[key].totalSupply - t.xTokens[key].totalSupply
           == SupplyUnit * (|added.vaults[vaultId].holdings| - before)
      && removed.xTokens[key].totalSupply - t.xTokens[key].totalSupply
           == SupplyUnit * (|removed.vaults[vaultId].holdings| - before)
  {
  }

  /** Applying the same eligibility event twice equals applying it once (for a
      removal, given the duplicate-free list every reachable vault has). */
  lemma IsEligibleSetIdempotent(t: Tables, vaultId: VaultId, id: int, eligible: bool)
    requires eligible || vaultId !in t.vaults || NoDup(t.vaults[vaultId].eligibilities)
    ensures IsEligibleSet(IsEligibleSet(t, vaultId, id, eligible), vaultId, id, eligible)
         == IsEligibleSet(t, vaultId, id, eligible)
  {
    if vaultId in t.vaults {
      var e := t.vaults[vaultId].eligibilities;
      if !eligible && id in e {
        RemoveFirstNoDup(e, id);
      }
    }
  }

  /** After IsEligibleSet on a duplicate-free list, `id` is eligible exactly when
      the event said so and every other id keeps its membership. */
  lemma IsEligibleSetMembership(t: Tables, vaultId: VaultId, id: int, eligible: bool)
    requires vaultId in t.vaults && NoDup(t.vaults[vaultId].eligibilities)
    ensures
      var r := IsEligibleSet(t, vaultId, id, eligible);
      && NoDup(r.vaults[vaultId].eligibilities)
      && forall y :: y in r.vaults[vaultId].eligibilities <==>
           (if y == id then eligible else y in t.vaults[vaultId].eligibilities)
  {
    var e := t.vaults[vaultId].eligibilities;
    SetEligibleNoDup(e, id, eligible);
  }

  /** Linking two vaults to the same token address creates at most one XToken,
      which both vaults then share. */
  lemma SharedXToken(t: Tables, meta: TokenMetadata, vault1: VaultId, vault2: VaultId, token: Address)
    requires vault1 in t.vaults && vault2 in t.vaults
    ensures
      var r := XTokenAddressSet(XTokenAddressSet(t, meta, vault1, token), meta, vault2, token);
      && r.vaults[vault1].xToken == Some(token)
      && r.vaults[vault2].xToken == Some(token)
      && r.xTokens.Keys == t.xTokens.Keys + {token}
      && r.xTokens[token] == if token in t.xTokens then t.xTokens[token]
                             else XToken(meta.symbol(token), meta.name(token), 0)
  {
  }

  /** A vault created, linked to a token, given the same holding twice and then
      relieved of it once still holds it once, backed by one unit of supply. */
  lemma DuplicateHoldingScenario(meta: TokenMetadata, block: Block, token: Address)
    ensures
      var t1 := NewVaultAdded(Empty, block, 1);
      var t2 := XTokenAddressSet(t1, meta, 1, token);
      var t3 := HoldingsAdded(t2, 1, 42);
      var t4 := HoldingsAdded(t3, 1, 42);
      var t5 := HoldingsRemoved(t4, 1, 42);
      && t5.vaults[1].holdings == [42]
      && t5.xTokens[token].totalSupply == SupplyUnit
  {
  }
}
