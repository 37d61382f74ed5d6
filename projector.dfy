/**
 The vault event projector as pure transitions over the three entity tables.

 Each handler of the XStore mapping loads a vault, changes some fields of it
 (and possibly of one XToken or Asset) and saves them back. Here the tables are
 values and each handler is a function from the tables before the event to the
 tables after it. The in-place store in module XStore is specified by these.
 */
module Projector {
  import opened Lists

  /** A vault id as carried by the event; the store keys the vault by its decimal
      string, which is a one-to-one encoding, so keying by the integer is equivalent. */
  type VaultId = int

  /** A contract address; the store keys XToken and Asset by its lower-case hex
      string, again a one-to-one encoding. */
  type Address = seq<bv8>

  /** The amount `totalSupply` moves by per holding added or removed. */
  const SupplyUnit: int := 10000

  datatype Option<T> = None | Some(value: T)

  /** The ambient block of the creation event. */
  datatype Block = Block(timestamp: int, number: int)

  datatype Vault = Vault(
    createdAtTimestamp: int,
    createdAtBlockNumber: int,
    negateEligibility: bool,
    eligibilities: seq<int>,
    holdings: seq<int>,
    isFinalized: bool,
    isClosed: bool,
    flipEligOnRedeem: bool,
    is1155: bool,
    rangeStart: int,
    rangeEnd: int,
    xToken: Option<Address>,
    asset: Option<Address>,
    manager: Option<Address>)

  datatype XToken = XToken(symbol: string, name: string, totalSupply: int)

  datatype Asset = Asset(symbol: string, name: string)

  /** The token-contract calls that give a symbol and a name for an address. */
  datatype TokenMetadata = TokenMetadata(symbol: Address -> string, name: Address -> string)

  datatype Tables = Tables(
    vaults: map<VaultId, Vault>,
    xTokens: map<Address, XToken>,
    assets: map<Address, Asset>)

  const Empty: Tables := Tables(map[], map[], map[])

  /** The field values a freshly created vault carries. */
  predicate HasCreationDefaults(v: Vault, block: Block)
  {
    && v.createdAtTimestamp == block.timestamp
    && v.createdAtBlockNumber == block.number
    && v.negateEligibility
    && v.eligibilities == []
    && v.holdings == []
    && !v.isFinalized && !v.isClosed && !v.flipEligOnRedeem && !v.is1155
    && v.rangeStart == 0 && v.rangeEnd == 0
  }

  /** The vault exists and points at an XToken that exists. */
  predicate Linked(t: Tables, vaultId: VaultId)
  {
    && vaultId in t.vaults
    && t.vaults[vaultId].xToken.Some?
    && t.vaults[vaultId].xToken.value in t.xTokens
  }

  /** The invariant the handlers keep: eligibility lists have no duplicates and
      every relation a vault holds points at an entity that exists. */
  predicate Wf(t: Tables)
  {
    forall k :: k in t.vaults ==>
      && NoDup(t.vaults[k].eligibilities)
      && (t.vaults[k].xToken.Some? ==> t.vaults[k].xToken.value in t.xTokens)
      && (t.vaults[k].asset.Some? ==> t.vaults[k].asset.value in t.assets)
  }

  /** Only the vault `vaultId` may differ between `t` and `r`, and no vault appears or disappears. */
  predicate OtherVaultsUnchanged(t: Tables, r: Tables, vaultId: VaultId)
  {
    && r.vaults.Keys == t.vaults.Keys
    && forall k :: k in t.vaults && k != vaultId ==> r.vaults[k] == t.vaults[k]
  }

  /** Resolve-or-create, shared by XToken and Asset: an existing entity is reused
      unmodified, an unseen key gets exactly one new entity. */
  function Resolve<E>(m: map<Address, E>, key: Address, created: E): (r: map<Address, E>)
    ensures r.Keys == m.Keys + {key}
    ensures |r| == if key in m then |m| else |m| + 1
    ensures forall a :: a in m ==> r[a] == m[a]
    ensures key !in m ==> r[key] == created
  {
    if key in m then m else m[key := created]
  }

  /** VaultAdded: the vault is (re)written with the creation defaults. A vault
      already stored keeps the relations the event does not write. */
  function NewVaultAdded(t: Tables, block: Block, vaultId: VaultId): (r: Tables)
    ensures r.xTokens == t.xTokens && r.assets == t.assets
    ensures r.vaults.Keys == t.vaults.Keys + {vaultId}
    ensures forall k :: k in t.vaults && k != vaultId ==> r.vaults[k] == t.vaults[k]
    ensures HasCreationDefaults(r.vaults[vaultId], block)
    ensures vaultId !in t.vaults ==>
      r.vaults[vaultId].xToken == None && r.vaults[vaultId].asset == None && r.vaults[vaultId].manager == None
    ensures vaultId in t.vaults ==>
      && r.vaults[vaultId].xToken == t.vaults[vaultId].xToken
      && r.vaults[vaultId].asset == t.vaults[vaultId].asset
      && r.vaults[vaultId].manager == t.vaults[vaultId].manager
    ensures Wf(t) ==> Wf(r)
  {
    var prior := if vaultId in t.vaults then Some(t.vaults[vaultId]) else None;
    var v := Vault(
      block.timestamp, block.number, true, [], [], false, false, false, false, 0, 0,
      if prior.Some? then prior.value.xToken else None,
      if prior.Some? then prior.value.asset else None,
      if prior.Some? then prior.value.manager else None);
    t.(vaults := t.vaults[vaultId := v])
  }

  /** XTokenAddressSet: resolve-or-create the XToken and link the vault to it. */
  function XTokenAddressSet(t: Tables, meta: TokenMetadata, vaultId: VaultId, token: Address): (r: Tables)
    ensures vaultId !in t.vaults ==> r == t
    ensures vaultId in t.vaults ==>
      && OtherVaultsUnchanged(t, r, vaultId)
      && r.vaults[vaultId] == t.vaults[vaultId].(xToken := Some(token))
      && r.assets == t.assets
      && r.xTokens.Keys == t.xTokens.Keys + {token}
      && (forall a :: a in t.xTokens ==> r.xTokens[a] == t.xTokens[a])
      && (token !in t.xTokens ==> r.xTokens[token] == XToken(meta.symbol(token), meta.name(token), 0))
      && Linked(r, vaultId)
    ensures Wf(t) ==> Wf(r)
  {
    if vaultId !in t.vaults then t
    else
      var created := XToken(meta.symbol(token), meta.name(token), 0);
      Tables(
        t.vaults[vaultId := t.vaults[vaultId].(xToken := Some(token))],
        Resolve(t.xTokens, token, created),
        t.assets)
  }

  /** NftAddressSet: resolve-or-create the Asset and link the vault to it. */
  function NftAddressSet(t: Tables, meta: TokenMetadata, vaultId: VaultId, asset: Address): (r: Tables)
    ensures vaultId !in t.vaults ==> r == t
    ensures vaultId in t.vaults ==>
      && OtherVaultsUnchanged(t, r, vaultId)
      && r.vaults[vaultId] == t.vaults[vaultId].(asset := Some(asset))
      && r.xTokens == t.xTokens
      && r.assets.Keys == t.assets.Keys + {asset}
      && (forall a :: a in t.assets ==> r.assets[a] == t.assets[a])
      && (asset !in t.assets ==> r.assets[asset] == Asset(meta.symbol(asset), meta.name(asset)))
    ensures Wf(t) ==> Wf(r)
  {
    if vaultId !in t.vaults then t
    else
      var created := Asset(meta.symbol(asset), meta.name(asset));
      Tables(
        t.vaults[vaultId := t.vaults[vaultId].(asset := Some(asset))],
        t.xTokens,
        Resolve(t.assets, asset, created))
  }

  /** NegateEligibilitySet writes `negateEligibility` and nothing else. */
  function NegateEligibilitySet(t: Tables, vaultId: VaultId, negate: bool): (r: Tables)
    ensures OtherVaultsUnchanged(t, r, vaultId) && r.xTokens == t.xTokens && r.assets == t.assets
    ensures vaultId !in t.vaults ==> r == t
    ensures vaultId in t.vaults ==> r.vaults[vaultId] == t.vaults[vaultId].(negateEligibility := negate)
    ensures Wf(t) ==> Wf(r)
  {
    if vaultId !in t.vaults then t
    else t.(vaults := t.vaults[vaultId := t.vaults[vaultId].(negateEligibility := negate)])
  }

  /** ManagerSet writes `manager` and nothing else. */
  function ManagerSet(t: Tables, vaultId: VaultId, manager: Address): (r: Tables)
    ensures OtherVaultsUnchanged(t, r, vaultId) && r.xTokens == t.xTokens && r.assets == t.assets
    ensures vaultId !in t.vaults ==> r == t
    ensures vaultId in t.vaults ==> r.vaults[vaultId] == t.vaults[vaultId].(manager := Some(manager))
    ensures Wf(t) ==> Wf(r)
  {
    if vaultId !in t.vaults then t
    else t.(vaults := t.vaults[vaultId := t.vaults[vaultId].(manager := Some(manager))])
  }

  /** HoldingsAdded appends the id (duplicates allowed) and raises the linked
      XToken's supply by one unit. */
  function HoldingsAdded(t: Tables, vaultId: VaultId, id: int): (r: Tables)
    requires vaultId in t.vaults ==> Linked(t, vaultId)
    ensures OtherVaultsUnchanged(t, r, vaultId) && r.assets == t.assets
    ensures vaultId !in t.vaults ==> r == t
    ensures vaultId in t.vaults ==>
      var old_ := t.vaults[vaultId];
      var key := old_.xToken.value;
      && r.vaults[vaultId] == old_.(holdings := old_.holdings + [id])
      && multiset(r.vaults[vaultId].holdings) == multiset(old_.holdings) + multiset{id}
      && r.xTokens.Keys == t.xTokens.Keys
      && r.xTokens[key].totalSupply == t.xTokens[key].totalSupply + SupplyUnit
      && r.xTokens[key] == t.xTokens[key].(totalSupply := r.xTokens[key].totalSupply)
      && (forall a :: a in t.xTokens && a != key ==> r.xTokens[a] == t.xTokens[a])
    ensures Wf(t) ==> Wf(r)
  {
    if vaultId !in t.vaults then t
    else
      var v := t.vaults[vaultId];
      var key := v.xToken.value;
      var x := t.xTokens[key];
      Tables(
        t.vaults[vaultId := v.(holdings := v.holdings + [id])],
        t.xTokens[key := x.(totalSupply := x.totalSupply + SupplyUnit)],
        t.assets)
  }

  /** HoldingsRemoved takes out the first copy of a present id and lowers the linked
      XToken's supply by one unit; an absent id changes nothing at all. */
  function HoldingsRemoved(t: Tables, vaultId: VaultId, id: int): (r: Tables)
    requires vaultId in t.vaults && id in t.vaults[vaultId].holdings ==> Linked(t, vaultId)
    ensures OtherVaultsUnchanged(t, r, vaultId) && r.assets == t.assets
    ensures vaultId !in t.vaults || id !in t.vaults[vaultId].holdings ==> r == t
    ensures vaultId in t.vaults && id in t.vaults[vaultId].holdings ==>
      var old_ := t.vaults[vaultId];
      var key := old_.xToken.value;
      && r.vaults[vaultId] == old_.(holdings := RemoveFirst(old_.holdings, id))
      && r.xTokens.Keys == t.xTokens.Keys
      && r.xTokens[key].totalSupply == t.xTokens[key].totalSupply - SupplyUnit
      && r.xTokens[key] == t.xTokens[key].(totalSupply := r.xTokens[key].totalSupply)
      && (forall a :: a in t.xTokens && a != key ==> r.xTokens[a] == t.xTokens[a])
    ensures Wf(t) ==> Wf(r)
  {
    if vaultId !in t.vaults then t
    else
      var v := t.vaults[vaultId];
      if id !in v.holdings then t
      else
        var key := v.xToken.value;
        var x := t.xTokens[key];
        Tables(
          t.vaults[vaultId := v.(holdings := RemoveFirst(v.holdings, id))],
          t.xTokens[key := x.(totalSupply := x.totalSupply - SupplyUnit)],
          t.assets)
  }

  /** IsEligibleSet applies the eligibility toggle to the vault's list and touches nothing else. */
  function IsEligibleSet(t: Tables, vaultId: VaultId, id: int, eligible: bool): (r: Tables)
    ensures OtherVaultsUnchanged(t, r, vaultId) && r.xTokens == t.xTokens && r.assets == t.assets
    ensures vaultId !in t.vaults ==> r == t
    ensures vaultId in t.vaults ==>
      var old_ := t.vaults[vaultId];
      && r.vaults[vaultId] == old_.(eligibilities := r.vaults[vaultId].eligibilities)
      && (eligible == (id in old_.eligibilities) ==> r == t)
      && (eligible && id !in old_.eligibilities ==> r.vaults[vaultId].eligibilities == old_.eligibilities + [id])
      && (!eligible && id in old_.eligibilities ==>
            r.vaults[vaultId].eligibilities == RemoveFirst(old_.eligibilities, id))
    ensures Wf(t) ==> Wf(r)
  {
    if vaultId !in t.vaults then t
    else
      var v := t.vaults[vaultId];
      if eligible == (id in v.eligibilities) then t
      else
        var e := SetEligible(v.eligibilities, id, eligible);
        assert NoDup(v.eligibilities) ==> NoDup(e) by {
          if NoDup(v.eligibilities) {
            SetEligibleNoDup(v.eligibilities, id, eligible);
          }
        }
        t.(vaults := t.vaults[vaultId := v.(eligibilities := e)])
  }

  /** IsFinalizedSet writes `isFinalized` and nothing else. */
  function IsFinalizedSet(t: Tables, vaultId: VaultId, finalized: bool): (r: Tables)
    ensures OtherVaultsUnchanged(t, r, vaultId) && r.xTokens == t.xTokens && r.assets == t.assets
    ensures vaultId !in t.vaults ==> r == t
    ensures vaultId in t.vaults ==> r.vaults[vaultId] == t.vaults[vaultId].(isFinalized := finalized)
    ensures Wf(t) ==> Wf(r)
  {
    if vaultId !in t.vaults then t
    else t.(vaults := t.vaults[vaultId := t.vaults[vaultId].(isFinalized := finalized)])
  }

  /** IsClosedSet writes `isClosed` and nothing else. */
  function IsClosedSet(t: Tables, vaultId: VaultId, closed: bool): (r: Tables)
    ensures OtherVaultsUnchanged(t, r, vaultId) && r.xTokens == t.xTokens && r.assets == t.assets
    ensures vaultId !in t.vaults ==> r == t
    ensures vaultId in t.vaults ==> r.vaults[vaultId] == t.vaults[vaultId].(isClosed := closed)
    ensures Wf(t) ==> Wf(r)
  {
    if vaultId !in t.vaults then t
    else t.(vaults := t.vaults[vaultId := t.vaults[vaultId].(isClosed := closed)])
  }

  /** Is1155Set writes `is1155` and nothing else. */
  function Is1155Set(t: Tables, vaultId: VaultId, is1155: bool): (r: Tables)
    ensures OtherVaultsUnchanged(t, r, vaultId) && r.xTokens == t.xTokens && r.assets == t.assets
    ensures vaultId !in t.vaults ==> r == t
    ensures vaultId in t.vaults ==> r.vaults[vaultId] == t.vaults[vaultId].(is1155 := is1155)
    ensures Wf(t) ==> Wf(r)
  {
    if vaultId !in t.vaults then t
    else t.(vaults := t.vaults[vaultId := t.vaults[vaultId].(is1155 := is1155)])
  }

  /** RangeSet writes `rangeStart` and `rangeEnd` together and nothing else. */
  function RangeSet(t: Tables, vaultId: VaultId, rangeStart: int, rangeEnd: int): (r: Tables)
    ensures OtherVaultsUnchanged(t, r, vaultId) && r.xTokens == t.xTokens && r.assets == t.assets
    ensures vaultId !in t.vaults ==> r == t
    ensures vaultId in t.vaults ==>
      r.vaults[vaultId] == t.vaults[vaultId].(rangeStart := rangeStart, rangeEnd := rangeEnd)
    ensures Wf(t) ==> Wf(r)
  {
    if vaultId !in t.vaults then t
    else t.(vaults := t.vaults[vaultId := t.vaults[vaultId].(rangeStart := rangeStart, rangeEnd := rangeEnd)])
  }
}
