/**
 The XStore mapping as the indexer runs it: a store of three tables that each
 handler updates in place, loading a vault, changing its fields and saving it
 back. Every handler is proved to leave the store in the state the matching
 transition of module Projector describes.
 */
module XStore {
  import opened Lists
  import opened Projector

  class Store {
    var vaults: map<VaultId, Vault>
    var xTokens: map<Address, XToken>
    var assets: map<Address, Asset>
    /** Symbol and name lookups for addresses seen for the first time. */
    const metadata: TokenMetadata

    /** The three tables as one value. */
    function View(): Tables
      reads this
    {
      Tables(vaults, xTokens, assets)
    }

    constructor (metadata: TokenMetadata)
      ensures View() == Empty && Wf(View())
      ensures this.metadata == metadata
    {
      vaults, xTokens, assets := map[], map[], map[];
      this.metadata := metadata;
    }

    method HandleNewVaultAdded(block: Block, vaultId: VaultId)
      modifies this
      ensures View() == NewVaultAdded(old(View()), block, vaultId)
    {
      var xToken, asset, manager := None, None, None;
      if vaultId in vaults {
        xToken, asset, manager := vaults[vaultId].xToken, vaults[vaultId].asset, vaults[vaultId].manager;
      }
      var vault := Vault(
        block.timestamp, block.number, true, [], [], false, false, false, false, 0, 0,
        xToken, asset, manager);
      vaults := vaults[vaultId := vault];
    }

    method HandleXTokenAddressSet(vaultId: VaultId, token: Address)
      modifies this
      ensures View() == XTokenAddressSet(old(View()), metadata, vaultId, token)
    {
      if vaultId !in vaults {
        return;
      }
      var vault := vaults[vaultId];
      if token !in xTokens {
        var xtoken := XToken(metadata.symbol(token), metadata.name(token), 0);
        xTokens := xTokens[token := xtoken];
      }
      vault := vault.(xToken := Some(token));
      vaults := vaults[vaultId := vault];
    }

    method HandleNftAddressSet(vaultId: VaultId, asset: Address)
      modifies this
      ensures View() == NftAddressSet(old(View()), metadata, vaultId, asset)
    {
      if vaultId !in vaults {
        return;
      }
      var vault := vaults[vaultId];
      if asset !in assets {
        var entity := Asset(metadata.symbol(asset), metadata.name(asset));
        assets := assets[asset := entity];
      }
      vault := vault.(asset := Some(asset));
      vaults := vaults[vaultId := vault];
    }

    method HandleNegateEligibilitySet(vaultId: VaultId, negate: bool)
      modifies this
      ensures View() == NegateEligibilitySet(old(View()), vaultId, negate)
    {
      if vaultId !in vaults {
        return;
      }
      var vault := vaults[vaultId];
      vault := vault.(negateEligibility := negate);
      vaults := vaults[vaultId := vault];
    }

    method HandleManagerSet(vaultId: VaultId, manager: Address)
      modifies this
      ensures View() == ManagerSet(old(View()), vaultId, manager)
    {
      if vaultId !in vaults {
        return;
      }
      var vault := vaults[vaultId];
      vault := vault.(manager := Some(manager));
      vaults := vaults[vaultId := vault];
    }

    /** The linked XToken must exist: the mapping dereferences it unconditionally. */
    method HandleHoldingsAdded(vaultId: VaultId, id: int)
      requires vaultId in vaults ==> Linked(View(), vaultId)
      modifies this
      ensures View() == HoldingsAdded(old(View()), vaultId, id)
    {
      if vaultId !in vaults {
        return;
      }
      var vault := vaults[vaultId];
      var holdings := vault.holdings;
      holdings := holdings + [id];
      vault := vault.(holdings := holdings);
      vaults := vaults[vaultId := vault];

      var key := vault.xToken.value;
      var xtoken := xTokens[key];
      xtoken := xtoken.(totalSupply := xtoken.totalSupply + SupplyUnit);
      xTokens := xTokens[key := xtoken];
    }

    /** The linked XToken must exist whenever the id is found: the mapping then dereferences it. */
    method HandleHoldingsRemoved(vaultId: VaultId, id: int)
      requires vaultId in vaults && id in vaults[vaultId].holdings ==> Linked(View(), vaultId)
      modifies this
      ensures View() == HoldingsRemoved(old(View()), vaultId, id)
    {
      if vaultId !in vaults {
        return;
      }
      var vault := vaults[vaultId];
      var holdings := vault.holdings;
      var index := IndexOf(holdings, id);
      if index > -1 {
        RemoveFirstAt(holdings, id, index);
        holdings := holdings[..index] + holdings[index + 1..];
        vault := vault.(holdings := holdings);

        var key := vault.xToken.value;
        var xtoken := xTokens[key];
        xtoken := xtoken.(totalSupply := xtoken.totalSupply - SupplyUnit);
        vaults, xTokens := vaults[vaultId := vault], xTokens[key := xtoken];
      }
    }

    method HandleIsEligibleSet(vaultId: VaultId, id: int, eligible: bool)
      modifies this
      ensures View() == IsEligibleSet(old(View()), vaultId, id, eligible)
    {
      if vaultId !in vaults {
        return;
      }
      var vault := vaults[vaultId];
      var eligibilities := vault.eligibilities;
      var index := IndexOf(eligibilities, id);
      if eligible && index == -1 {
        eligibilities := eligibilities + [id];
        vault := vault.(eligibilities := eligibilities);
        vaults := vaults[vaultId := vault];
      } else if !eligible && index > -1 {
        RemoveFirstAt(eligibilities, id, index);
        eligibilities := eligibilities[..index] + eligibilities[index + 1..];
        vault := vault.(eligibilities := eligibilities);
        vaults := vaults[vaultId := vault];
      }
    }

    method HandleIsFinalizedSet(vaultId: VaultId, finalized: bool)
      modifies this
      ensures View() == IsFinalizedSet(old(View()), vaultId, finalized)
    {
      if vaultId !in vaults {
        return;
      }
      var vault := vaults[vaultId];
      vault := vault.(isFinalized := finalized);
      vaults := vaults[vaultId := vault];
    }

    method HandleIsClosedSet(vaultId: VaultId, closed: bool)
      modifies this
      ensures View() == IsClosedSet(old(View()), vaultId, closed)
    {
      if vaultId !in vaults {
        return;
      }
      var vault := vaults[vaultId];
      vault := vault.(isClosed := closed);
      vaults := vaults[vaultId := vault];
    }

    method HandleIs1155Set(vaultId: VaultId, is1155: bool)
      modifies this
      ensures View() == Is1155Set(old(View()), vaultId, is1155)
    {
      if vaultId !in vaults {
        return;
      }
      var vault := vaults[vaultId];
      vault := vault.(is1155 := is1155);
      vaults := vaults[vaultId := vault];
    }

    method HandleRangeSet(vaultId: VaultId, rangeStart: int, rangeEnd: int)
      modifies this
      ensures View() == RangeSet(old(View()), vaultId, rangeStart, rangeEnd)
    {
      if vaultId !in vaults {
        return;
      }
      var vault := vaults[vaultId];
      vault := vault.(rangeStart := rangeStart, rangeEnd := rangeEnd);
      vaults := vaults[vaultId := vault];
    }
  }
}
