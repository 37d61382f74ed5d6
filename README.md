# XStore vault projector in Dafny

This project models the XStore event mapping of the NFTX subgraph
(`src/mappings/xstore.ts`). The mapping has twelve handlers. Each one takes a
decoded XStore contract event and updates a keyed store of three entity tables:

- `Vault`, keyed by vault id;
- `XToken`, keyed by token address;
- `Asset`, keyed by NFT contract address.

The model has four modules:

- `Lists` (`lists.dfy`) holds the two list policies of a vault. `holdings`
  allows duplicates, and a removal takes out only the first copy. `eligibilities`
  is kept free of duplicates by the handler. Both removals are an `indexOf`
  search followed by a one-element `splice`. `IndexOf` is a method with a loop.
  `RemoveFirst` and `SetEligible` are the functions that specify the splice and
  the toggle.
- `Projector` (`projector.dfy`) holds the entities as datatypes and the three
  tables as one `Tables` value. It has one transition function per handler,
  whose contract says what the handler writes and what it leaves alone. Each
  transition also preserves `Wf`: eligibility lists have no duplicates, and
  every relation a vault holds points at an existing entity.
- `XStore` (`store.dfy`) is the mapping as the indexer runs it. A `Store` class
  holds the three tables as map fields. Each handler is a method that loads the
  vault, changes fields and saves the result back. Each method is proved to
  reach exactly the state that the matching `Projector` transition describes.
- `ProjectorProperties` (`properties.dfy`) holds facts about several events in
  a row: the holdings round trip, idempotence of eligibility events, the shared
  XToken, and a worked scenario.

Design expectations that the code does not meet, where the model follows the code:

- Adding a holding and then removing the same id restores `holdings` only as a
  multiset. If the id was already held, the removal takes the earlier copy, so
  the list is reordered. `HoldingsRoundTrip` states both halves.
- A vault's `xToken` and `asset` are expected to be set once. The code relinks
  them on every `XTokenAddressSet` or `NftAddressSet` event, and the model does
  the same.

## Model

| member | source | states |
|---|---|---|
| `Lists.IndexOf` | src/mappings/xstore.ts:133 | returns -1 exactly when the id is absent; otherwise returns the index of its first occurrence |
| `Lists.RemoveFirst` | src/mappings/xstore.ts:132-137 | an absent id leaves the list unchanged; a present id makes it exactly one element shorter |
| `Lists.RemoveFirstMultiset` | src/mappings/xstore.ts:133-136 | a removal takes exactly one copy of a present id out of the list's multiset and changes nothing otherwise |
| `Lists.RemoveFirstAt` | src/mappings/xstore.ts:133-136 | splicing at the index of the first occurrence is `RemoveFirst`, and every other element keeps its relative order |
| `Lists.RemoveFirstNoDup` | src/mappings/xstore.ts:164-169 | removing from a duplicate-free list keeps it duplicate-free and leaves the id absent |
| `Lists.AppendThenRemoveFirst` | src/mappings/xstore.ts:113-136 | push followed by first-occurrence removal gives back the list when the id was absent; otherwise it gives the list with its earlier copy removed and the id at the end |
| `Lists.AppendThenRemoveFirstMultiset` | src/mappings/xstore.ts:113-136 | push followed by first-occurrence removal always restores the multiset |
| `Lists.SetEligible` | src/mappings/xstore.ts:155-170 | `true` with the id absent appends it; `false` with the id present removes it; the other two combinations are no-ops; after `true` the id is present |
| `Lists.SetEligibleNoDup` | src/mappings/xstore.ts:155-170 | on a duplicate-free list the result is duplicate-free; the id is a member exactly when the event says so; every other id keeps its membership |
| `Lists.SetEligibleIdempotent` | src/mappings/xstore.ts:158-170 | applying the toggle twice equals applying it once (for `false`, on a duplicate-free list) |
| `Projector.Resolve` | src/mappings/xstore.ts:44-54 | resolve-or-create: existing entities are reused unmodified; an unseen key adds exactly one entity (the map grows by one), and that entity is the one constructed |
| `Projector.NewVaultAdded` | src/mappings/xstore.ts:18-32 | the vault gets the block's timestamp and number, `negateEligibility` true, empty lists, all four flags false and both range ends 0; other vaults, XTokens and Assets are untouched; `Wf` is preserved |
| `Projector.XTokenAddressSet` | src/mappings/xstore.ts:39-54 | no-op on a missing vault; otherwise sets only `vault.xToken`, creates an XToken with supply 0 only for an unseen address, keeps existing XTokens unmodified, and leaves the vault linked; `Wf` is preserved |
| `Projector.NftAddressSet` | src/mappings/xstore.ts:61-75 | no-op on a missing vault; otherwise sets only `vault.asset`, creates an Asset only for an unseen address and keeps existing Assets unmodified; `Wf` is preserved |
| `Projector.NegateEligibilitySet` | src/mappings/xstore.ts:82-88 | no-op on a missing vault; otherwise writes only `negateEligibility`; `Wf` is preserved |
| `Projector.ManagerSet` | src/mappings/xstore.ts:95-101 | no-op on a missing vault; otherwise writes only `manager`; `Wf` is preserved |
| `Projector.HoldingsAdded` | src/mappings/xstore.ts:108-120 | no-op on a missing vault; otherwise appends the id even when it is already held (the multiset gains one copy), raises only the linked XToken's supply by exactly 10000 and changes nothing else |
| `Projector.HoldingsRemoved` | src/mappings/xstore.ts:127-143 | no-op on a missing vault or an absent id; otherwise removes the first occurrence and lowers only the linked XToken's supply by exactly 10000 |
| `Projector.IsEligibleSet` | src/mappings/xstore.ts:150-170 | no-op on a missing vault and whenever the flag already matches membership; otherwise appends or removes the first occurrence, touching only `eligibilities`; `Wf` (no duplicates) is preserved |
| `Projector.IsFinalizedSet` | src/mappings/xstore.ts:177-183 | no-op on a missing vault; otherwise writes only `isFinalized` |
| `Projector.IsClosedSet` | src/mappings/xstore.ts:190-196 | no-op on a missing vault; otherwise writes only `isClosed` |
| `Projector.Is1155Set` | src/mappings/xstore.ts:203-209 | no-op on a missing vault; otherwise writes only `is1155` |
| `Projector.RangeSet` | src/mappings/xstore.ts:216-223 | no-op on a missing vault; otherwise writes `rangeStart` and `rangeEnd` together and nothing else |
| `XStore.Store.HandleNewVaultAdded` | src/mappings/xstore.ts:15-33 | the store afterwards is `NewVaultAdded` of the store before |
| `XStore.Store.HandleXTokenAddressSet` | src/mappings/xstore.ts:35-55 | the store afterwards is `XTokenAddressSet` of the store before |
| `XStore.Store.HandleNftAddressSet` | src/mappings/xstore.ts:57-76 | the store afterwards is `NftAddressSet` of the store before |
| `XStore.Store.HandleNegateEligibilitySet` | src/mappings/xstore.ts:78-89 | the store afterwards is `NegateEligibilitySet` of the store before |
| `XStore.Store.HandleManagerSet` | src/mappings/xstore.ts:91-102 | the store afterwards is `ManagerSet` of the store before |
| `XStore.Store.HandleHoldingsAdded` | src/mappings/xstore.ts:104-121 | requires the linked XToken to exist; the store afterwards is `HoldingsAdded` of the store before |
| `XStore.Store.HandleHoldingsRemoved` | src/mappings/xstore.ts:123-144 | the `indexOf`/`splice` update in place equals `HoldingsRemoved` of the store before |
| `XStore.Store.HandleIsEligibleSet` | src/mappings/xstore.ts:146-171 | the `indexOf`/`push`/`splice` update in place equals `IsEligibleSet` of the store before |
| `XStore.Store.HandleIsFinalizedSet` | src/mappings/xstore.ts:173-184 | the store afterwards is `IsFinalizedSet` of the store before |
| `XStore.Store.HandleIsClosedSet` | src/mappings/xstore.ts:186-197 | the store afterwards is `IsClosedSet` of the store before |
| `XStore.Store.HandleIs1155Set` | src/mappings/xstore.ts:199-210 | the store afterwards is `Is1155Set` of the store before |
| `XStore.Store.HandleRangeSet` | src/mappings/xstore.ts:212-224 | the store afterwards is `RangeSet` of the store before |
| `ProjectorProperties.HoldingsRoundTripSupply` | src/mappings/xstore.ts:113-142 | adding and then removing the same id restores every XToken's supply, every Asset, every other vault and every field of the vault except `holdings` |
| `ProjectorProperties.HoldingsRoundTrip` | src/mappings/xstore.ts:113-142 | the same round trip restores `holdings` as a multiset, and as a sequence only when the id was absent before; otherwise the earlier copy is removed and the id ends up last |
| `ProjectorProperties.SupplyTracksHoldings` | src/mappings/xstore.ts:113-141 | the linked XToken's supply changes by exactly 10000 times the change in the holdings count, for both handlers; a removal that finds nothing moves neither |
| `ProjectorProperties.IsEligibleSetIdempotent` | src/mappings/xstore.ts:155-170 | the same eligibility event applied twice gives the same tables as applying it once |
| `ProjectorProperties.IsEligibleSetMembership` | src/mappings/xstore.ts:155-170 | on a duplicate-free list, the id is eligible afterwards exactly when the event says so; other ids keep their membership; the list stays duplicate-free |
| `ProjectorProperties.SharedXToken` | src/mappings/xstore.ts:44-53 | linking two vaults to one token address creates at most one XToken, and both vaults share it |
| `ProjectorProperties.DuplicateHoldingScenario` | src/mappings/xstore.ts:18-142 | after create, link, add 42, add 42 and remove 42, the holdings are `[42]` and the supply is 10000 |

## Left out

- Logging (`log.info` in every handler) has no effect on state and is left out.
- `fetchTokenSymbol` and `fetchTokenName` call the token contract through a
  helpers module. That module is not part of this model. They become the two
  functions of a `TokenMetadata` value, so the model says nothing about how
  they handle non-standard contracts.
- The imports `fetchTokenDecimals`, `fetchPairToken0`, `fetchPairToken1` and
  `ZERO_BD` are never used, and decimals are never stored.
- The graph-node runtime is left out: entity `load`/`save`, event decoding,
  block ordering and reorgs. The store is three Dafny maps, and the event
  stream is a sequence of method calls on one `Store`.
- Keys: vaults are keyed by the integer id, not its decimal string. Tokens are
  keyed by the address bytes, not their lower-case hex string. Both encodings
  are one-to-one, so lookups behave the same.
- `BigInt` is unbounded `int`. No overflow behaviour exists to model.
- `Array.indexOf` over `BigInt` is modelled as comparing values. graph-ts
  overloads `==` on `BigInt` to compare values.
- XStore.Store.HandleHoldingsAdded: requires the vault, if present, to be
  linked to an existing XToken. The source dereferences `vault.xToken` without
  a check, and the runtime aborts the handler when it is unset.
- XStore.Store.HandleHoldingsRemoved: requires the same link, but only when the
  id is found. That is the only case where the source dereferences it.
- Projector.NewVaultAdded: re-adding an existing vault id follows the runtime's
  merge-on-save behaviour. The listed fields are overwritten, including the
  creation timestamp and block and both lists. `xToken`, `asset` and `manager`
  keep their previous values. The model does not capture a runtime that
  replaces the whole entity instead.
- `flipEligOnRedeem` is written only at creation. No XStore handler changes it.
- Holdings sequence round trip: adding and then removing an id that was already
  held does not give back the earlier sequence, so no lemma claims that it
  does. `HoldingsRoundTrip` states what holds instead.
