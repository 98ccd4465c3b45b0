# Funnyoption rollup ledger, verified

A Dafny model of the rollup "shadow ledger" of funnyoption, a prediction-market exchange. A journal of
deposits, orders, trades, cancellations, settlements and withdrawals is replayed into six leaf maps. The
maps are hashed into a state root, cut into batches that chain root to root, and exported as balances,
positions and two claim trees. Beside it stand the order freeze rule, the deterministic byte stream of the
proving lane, and the market maker's quotes and write pacer.

`dafny verify dfyconfig.toml` checks everything.

## How the model is laid out

- `Ledger.dfy` says what each journal entry does to the six maps, as functions on values.
  `ShadowState.dfy` is the same ledger as an object updated in place; every method is proved to leave
  exactly the state the function gives, on failure too.
- `Accounts.dfy` and `Flows.dfy` reduce every update to what it does to one account, one position or one
  asset total. `LockedFunds.dfy`, `Positions.dfy`, `Conservation.dfy`, `Nonces.dfy`, `Records.dfy`,
  `Stamps.dfy`, `OrderLifetime.dfy` and `OrderJournal.dfy` build the run-long laws on them, `Admission.dfy` and
  `Authorisations.dfy` say exactly what is taken and what is refused, and `TradingDay.dfy` shows
  their conditions met and gives runs that break one of them. `MatchingJournal.dfy` covers what the matching
  service journals for a command.
- `Roots.dfy`, `Replay.dfy`, `BatchChain.dfy` and `Store.dfy` cover hashing, replay and the cached batch
  store, `OverlappingBuilds.dfy` builds that overlap, and `StuckJournal.dfy` a journal the ledger refuses.
  `StoredBatches.dfy` says what the batch table holds after any run, `Snapshot.dfy` covers the accepted and the
  transition replay and their exports, and `ExportedRecords.dfy` what the exported records say.
- `Merkle.dfy` and `Claims.dfy` cover the claim trees, `ProofBytes.dfy` the verifier on bytes, and
  `FullTree.dfy` a builder whose proofs all verify.
- `Int64.dfy`, `Bytes.dfy`, `Text.dfy`, `Sums.dfy` and `Sorting.dfy` hold what the others share.

## Conventions

- Amounts are int64 and every sum wraps as in Go. Laws that survive wrap-around are stated modulo 2^64
  (`Cong`) and hold without any bound; exact forms follow where the sum fits a word.
- SHA-256 and Keccak are parameters. What is asked of them is asked only of the strings a run really
  hashes: `CollisionFree` says that on those strings the hash gives hex digests and no collision. No
  function is injective on all strings with results of one length, so nothing rests on that.
- JSON of leaves is any injective encoding; JSON of batch input is any encoding that decodes to itself.
- In `Merkle.dfy` hashes are free terms. Leaf preimages are at least 101 bytes and node preimages 64.
  `ProofBytes.dfy` goes down to bytes, with the hash a parameter again.

## What the code does not do

- The matching service writes the cancellations of a command before its trades, and the ledger refuses a
  trade of a cancelled order. `MatchingJournal.WrittenAcceptedIff` says exactly which commands are refused,
  `MatchingJournal.PartialFillRefused` shows that every partly filled market buy is, and
  `StuckJournal.BlockedForever` that no batch is stored after a refused entry.
- A cancelled or reused order id and the sign of a reserve are not checked. `LockedFunds.ExplainedStep` says
  exactly which accepted entries part locked balances from open reserves, and three lemmas give the failing
  families.
- The conservation record counts deposits and withdrawals of any account, the ledger only those of positive
  account ids, and a trade is not checked to deliver what its orders spend. `Conservation.TieStepIff` says,
  for every accepted entry, exactly when it parts the record from the totals;
  `Conservation.UnkeptDepositBreaks`, `TradingDay.OneUnkeptAccountBreaks` and `TradingDay.TwoBuysBreak` give
  accepted batches that do, and `Conservation.RecordTiesToLedger` says by how much, for every accepted batch.
- Shares can be deposited, withdrawn, paid out or settled under another name, and then positions no longer
  agree with the shares held. `Positions.AgreesStepIff` says, for every accepted entry, exactly when, and
  `Positions.ShareDepositBreaks` gives an input.
- The tree builders keep only the smaller leaf index of a joined pair, so from three leaves on most leaves
  get a proof that stops short. `Merkle.EveryProofVerifiesIff` gives the exact condition,
  `Merkle.ThreeLeavesFail` an input, and `FullTree.BuildFullTree` a builder without the fault.
- The verifier asks neither how long a proof is, nor whether the index is that of a leaf, nor whether the
  leaf and the items are 32 bytes. `ProofBytes.AcceptedBytesIff` says exactly what it accepts, byte for byte,
  `ProofBytes.AnyCutAccepted` gives proofs that are none, and `ProofBytes.DigestsAcceptedIff` says what is
  left once a caller checks for 32 bytes.
- A withdrawal leaf hashes the wallet as text of any length, directly before the amount. Among wallets
  without a zero byte, which is every text the store's tables can hold, leaf and root bind every field
  (`Claims.WithdrawalLeafBinds`, `Claims.WithdrawalRootBinds`). The hashing itself does not ask for that, and
  `Claims.ShiftedListCollides` gives two lists with one root, one of them with a wallet that ends in NUL.
- Builds of the next batch may overlap, and the table refuses only a second batch with the same first and
  last sequence number. `OverlappingBuilds.FinishKeepsIff` says exactly which inserts keep the chain, and
  `OverlappingBuilds.RaceBreaksChain` gives a run from the start that breaks it; the replay refuses that table
  (`OverlappingBuilds.RacedTableRefused`).
- The accepted replay compares a recorded state root only if it is not blank. `StoredBatches.CheckedIff` says
  exactly what it accepts.

## Model

| member | source | states |
|---|---|---|
| Text.BalanceKeyInjective | backend/internal/rollup/replay.go:687-689 | two balance leaves share a printed key iff account and normalised asset agree, whatever characters the asset holds |
| Text.NonceKeyInjective | backend/internal/rollup/replay.go:691-693 | two nonce leaves share a key iff account and trimmed auth key agree |
| Text.PositionKeyInjective | backend/internal/rollup/replay.go:695-697 | two position leaves share a key iff account, market and normalised outcome agree |
| Text.PositionAssetInjective | backend/internal/shared/assets/assets.go:20-22 | position assets name market and normalised outcome uniquely |
| Text.PositionAssetNormal | backend/internal/shared/assets/assets.go:20-22 | a position asset is its own normal form and is never the collateral asset |
| Text.NormalFixed | backend/internal/rollup/replay.go:741-751 | normalising changes nothing exactly when there is no outer space and no small letter |
| Text.TrimSpaceCuts | backend/internal/rollup/replay.go:741-751 | trimming cuts blanks off both ends and nothing else, and what it leaves neither starts nor ends with one |
| Text.TrimsToNothing | backend/internal/rollup/replay.go:741-751 | nothing is left exactly of a blank text |
| Text.CapitalsAre | backend/internal/rollup/replay.go:741-751 | upper-casing takes each small letter to its capital and changes no other character |
| Ledger.Multiply | backend/internal/rollup/replay.go:785-796 | succeeds exactly when neither factor is negative and the true product fits int64, and then is that product |
| Ledger.RunConcat | backend/internal/rollup/replay.go:175-179 | applying a concatenation is applying the first part and, if it succeeds, the second on its result |
| Admission.TakenIff | backend/internal/rollup/replay.go:239-312 | exactly which entries of every type the ledger takes, read off the state before them; a trade is taken iff both its orders have enough left and reserves that pay, as words, for the fill and what remains, an order traded against itself twice |
| Admission.RunTakenIff | backend/internal/rollup/replay.go:175-179 | a run is accepted iff the ledger takes each entry where it comes |
| Admission.RefusalSaysWhy | backend/internal/rollup/replay.go:239-312 | every refusal reports something that is wrong with the entry in the state before it, and the guard against a negative position never strikes |
| Authorisations.AuthorisationTakenIff | backend/internal/rollup/replay.go:346-373 | a key authorisation is taken iff account and chain are positive and none of its six texts is blank, and changes nothing |
| Authorisations.AuthorisationsComplete | backend/internal/rollup/replay.go:346-373 | every authorisation in an accepted run is complete |
| Accounts.AdjustBalanceAt | backend/internal/rollup/replay.go:506-522 | a balance update moves exactly one (account, normalised asset) pair by exactly its deltas, deletion at zero included |
| Accounts.AdjustBalanceTotal | backend/internal/rollup/replay.go:506-522 | it changes the total of its own asset by the sum of its deltas and no other total |
| Accounts.AdjustPositionAt | backend/internal/rollup/replay.go:524-544 | a position update moves exactly one (account, market, outcome) triple |
| Accounts.SettlePositionAt | backend/internal/rollup/replay.go:602-623 | a successful settlement takes its quantity from exactly one position |
| Accounts.FillFrame | backend/internal/rollup/replay.go:448-504 | an accepted fill names an open BUY or SELL order with enough remaining and rewrites or deletes only that order |
| Accounts.TradeFrame | backend/internal/rollup/replay.go:422-446 | an accepted trade is two accepted fills followed by delivery of shares and collateral |
| Accounts.SideMapsFrame | backend/internal/rollup/replay.go:239-312 | only nonce advances touch nonce leaves, only withdrawal requests withdrawal leaves and only resolutions market leaves |
| Stamps.ChangesAreStamped | backend/internal/rollup/replay.go:239-312 | every leaf that an entry adds or changes bears the sequence number of that entry |
| Stamps.StampsAreTheJournal | backend/internal/rollup/replay.go:239-312 | after every run, refused ones included, each leaf added or changed by it bears the sequence number of one of its entries |
| ShadowState.Shadow.constructor | backend/internal/rollup/replay.go:151-158 | starts with six empty maps |
| ShadowState.Shadow.Clone | backend/internal/rollup/replay.go:209-237 | a new object with the same six maps; the original is not written to |
| ShadowState.Shadow.AdjustBalance | backend/internal/rollup/replay.go:506-522 | in-place update equals the ledger update on values, whole state |
| ShadowState.Shadow.AdjustPosition | backend/internal/rollup/replay.go:524-544 | in-place update equals the ledger update on values, whole state |
| ShadowState.Shadow.SettlePosition | backend/internal/rollup/replay.go:602-623 | same result, error and whole new state as on values |
| ShadowState.Shadow.ApplyOrderAccepted | backend/internal/rollup/replay.go:375-394 | reserve moved and order opened, whole new state |
| ShadowState.Shadow.ApplyOrderCancelled | backend/internal/rollup/replay.go:396-420 | reserve released and order removed, also when the order is rebuilt from the cancellation |
| ShadowState.Shadow.FillOrder | backend/internal/rollup/replay.go:448-504 | same error and whole new state as on values, including the half-done state of a refused refund |
| ShadowState.Shadow.ApplyTradeMatched | backend/internal/rollup/replay.go:422-446 | same error and whole new state, including a first fill left behind by a failing second |
| ShadowState.Shadow.ApplyNonceAdvanced | backend/internal/rollup/replay.go:314-344 | same error and whole new state |
| ShadowState.Shadow.ApplyMarketResolved | backend/internal/rollup/replay.go:546-564 | same error and whole new state |
| ShadowState.Shadow.ApplySettlementPayout | backend/internal/rollup/replay.go:566-600 | same error and whole new state, including a debit left behind by a failing settlement |
| ShadowState.Shadow.Apply | backend/internal/rollup/replay.go:239-312 | every entry type: same error and whole new state |
| ShadowState.Shadow.ApplyAll | backend/internal/rollup/replay.go:175-179 | stops at the first error with the state reached, as the run on values |
| ShadowState.Shadow.ComputeRoots | backend/internal/rollup/replay.go:629-645 | returns the five roots of the current six maps |
| LockedFunds.ExplainedStep | backend/internal/rollup/replay.go:375-420 | for every accepted entry, whatever reserves are held, locked balances stay the sums of open reserves iff the entry neither overwrites an order holding a reserve, nor cancels an unknown order that still releases something, nor cancels an order with a negative reserve |
| LockedFunds.ExplainedRun | backend/internal/rollup/replay.go:375-504 | the same over every accepted run without such entries |
| LockedFunds.SoundStep | backend/internal/rollup/replay.go:375-420 | reserves stay non-negative iff the entry does not reserve a negative amount, and with it locked balances stay the sums of open reserves iff the entry neither overwrites a reserve nor cancels an unknown order that releases something |
| LockedFunds.LockedExplained | backend/internal/rollup/replay.go:375-504 | after every accepted run without such entries each locked balance is the sum of the reserves of that account's open orders in that asset, hence not negative while it fits a word |
| LockedFunds.ReusedOrderIdBreaks | backend/internal/rollup/replay.go:375-394 | concrete failing family: accepting one order id twice is accepted and breaks the sums |
| LockedFunds.UnknownCancelBreaks | backend/internal/rollup/replay.go:396-420 | concrete failing family: cancelling an order the ledger does not hold is accepted and breaks the sums |
| LockedFunds.NegativeReserveBreaks | backend/internal/rollup/replay.go:375-420 | concrete failing family: a negative reserve is accepted, and cancelling the order leaves the locked balance negative with nothing open |
| LockedFunds.OrdersAccounted | backend/internal/rollup/replay.go:448-504 | in every accepted run filled + remaining = original for every open order, with something remaining if any was ordered |
| Flows.FlowStep | backend/internal/rollup/replay.go:239-312 | every accepted entry changes the total of any asset, or one account's holding of it, by exactly its stated flow (modulo 2^64) |
| Flows.WellKeyedRun | backend/internal/rollup/replay.go:506-522 | after every accepted run each balance leaf is kept under the key of its own account and asset, belongs to a positive account and is not empty |
| Conservation.BuildRecord | backend/internal/rollup/conservation.go:31-112 | fails exactly when one of the four read entry types does not decode; otherwise per asset, sorted, the exact sums of credits and debits as words and their net |
| Conservation.UndecodableIff | backend/internal/rollup/conservation.go:35-72 | a payload that does not decode stops the record iff a decoded payload of its type would be credited or debited |
| Conservation.TotalsAre | backend/internal/rollup/conservation.go:35-72 | credits are deposits plus trade notionals plus payouts, debits withdrawals plus notionals plus payouts, asset by asset, written without the two sides |
| Conservation.RecordTotals | backend/internal/rollup/conservation.go:81-103 | so every line of a record holds those two totals as words, and deposits less withdrawals as its net |
| Conservation.TradeBooked | backend/internal/rollup/conservation.go:53-62 | the true notional of an accepted trade is what the record credits and debits, what the delivery brings a kept seller, and what a buy order reserving that asset pays |
| Conservation.RecordUnique | backend/internal/rollup/conservation.go:81-103 | batch id and entries determine the record |
| Conservation.RecordPermutation | backend/internal/rollup/conservation.go:35-72 | reordering the entries of a batch leaves the record unchanged |
| Conservation.ConservedIff | backend/internal/rollup/conservation.go:88-95 | a batch is marked conserved iff deposits equal withdrawals in every asset |
| Conservation.NetIsDepositsLessWithdrawals | backend/internal/rollup/conservation.go:53-70 | trades and payouts cancel: the net of an asset is deposits less withdrawals |
| Conservation.MatchedTradeConserves | backend/internal/rollup/replay.go:422-446 | a trade between a buy order holding collateral and a sell order holding shares conserves every asset if both accounts are kept or neither is, and otherwise creates or destroys exactly the traded quantity of shares |
| Conservation.RecordTiesToLedger | backend/internal/rollup/conservation.go:31-112 | for every accepted batch, whatever its entries, the change of every asset total is the net of the record plus payouts minus settled quantity plus the leaks, so record and ledger tie iff the leaks cancel |
| Conservation.TieStepIff | backend/internal/rollup/replay.go:239-312 | every accepted entry moves every asset total by what it says iff it is no deposit or withdrawal of an unkept account and no trade that delivers, in one of the assets it names, other than what its two orders spend |
| Conservation.MatchedBalancedIff | backend/internal/rollup/replay.go:422-446 | a trade between orders that hold what they sell, in distinct assets, delivers what they spend iff both accounts are kept or neither is |
| Conservation.TiedRunLeaksNothing | backend/internal/rollup/replay.go:239-312 | nothing leaks in a run without such entries |
| Conservation.UnkeptDepositBreaks | backend/internal/rollup/conservation.go:37-45 | concrete failing family: a deposit to account 0 or below is accepted and recorded and moves no total |
| ConservationHash.BuildPreimage | backend/internal/rollup/conservation.go:114-140 | the bytes appended step by step are version, batch, count and one block per asset |
| ConservationHash.NetBytesRoundTrip | backend/internal/rollup/conservation.go:130-139 | the 32-byte field decodes as big-endian two's complement to the int64 net |
| ConservationHash.PreimageBinds | backend/internal/rollup/conservation.go:114-143 | equal preimages have the same batch, count and, in order, asset hashes and signed nets |
| ConservationHash.PreimageReads | backend/internal/rollup/conservation.go:114-143 | place by place a reader finds the version, the batch, the count and each asset's hash and signed net |
| ConservationHash.RecordHashBinds | backend/internal/rollup/conservation.go:104-143 | unless hashed strings collide, two records with one hash have the same batch, assets and nets and agree on being conserved |
| Positions.QuantityStep | backend/internal/rollup/replay.go:524-544 | every accepted entry moves a position by its trade less its settlement |
| Positions.QuantityRun | backend/internal/rollup/replay.go:524-623 | after any accepted run a position is net traded less settled |
| Positions.AgreesStepIff | backend/internal/rollup/replay.go:239-312 | every accepted entry keeps all positions equal to free + locked of their position assets iff it neither moves a position asset by itself, nor settles a position out of another asset or pays in shares, nor is a trade that leaves a gap at one of the four holdings it names |
| Positions.AgreesRun | backend/internal/rollup/replay.go:422-623 | runs without such entries keep every position equal to its balance |
| Positions.NamesPositionIff | backend/internal/shared/assets/assets.go:20-22 | an asset stands for a position iff its printed name reads back as market and outcome |
| Positions.ShareDepositBreaks | backend/internal/rollup/replay.go:271-277 | concrete failing family: a deposit of shares is accepted and leaves shares without a position |
| Positions.MatchedTradeKeeps | backend/internal/rollup/replay.go:422-446 | a trade between orders that hold what they sell, for a collateral that is no position asset, leaves no gap |
| Positions.SettlementNeverStuck | backend/internal/rollup/replay.go:566-623 | where they agree, a settlement past the free-balance guard meets none of the three position errors |
| Positions.SettlementAfterAnyRun | backend/internal/rollup/replay.go:584-623 | the same after every such run from the empty ledger |
| Nonces.AdvanceTakenIff | backend/internal/rollup/replay.go:314-344 | exactly which nonce advances are taken; the largest uint64 never is |
| Nonces.NoncesNeverRepeat | backend/internal/rollup/replay.go:314-344 | in any successful replay the nonces of one account and trimmed key strictly increase, so none repeats |
| OrderLifetime.FreezeExact | backend/internal/order/freeze.go:17-50 | a request is frozen iff its true amount fits int64 and its fields are usable, for exactly that amount, which covers the order at the price it is sent at |
| OrderLifetime.FreezeRefusalSaysWhy | backend/internal/order/freeze.go:17-50 | every refused request has the fault the refusal names; an overflow is one of the true amount |
| OrderLifetime.CommandMeaning | backend/internal/order/service.go:127-138 | a market order is sent so that it meets every allowed limit price and no more and never rests; what was frozen leaves a market buy exactly one unit a share to spare and any other order nothing |
| OrderLifetime.FillFunded | backend/internal/rollup/replay.go:448-504 | a funded order takes any admissible fill; its reserve becomes exactly what the remainder needs and the difference is refunded |
| OrderLifetime.FillsNeverRefused | backend/internal/rollup/replay.go:448-504 | no admissible sequence of fills is refused or overflows, and locked and free tell exactly what was paid and refunded |
| OrderLifetime.WholeLife | backend/internal/rollup/replay.go:375-504 | freeze, accept, any admissible fills, completion or cancel: locked is back where it was and free is down by exactly what was paid, market buys included |
| OrderLifetime.RebuiltCancellation | backend/internal/rollup/replay.go:396-420 | cancelling an order the ledger does not hold, however its side and outcome are spelt and whether or not it names its reserve asset, releases the account, asset and amount a freshly frozen order would hold, except (iff) a market buy, rebuilt at 99 instead of 100 |
| OrderJournal.AcceptedFill | backend/internal/rollup/replay.go:448-504 | every accepted fill, within the limit or not, leaves the rest of the order with exactly the reserve it needs |
| OrderJournal.FundedThroughout | backend/internal/rollup/replay.go:375-504 | over every accepted journal that does not reuse its id a funded order stays funded while open, is open exactly until cancelled or executed in full, and its leaf holds what is left with exactly the reserve that needs |
| OrderJournal.FrozenOrderNeverRefused | backend/internal/rollup/replay.go:422-504 | whatever entries come between, a trade within the limit price and the quantity not yet executed is never refused on account of an order accepted with its computed freeze |
| OrderJournal.MoneyThroughout | backend/internal/rollup/replay.go:375-504 | over every accepted journal that does not reuse its id, what the owner holds of the order asset changes by what everything else brings less exactly what the order paid |
| OrderJournal.OwnerIsLeftWith | backend/internal/rollup/replay.go:375-504 | and the free balance is that less what the orders still open reserve |
| MatchingJournal.BuildRollupEntries | backend/internal/matching/service/rollup_shadow.go:14-74 | acceptance, then all cancellations, then all trades |
| MatchingJournal.WrittenIs | backend/internal/matching/service/rollup_shadow.go:14-74 | a rejected command leaves no trace of its own order; any other is accepted, then cancelled if it was, before the affected orders in their order, and the trades come last |
| MatchingJournal.CancellationWrittenIff | backend/internal/matching/service/rollup_shadow.go:40-48 | a cancellation is written iff it is that of a touched order the engine cancelled |
| MatchingJournal.WrittenAcceptedIff | backend/internal/matching/service/rollup_shadow.go:14-74 | a command whose entries the ledger takes in the order they happened is taken as written iff no trade names an order the command cancelled |
| MatchingJournal.PartialFillRefused | backend/internal/matching/engine/engine.go:505-512 | concrete failing family: on any ledger with a funded seller, a market buy filled in part is refused as written and taken in the order it happened |
| Records.RecordsAreTheJournal | backend/internal/rollup/replay.go:278-302 | after every accepted run a withdrawal or market leaf exists iff the journal names it, with the fields of the last entry that did |
| Records.KeysAndOrdersAreTheJournal | backend/internal/rollup/replay.go:314-394 | after every accepted run a nonce leaf exists iff the journal advances its key, with the fields of the last advance, and every open order has the terms of the last acceptance of its id |
| TradingDay.TradingRuns | backend/internal/rollup/replay.go:375-446 | whoever trades, deposit, buy, sell and trade are accepted for every choice of prices and quantity that fits int64 |
| TradingDay.TradingAccepted | backend/internal/rollup/replay.go:375-446 | with real accounts that day leaves no order open and meets the conditions of the locked-funds, conservation and position laws |
| TradingDay.SettlementAccepted | backend/internal/rollup/replay.go:566-623 | and the settlement of every bought share is accepted after it |
| TradingDay.OneUnkeptAccountBreaks | backend/internal/rollup/replay.go:422-446 | concrete failing family: with just one kept account the day is accepted and the total of the shares differs from what its record says |
| TradingDay.TwoBuysBreak | backend/internal/rollup/replay.go:422-446 | concrete failing family: two buy orders traded against each other are accepted and the total of the shares rises, though the record reports no deposit |
| Roots.EncodeInjective | backend/internal/rollup/hash.go:10-19 | length-prefixed part lists are uniquely decodable |
| Roots.EncodeReads | backend/internal/rollup/hash.go:10-19 | the encoding of a part list is, part by part, eight bytes of length and the part |
| Roots.RootFormat | backend/internal/rollup/replay.go:629-685 | the roots of the six maps and the state root, every hashed literal written out |
| Roots.HashStrings | backend/internal/rollup/hash.go:10-19 | hashes exactly the length-prefixed encoding |
| Roots.ComputeLeafRoot | backend/internal/rollup/replay.go:647-685 | one root whatever order the map yields its keys in |
| Roots.AllSeparated | backend/internal/rollup/replay.go:88-110 | no empty root's parts are those of a non-empty map |
| Roots.LeafRootBinds | backend/internal/rollup/replay.go:667-685 | equal roots of a namespace come from equal maps unless hashed strings collide |
| Roots.ZeroRootIsEmptyRoot | backend/internal/rollup/replay.go:116-118 | the written-down zero root is the root of the empty ledger |
| Roots.StateRootBinds | backend/internal/rollup/replay.go:629-645 | equal state roots mean all six maps are equal unless hashed strings collide |
| Replay.ReplayBatchOnState | backend/internal/rollup/replay.go:185-207 | succeeds iff input hash, previous root, decoding and every entry do; then the state and roots are the extended ones |
| Replay.ReplayStoredBatches | backend/internal/rollup/replay.go:150-183 | succeeds iff every batch extends the previous one from the empty ledger; then returns the final roots |
| Replay.ReplayIsRun | backend/internal/rollup/replay.go:160-181 | a successful replay is one run over all entries |
| Replay.ReplayIsChain | backend/internal/rollup/replay.go:150-207 | in every successful replay each batch is intact, decodes, applies to the ledger reached before it, and names as previous root the state root of that ledger |
| Replay.ReplaySucceedsIff | backend/internal/rollup/replay.go:160-181 | a replay can be extended by a batch iff its input hash is absent or right, its previous root is the one reached, and its input decodes and is accepted |
| Replay.BoundariesIrrelevant | backend/internal/rollup/replay.go:150-183 | two successful replays of the same entries end in the same roots however they are split |
| BatchChain.ShortcutAgrees | backend/internal/rollup/store.go:225-246 | on the cached ledger or by full replay, the same success or failure and the same ledger |
| BatchChain.LinkedStep | backend/internal/rollup/store.go:197-223 | a stored batch names its predecessor's root and continues the journal prefix without a gap |
| BatchChain.EveryRunInv | backend/internal/rollup/store.go:189-285 | in every run of appends, builds, failed inserts and restarts the batches replay to the tip root and every cache holds the ledger of its root |
| BatchChain.CacheAgreement | backend/internal/rollup/store.go:225-246 | after every run, any process and any cache gives the tables and result a full replay gives |
| BatchChain.SplitsAgree | backend/internal/rollup/store.go:189-285 | two runs that stored the same entries have the same tip root |
| StoredBatches.EveryRunKept | backend/internal/rollup/store.go:197-283 | after every run each stored batch carries the hash of its input, its true entry count and sequence range, and the roots that the batches up to it replay to |
| StoredBatches.AlteredInputRefused | backend/internal/rollup/replay.go:160-166 | after every run a stored batch with an input of another hash is refused on every ledger |
| StoredBatches.MadeStores | backend/internal/rollup/store.go:197-283 | a build stores one batch iff it is made, under its row id, on the tip root, with the next entries of the journal |
| StoredBatches.CheckedIff | backend/internal/rollup/accepted_snapshot.go:21-87 | the accepted replay succeeds iff the plain one does and every recorded root is blank or the one reached |
| StoredBatches.AlteredRootRefusedIff | backend/internal/rollup/accepted_snapshot.go:77-81 | after every run, with another root recorded for one batch the accepted replay refuses the table iff that root is not blank |
| StoredBatches.AcceptedAfterEveryRun | backend/internal/rollup/accepted_snapshot.go:21-87 | after every run the accepted replay of the table succeeds |
| StuckJournal.BlockedForever | backend/internal/rollup/store.go:197-246 | once the ledger refuses one of the next n entries, no run of appends, restarts and builds taking at least n entries stores another batch |
| OverlappingBuilds.InsertKeepsIff | backend/internal/rollup/store.go:197-283 | an insert keeps the batches a gap-free chain iff the tip is still the one the build read |
| OverlappingBuilds.FinishKeepsIff | backend/internal/rollup/store.go:197-283 | a build that inserts after others have moved on keeps the chain sound iff the tip is still the one it read |
| OverlappingBuilds.OverlapAgreement | backend/internal/rollup/store.go:189-285 | in every run in which builds overlap, fail and restart and no insert is stale, the batches stay a sound chain and any cache gives the answer of a full replay |
| OverlappingBuilds.RangeKeyLetsThrough | backend/migrations/014_rollup_shadow_lane.sql:23-39 | from any tables with two pending entries, batches built with limits 1 and 2 have different ranges and break the chain when both are inserted |
| OverlappingBuilds.RaceBreaksChain | backend/migrations/014_rollup_shadow_lane.sql:23-39 | concrete failing run from the start: two deposits, two builds at once with limits 1 and 2, both are made and inserted, and the two batches, given field by field, are no chain |
| OverlappingBuilds.RacedTableRefused | backend/internal/rollup/replay.go:160-181 | unless hashed strings collide, replay refuses the table of that run, except iff the first deposit left the ledger empty |
| Store.BatchStore.WarmCacheFromFullReplay | backend/internal/rollup/store.go:53-75 | caches the unchecked replay with the given root, or changes nothing if it fails |
| Store.BatchStore.MaterializeNextBatch | backend/internal/rollup/store.go:189-285 | tables, cache and result are those of the specified step; the cached ledger object is never written to |
| Store.RebuildFollows | backend/internal/rollup/store.go:62-72 | the unchecked replay that warms the cache reaches the checked one's ledger |
| Snapshot.ApplyNoting | backend/internal/rollup/accepted_snapshot.go:52-75 | applies entries and tallies payouts in one pass |
| Snapshot.ExportPositionRecords | backend/internal/rollup/accepted_snapshot.go:149-231 | one record per key in sorted order, skipping keys with nothing held and nothing settled |
| Snapshot.ExportSnapshot | backend/internal/rollup/accepted_snapshot.go:88-96 | roots, sorted balances, positions and payouts in first-seen order |
| Snapshot.BuildAcceptedReplaySnapshot | backend/internal/rollup/accepted_snapshot.go:21-97 | succeeds iff the checked replay does, recorded roots included; then exports its ledger and tally |
| Snapshot.BuildTransitionSnapshot | backend/internal/rollup/transition_witness.go:70-129 | succeeds iff the unchecked replay does; then exports its ledger and tally |
| Snapshot.ThreeReplaysAgree | backend/internal/rollup/transition_witness.go:70-129 | where the accepted replay succeeds, all three replays reach the same ledger |
| Snapshot.SnapshotsAgree | backend/internal/rollup/transition_witness.go:70-129 | where the accepted builder succeeds, the transition builder exports the same snapshot, under the roots the plain replay reports |
| Snapshot.LifetimeTruth | backend/internal/rollup/accepted_snapshot.go:149-231 | exported quantity is the net ever traded, exported settled quantity the sum of payouts, and no record exactly when both are zero |
| ExportedRecords.BalanceTruth | backend/internal/rollup/accepted_snapshot.go:127-147 | over the whole history each exported balance record says what is free and what is locked; an account and asset have at most one, and none iff both are zero |
| ExportedRecords.PayoutTruth | backend/internal/rollup/accepted_snapshot.go:52-125 | one payout record per event, in the order events were first seen, with the fields and the batch of the event's last payout |
| ExportedRecords.StatusTruth | backend/internal/rollup/accepted_snapshot.go:149-231 | every position record is settled if nothing is left, else open or partly settled as the last move was a trade or a settlement; it has that move's number, or for want of one the batch of the last settlement, and names the asset that settlement took the shares from |
| ExportedRecords.SnapshotHeader | backend/internal/rollup/accepted_snapshot.go:83-96 | the snapshot and its balance and position records bear the number of the last batch, its roots are those of the ledger, and no position has two records |
| Merkle.BuildTree | backend/internal/rollup/escape_collateral.go:154-195 | root of the padded tree, and for each leaf the siblings of the nodes it was the smallest index of |
| Merkle.JoinLevel | backend/internal/rollup/withdrawal_tree.go:157-181 | one level: next nodes, next indexes and grown proofs |
| Merkle.BuiltProofClimbs | backend/internal/rollup/escape_collateral.go:168-194 | a built proof folds to the leaf's ancestor at the height of its length |
| Merkle.ProofLengthIs | backend/internal/rollup/escape_collateral.go:181-188 | proof length is the depth for leaf 0 and min(depth, twos in i + 1) otherwise |
| Merkle.VerifiesIffFullLength | backend/internal/rollup/escape_collateral.go:181-188 | a built proof verifies iff it has full length |
| Merkle.OnlyTwoProofsVerify | backend/internal/rollup/escape_collateral.go:181-188 | from two leaves on exactly leaves 0 and 2^(depth-1) verify |
| Merkle.EveryProofVerifiesIff | backend/internal/rollup/withdrawal_tree.go:170-177 | every leaf's built proof verifies iff there are at most two leaves |
| Merkle.ThreeLeavesFail | backend/internal/rollup/escape_collateral.go:181-188 | concrete failing input: leaf 1 of three |
| Merkle.AcceptedIff | backend/internal/rollup/escape_collateral.go:234-257 | for any digest, proof made of digests and index, folding gives the root iff the proof is no longer than the depth, the digest is the node the low bits of the index lead to and the proof holds the nodes beside the way |
| Merkle.AcceptedBesidesLeaves | backend/internal/rollup/escape_collateral.go:247-256 | concrete inputs: the last of three leaves at the padded place, and an inner node with a shorter proof |
| Merkle.FullPathVerifies | backend/internal/rollup/escape_collateral.go:247-256 | the full sibling path of every leaf verifies |
| Merkle.FullProofsSound | backend/internal/rollup/escape_collateral.go:247-256 | a full-length proof verifies for place i iff it is leaf i with its sibling path |
| FullTree.BuildFullTree | backend/internal/rollup/escape_collateral.go:154-195 | the builder with every leaf under a node kept: each proof is the full sibling path, and every leaf verifies |
| FullTree.JoinFullLevel | backend/internal/rollup/withdrawal_tree.go:157-181 | one level of it: next nodes, the leaves under each, and every proof one sibling longer |
| Merkle.RootBinds | backend/internal/rollup/escape_collateral.go:168-194 | two lists of pairwise distinct leaves with one root are the same list, despite the doubled last node |
| ProofBytes.VerifyProof | backend/internal/rollup/escape_collateral.go:234-257 | accepts iff folding the byte strings by index parity gives the root |
| ProofBytes.FoldOfDigests | backend/internal/rollup/escape_collateral.go:247-256 | on digests of tree nodes the byte verifier is the fold of the tree model |
| ProofBytes.AcceptedBytesIff | backend/internal/rollup/escape_collateral.go:221-257 | for any leaf bytes, proof and index, unless hashed strings collide: accepted iff the last items, at most the depth, are the digests beside the way up from a node and what comes before joins to that node preimage |
| ProofBytes.DigestsAcceptedIff | backend/internal/rollup/escape_collateral.go:221-257 | with a leaf and items of 32 bytes, accepted iff it is a node of the tree with the digests beside its way up |
| ProofBytes.ClaimLeavesLong | backend/internal/rollup/withdrawal_tree.go:115-123 | no leaf preimage of either claim tree is 64 bytes long |
| ProofBytes.AnyCutAccepted | backend/internal/rollup/escape_collateral.go:247-256 | concrete failing family: any node preimage cut in two anywhere is accepted as leaf and first item |
| Claims.EscapeLeafBinds | backend/internal/rollup/escape_collateral.go:124-137 | an escape leaf preimage determines batch, index, wallet and amount |
| Claims.EscapeReads | backend/internal/rollup/escape_collateral.go:124-137 | place by place a reader finds tag, batch, index, wallet and amount |
| Claims.EscapeLeavesDistinct | backend/internal/rollup/escape_collateral.go:85-88 | built escape leaves are pairwise distinct |
| Claims.EscapeRootBinds | backend/internal/rollup/escape_collateral.go:104-121 | the escape root determines the list of claims, empty list included, and the batch |
| Claims.WithdrawalLeafBinds | backend/internal/rollup/withdrawal_tree.go:107-124 | a withdrawal leaf preimage determines batch, index and id hash, and the whole claim among wallets without a zero byte; otherwise iff the wallet texts have one length |
| Claims.WithdrawalReads | backend/internal/rollup/withdrawal_tree.go:107-124 | told the length of the wallet, a reader finds tag, batch, index, id hash, wallet, amount and recipient |
| Claims.ShiftedCollides | backend/internal/rollup/withdrawal_tree.go:107-124 | concrete failing family: a claim and the same bytes read one byte further right, its wallet ending in NUL, are different claims with one preimage |
| Claims.WithdrawalLeavesDistinct | backend/internal/rollup/withdrawal_tree.go:64-79 | built withdrawal leaves are pairwise distinct |
| Claims.WithdrawalRootBinds | backend/internal/rollup/withdrawal_tree.go:94-104 | the withdrawal root determines batch, number and order of withdrawal ids, empty list included, and the whole list if no wallet holds a zero byte; otherwise iff the wallet texts have the same lengths |
| Claims.ShiftedListCollides | backend/internal/rollup/withdrawal_tree.go:94-104 | so every list with a claim that can be shifted shares its root with another list |
| DeterministicReader.Reader.constructor | backend/internal/rollup/groth16_lane.go:139-143 | a new reader has consumed nothing |
| DeterministicReader.Reader.Read | backend/internal/rollup/groth16_lane.go:145-161 | fills the whole buffer with the next bytes of the block stream |
| DeterministicReader.ReadInChunks | backend/internal/rollup/groth16_lane.go:145-161 | any sequence of read sizes yields the prefix of the stream of their total length |
| DeterministicReader.StreamReads | backend/internal/rollup/groth16_lane.go:148-155 | block k of the stream is the hash of the seed followed by k as eight big-endian bytes |
| Quotes.NewStrategy | backend/internal/marketmaker/strategy.go:30-43 | levels are spaced at least one apart, and by no more than the half spread for wide spreads |
| Quotes.SpacingIs | backend/internal/marketmaker/strategy.go:30-43 | levels lie a third of the spread apart, rounded down, and two for spreads up to four |
| Quotes.LevelQuantityIs | backend/internal/marketmaker/strategy.go:99-107 | a level offers the base quantity over 2 to the level, rounded down once, and never less than one |
| Quotes.ComputeQuotes | backend/internal/marketmaker/strategy.go:48-78 | level by level, YES before NO, exactly the levels whose quantity the holding covers are quoted, on the grid 1..99, and any YES and NO price add up to at least 100 |
| Quotes.LadderInOrder | backend/internal/marketmaker/strategy.go:60-76 | quotes come level by level: those of the first levels are the first quotes |
| Quotes.PairCostsAtLeastPayout | backend/internal/marketmaker/strategy.go:63-75 | the same for any middle, skew and pair of levels, after clamping |
| Quotes.HalfSpreadIs | backend/internal/marketmaker/strategy.go:53-56 | the half spread is half the spread rounded down, and one for spreads below two |
| Quotes.PairCostExact | backend/internal/marketmaker/strategy.go:63-75 | where neither price is clamped, a YES and a NO price of any two levels cost the payout plus exactly both half spreads and level offsets, and each is its middle plus its own offset, moved by the skew in opposite directions |
| Quotes.SkewLeansAgainstInventory | backend/internal/marketmaker/strategy.go:83-100 | the side held more of is offered cheaper, by at most skew times spread |
| Pacer.WritePacer.constructor | backend/internal/marketmaker/pacer.go:20-26 | starts at the zero time |
| Pacer.WritePacer.Wait | backend/internal/marketmaker/pacer.go:28-48 | reserves the later of now and the next allowed time and sleeps exactly until then |
| Pacer.WritePacer.PushBack | backend/internal/marketmaker/pacer.go:50-62 | moves the next allowed time out to the end of the delay and never back |
| Pacer.SlotsSpaced | backend/internal/marketmaker/pacer.go:28-48 | any two slots of any history are at least the interval apart |
| Pacer.BackOffHeld | backend/internal/marketmaker/pacer.go:50-62 | no slot after a back-off comes before its end, even if the clock steps back |
| Pacer.NothingReserved | backend/internal/marketmaker/pacer.go:28-33 | without an interval writes reserve nothing: the next allowed time is what the back-offs alone make it |
| Pacer.SlotIsEarliest | backend/internal/marketmaker/pacer.go:28-62 | no slot is later than the call time or some earlier call requires |

## Left out

- Decoding of JSON payloads: entries arrive decoded, and a payload that does not decode is its own kind of entry.
- Text.NormalFixed: ASCII only, as everywhere in the model; a character stands for a byte, and Unicode spaces and letters are not trimmed or upper-cased.
- Conservation.BuildRecord: the record's constant version and its hash are not fields of the model's record; ConservationHash covers the hash.
- OrderLifetime.FillsNeverRefused: one order with no other entry between its fills; OrderJournal.FrozenOrderNeverRefused is the form for whole journals.
- OrderLifetime.WholeLife: one order with no other entry in between; OrderJournal.FundedThroughout, OrderJournal.MoneyThroughout and OrderJournal.OwnerIsLeftWith are the forms for whole journals.
- BatchChain.EveryRunInv: each build is one step there; OverlappingBuilds.OverlapAgreement is the form for builds that overlap.
- Journal rows that become visible out of sequence order: appends come in sequence order.
- Payload fields no replay reads (command ids, wallet and chain fields, time stamps, attestations).
- Leaf fields that are always written as constants (cost basis, realised profit, funding index, claim nullifier, status and beneficiary of a withdrawal).
- Before the claim trees are built: which balances become claims, their sorting, unit conversion and text normalisation. A claim here is what is hashed. Claim ids and status records are not modelled either.
- The wallet mirror of the transition witness and the hashes of its exported records.
- Submission rows, calldata, proving circuits and contracts: foreign libraries and single-row updates.
- Hex text in proofs: the verifier takes decoded bytes, and text that does not decode is refused before it.
- Quotes.ComputeQuotes: prices are unbounded integers and the skew is real arithmetic, so int64 overflow and float rounding of the skew are not modelled; at most 64 levels, beyond which the source divides by zero.
- Quotes.SkewLeansAgainstInventory: real arithmetic in place of float64.
- Pacer.WritePacer.Wait: times are unbounded integers, and the sleep itself and its cancellation are not modelled.
- DeterministicReader.Reader.Read: the stream repeats after 2^64 blocks, as the counter wraps.
- The matching engine, whose results arrive as values, account service, settlement service, HTTP interface, web and admin pages.
