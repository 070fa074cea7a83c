# A verified model of SOLANS

SOLANS is a name service on Solana. Names such as `alex.sol` and `pay.alex.sol` are records that
can be registered for a term, renewed, delegated, tokenized, nested, listed, auctioned and traded
by offers; fees are split between a treasury, a staking pool, a referrer and a burn vault; an
indexer and three client libraries read the result. This project models that program as two state
machines, proves invariants of every run of them, and proves the imperative handlers equal to
those machines.

## How it is built

- `Prelude`, `Arith`, `Sums`: optional values and Solana's integer widths; facts about floored
  quotients; sums over finite maps.
- `Staking`, `StakingSolvency`, `StakingFairness`, `StakingCustody`, `StakingProgram`: the reward accumulator. The
  state machine covers any number of stakers; the solvency invariant keeps exact books in units of
  1/SCALE; the fairness theorems compare the accumulator with a ledger of exact rational shares;
  `StakingProgram` holds the pool class and the handlers.
- `Naming`, `Paths`: labels, UTF-8, hash preimages, path parsing in the TypeScript and Rust clients.
- `RecordStore`, `RecordSafety`, `Ledger`, `Economics`: the record vector, balances and payments, prices and rates.
- `Registry`: one function per handler, gathered into `Step`, `Next` and `Run`. A name's record,
  listing and auction form a cell; a handler checks its guards against one cell, rewrites the cell
  and lists its payments; any failure reverts everything. `Tick` advances the clock, `Send` is any
  payment made outside the registry, `Configure` any accepted change of configuration.
- `RegistryProgram`: the class `Program` with the accounts as mutable fields and one method per
  handler, each updating them step by step. `Execute` is proved to be `Step`, and `ExecuteAll` to
  be `Run`, so every theorem about runs is a theorem about the methods.
- `TreeSafety`, `MarketSafety`, `AuctionSafety`, `OwnershipSafety`, `Expiry`, `Payments`: the theorems
  about runs.
- `RecordOutcomes`, `TermOutcomes`, `SaleOutcomes`, `AuctionOutcomes`, `SystemOutcomes`: for every
  instruction, when it succeeds and what it leaves of the whole state, from its own arguments: stored
  terms, and how much every account gets and pays whichever accounts coincide.
- `Indexer`: the event fold, the store class, and when the index tells the truth.
- `HashedRegistry`: the registry as it is stored, with accounts at 32-byte digests that handlers
  recompute, and its agreement with the name-keyed one up to a keccak collision among the run's names.
- `Counterexamples`: one concrete run or input for each promise below that fails.

`dafny verify dfyconfig.toml` checks everything.

## Where the code and its documentation disagree

The model follows the code. `Counterexamples` holds the failing inputs; the lemmas named here give the
exact conditions.

- `programs/solans/src/state/name_record.rs:55-57` says that burning and re-registering a parent
  invalidates its subtree. It does so except within one second: `registered_at` is a clock reading,
  so a parent re-registered in the second of its old registration keeps its children alive
  (`TreeSafety.ReRegistrationExact`, `Counterexamples.SameSecondRevival`). A takeover always works (`TreeSafety.ClaimKillsSubtree`).
- `sum of pending <= reward vault` does not hold. Each stake or unstake may leave almost one unit of
  rounding credit (`StakingSolvency.VaultCanBeOverpromised`); `StakingSolvency.TotalPendingBound`
  is the bound that does hold, and `StakingSolvency.CoveredExactly` the exact books. A staker whose
  payout the vault cannot make cannot withdraw its stake either (`StakingSolvency.StakerCanBeLockedIn`);
  `StakingSolvency.UnstakeExact` says when it can.
- The TypeScript client treats an unknown last segment as a label under `.sol`, the Rust client
  always as a TLD (`Paths.ClientsAgree`).
- The SDK doubles the emoji tier in unbounded integers, the chain saturates at u64
  (`Economics.PricesAgree`).
- `move_lamports` reads both balances before writing either, so it is safe only between distinct
  accounts; its one caller satisfies that (`Ledger.MoveLamportsConserves`, `Payments.RunConserves`).
- The indexer extends from the indexed expiry, the chain from the later of expiry and now, so the
  two part after a late renewal. Keeper renewals, takeovers, settlements, redemptions, accepted
  offers, repricing and revocations are not decoded at all (`Indexer.AgreementExact`).
- `programs/solans/src/instructions/settle_auction.rs:8-12` says that a settlement always drains and
  closes the bid vault. It moves out the highest bid only, and a vault that holds more cannot be
  closed, so one token from an outsider blocks settlement and cancellation for good
  (`AuctionSafety.SettlementExact`, `AuctionSafety.DonationBlocks`, `Counterexamples.DonationBlocksAuction`).
- `programs/solans/src/instructions/start_auction.rs:11-12` says that no expiry guard is needed because
  of the grace period. An auction can outlast expiry and grace; a claimant then holds a name that the old
  auction's settlement takes away (`OwnershipSafety.OwnerChangeExact`,
  `Counterexamples.StaleAuctionTakesName`).
- A takeover may leave a listing or auction account behind, and a listed subdomain can be revoked;
  these are exactly the two ways the market interlock breaks (`MarketSafety.InterlockExact`).

## Model

| member | source | states |
|---|---|---|
| `StakingProgram.StakePool.Sync` | programs/solans/src/state/stake.rs:49-65 | crediting new deposits into the accumulator, in place: the pool becomes exactly the synced pool, or an overflow is reported |
| `StakingProgram.StakePool.AccruedFor` | programs/solans/src/state/stake.rs:68-73 | the lifetime reward floor(amount * acc / SCALE), refused on u128 overflow |
| `StakingProgram.StakePool.PendingFor` | programs/solans/src/state/stake.rs:76-78 | lifetime reward less the recorded debt, saturating, then truncated to u64 as the source's cast does |
| `StakingProgram.Program.SettlePending` | programs/solans/src/instructions/stake.rs:72-87 | the prefix all three handlers share: sync, then work out a payout the vault can make |
| `StakingProgram.Program.StakeTokens` | programs/solans/src/instructions/stake.rs:54-115 | the handler follows the model's `Stake` step exactly, and a revert leaves every account as it was |
| `StakingProgram.Program.UnstakeTokens` | programs/solans/src/instructions/unstake.rs:45-98 | the handler follows the model's `Unstake` step exactly, reverts included |
| `StakingProgram.Program.Claim` | programs/solans/src/instructions/claim_rewards.rs:36-65 | the handler follows the model's `ClaimRewards` step exactly, reverts included |
| `StakingProgram.Program.constructor` | programs/solans/src/instructions/init_stake_pool.rs:65-78 | a fresh pool is empty and has nothing accumulated |
| `StakingProgram.Program.ExecuteAll` | programs/solans/src/lib.rs:190-200 | any sequence of staking transactions leaves exactly the state of the model's run, so the run theorems below speak about the handlers |
| `StakingProgram.Program.PendingReward` | clients/sdk/src/client.ts:215-230 | the SDK's quote is what is pending once every deposit already in the vault is credited |
| `StakingProgram.QuoteIsPaid` | programs/solans/src/instructions/claim_rewards.rs:39-63 | a claim that succeeds pays the SDK's quote exactly when the quote fits a u64; otherwise it pays the quote modulo 2^64 |
| `StakingProgram.ReachableQuoteIsPaid` | clients/sdk/src/client.ts:215-230 | in every reachable state the SDK's quote is at most the vault plus one unit per stake or unstake so far, and a successful claim pays it less what the u64 cast cuts off, which is nothing while that bound fits a u64 |
| `StakingSolvency.StepShape` | programs/solans/src/instructions/unstake.rs:45-96 | what every successful stake, unstake or claim does to pool, positions, both vaults and both kinds of wallets, stated once for all three |
| `StakingSolvency.SettleSplitsCredit` | programs/solans/src/state/stake.rs:76-78 | a payout takes exactly the whole units of a position's credit and leaves its fractional dust |
| `StakingSolvency.Solvency` | programs/solans/src/state/stake.rs:46-78 | over any interleaving by any number of stakers: total_staked is the sum of the positions and the stake vault, every debt is within the accrued reward, and the sum of all credits equals SCALE times the counted vault balance plus an exactly accounted drift |
| `StakingSolvency.StepKeepsInv` | programs/solans/src/instructions/stake.rs:72-113 | one instruction moves the drift by the dust it hands out minus the dust, remainder and truncation it forfeits |
| `StakingSolvency.DriftOfBound` | programs/solans/src/instructions/unstake.rs:61-94 | only a successful stake or unstake can add drift, and at most SCALE - 1; deposits, claims and reverts never do |
| `StakingSolvency.TotalDriftBound` | programs/solans/src/state/stake.rs:49-78 | the drift of a run is at most (SCALE - 1) times its successful stakes and unstakes |
| `StakingSolvency.TotalPendingBound` | programs/solans/src/state/stake.rs:49-78 | in every reachable state all stakers together can claim at most the vault plus one unit per stake or unstake ever made; total_staked equals the positions and the stake vault |
| `StakingSolvency.CoveredExactly` | programs/solans/src/state/stake.rs:49-78 | in every reachable state the total claimable equals the vault plus the run's drift less the undistributed remainder and the positions' dust, in units of 1/SCALE; so the vault covers it if and only if the drift is within those two |
| `StakingSolvency.ExactSolvency` | programs/solans/src/state/stake.rs:67-78 | when positions are sized only while the accumulator is zero, everything claimable is covered by the vault exactly |
| `StakingSolvency.PayoutCovered` | programs/solans/src/instructions/claim_rewards.rs:39-54 | with less than one unit of drift a synced pool can pay a staker if and only if the product of its stake and the accumulator fits u128 |
| `StakingSolvency.ClaimExact` | programs/solans/src/instructions/claim_rewards.rs:36-65 | a claim succeeds if and only if the staker has a position and its pending payout is computable and within the vault |
| `StakingSolvency.UnstakeExact` | programs/solans/src/instructions/unstake.rs:45-98 | a staker can withdraw any part of its stake if and only if its pending payout is computable and within the vault; nothing else can stop it |
| `StakingSolvency.VaultCanBeOverpromised` | programs/solans/src/state/stake.rs:67-78 | the plain claim `pending <= vault` is false: five ordinary instructions after which 5 units are claimable from a vault of 4 |
| `StakingSolvency.StakerCanBeLockedIn` | programs/solans/src/instructions/unstake.rs:61-78 | two claims after those instructions the third staker can neither claim nor withdraw the token it staked |
| `StakingCustody.PropertyKept` | programs/solans/src/instructions/unstake.rs:71-79 | over any run a wallet's `$SOLANS`, in hand and staked, never change |
| `StakingCustody.StakeTakes` | programs/solans/src/instructions/stake.rs:89-106 | a successful stake, first or top-up, moves exactly its amount from the staker's wallet into the stake vault and its position, and touches no other wallet or position |
| `StakingCustody.UnstakeReturns` | programs/solans/src/instructions/unstake.rs:71-88 | a successful unstake moves exactly its amount back to the staker's wallet, and touches no other wallet or position |
| `StakingCustody.ClaimKeepsStakes` | programs/solans/src/instructions/claim_rewards.rs:36-65 | a claim moves no stake and touches no other position |
| `StakingCustody.StakeExact` | programs/solans/src/instructions/stake.rs:54-108 | a stake succeeds if and only if the wallet holds it, the pending payout can be made and the new amounts fit their widths |
| `StakingCustody.SyncExact` | programs/solans/src/state/stake.rs:49-65 | a sync fails if and only if its u128 arithmetic overflows |
| `StakingCustody.DepositIs` | programs/solans/src/state/stake.rs:46-48 | a deposit within the supply of the payment mint raises the reward vault and changes nothing else |
| `StakingCustody.RewardsConserved` | programs/solans/src/instructions/claim_rewards.rs:45-54 | over any run reward vault and wallets together hold what they held plus what was deposited |
| `StakingFairness.AccIsFloors` | programs/solans/src/state/stake.rs:49-65 | the accumulator's growth over any run is the sum of the floored per-share deposits noticed while something was staked; deposits arriving with nothing staked are never credited |
| `StakingFairness.FloorsTrackShare` | programs/solans/src/state/stake.rs:49-73 | amount times the accumulated floors stays within `amount` units of 1/SCALE per notice of the exact rational share, and never above it |
| `StakingFairness.ClaimsTelescope` | programs/solans/src/instructions/claim_rewards.rs:39-63 | whatever the others do and however often a staker claims, paid plus pending plus what the u64 cast cut off moves exactly as the floored lifetime reward |
| `StakingFairness.ProRata` | programs/solans/src/state/stake.rs:46-78 | the constant-time accumulator refines the pro-rata ledger: paid plus pending, cut payouts counted, is less than 1 above and less than 1 + K * amount / SCALE below the exact share of the K noticed deposits |
| `StakingFairness.ReachableProRata` | programs/solans/src/state/stake.rs:46-78 | the same guarantee from every state reachable from a fresh pool, without further condition |
| `StakingFairness.EntitlementGain` | programs/solans/src/instructions/stake.rs:70-106 | any instruction by anybody, stakes and unstakes included, moves paid plus pending plus cut of a staker exactly as the floored lifetime reward of the stake it held before |
| `StakingFairness.LifetimeProRata` | programs/solans/src/state/stake.rs:46-78 | over a staker's whole lifetime with R stakes and unstakes, paid plus pending, cut payouts counted, is less than R + 1 above the exact share of every deposit for the stake held at the time, and less than R + 1 plus the floors' loss below it |
| `StakingFairness.ReachableLifetime` | programs/solans/src/state/stake.rs:46-78 | the same from every state reachable from a fresh pool |
| `StakingFairness.FreshPoolCutsNothing` | programs/solans/src/state/stake.rs:76-78 | the u64 cast of a payout never cuts anything while the supply of the payment mint plus the number of instructions fits a u64 |
| `StakingFairness.SplittingDeposits` | programs/solans/src/state/stake.rs:51-62 | noticing one deposit in several syncs never raises the accumulator and lowers it by at most one per extra sync |
| `Naming.ValidateName` | programs/solans/src/utils.rs:53-82 | the one-pass check accepts exactly the valid labels: 1-63 bytes, allowed characters, no leading, trailing or double hyphen; it reports a length error exactly for a bad length |
| `Naming.ValidateLabel` | clients/ts/src/normalize.ts:56-80 | the TypeScript check accepts exactly the same labels |
| `Naming.EmojiMirrored` | clients/ts/src/normalize.ts:22-33 | the client's emoji ranges are the program's |
| `Naming.ValidLabelParts` | programs/solans/src/utils.rs:47-52 | a label is valid if and only if it has 1 to 63 bytes and falls, at its hyphens, into non-empty pieces of letters, digits and emoji |
| `Naming.Utf8Injective` | programs/solans/src/utils.rs:94-105 | distinct strings have distinct UTF-8 bytes |
| `Naming.Utf8Widths` | programs/solans/src/utils.rs:94-96 | a character has one to four bytes by its code point, and only a single byte is below 0x80 |
| `Naming.SplitAtDot` | programs/solans/src/utils.rs:88-96 | a label without the dot byte is recovered from the bytes of `label.tld`, so label and TLD are determined by the preimage |
| `Naming.TopLevelNeverSubdomain` | programs/solans/src/instructions/renew_name.rs:61-66 | no validated `name.tld` has the hash preimage of a subdomain |
| `Naming.UncheckedNameMatches` | programs/solans/src/instructions/set_reverse.rs:39-42 | a name hashed without validation under the record's own TLD still has to be the registered label |
| `Naming.DistinctNamesCollide` | programs/solans/src/utils.rs:88-105 | two different valid names at any depths with one key exhibit a keccak collision, for any 32-byte hash function |
| `Naming.ClashingAncestors` | programs/solans/src/utils.rs:88-105 | the collision is between the two names themselves or between ancestors of them |
| `Paths.ParsePathText` | clients/ts/src/normalize.ts:106-122 | the path parser returns exactly the labels and TLD the text denotes, or rejects it |
| `Paths.ParsePrint` | clients/ts/src/normalize.ts:106-122 | printing any valid path and parsing it returns the same labels and TLD |
| `Paths.PrintParse` | clients/ts/src/normalize.ts:106-122 | every accepted text denotes a valid path that prints back to the text, with `.sol` written out when the TLD was implied |
| `Paths.ParseOverride` | clients/ts/src/normalize.ts:115 | an allowed TLD given separately, with or without a dot, replaces the text's own, another one is refused, an empty one ignored |
| `Paths.ParseBare` | clients/ts/src/normalize.ts:106-122 | labels alone, the last of them no TLD, parse as a path under `.sol` |
| `Paths.ComputeSubdomainHash` | clients/ts/src/hashName.ts:28-36 | the buffer-filling hash digests exactly 0x00, the parent hash and the label |
| `Paths.ComputeNameInfo` | clients/ts/src/hashName.ts:55-64 | the root-first loop yields the key, parent key and depth that register and successive wraps build |
| `Paths.NameHashForPath` | clients/rust/src/hash.rs:24-38 | the Rust loop yields the key of the name it takes the text to mean |
| `Paths.ClientsAgree` | clients/rust/src/hash.rs:24-38 | on every text the TypeScript client accepts, the Rust client means the same name if and only if the text has no dot or ends in an accepted TLD |
| `Paths.DistinctPathsCollide` | clients/ts/src/hashName.ts:55-64 | different valid paths with one hash exhibit a keccak collision |
| `Paths.IdOfInjective` | clients/ts/src/hashName.ts:55-64 | labels and TLD are determined by the name they denote |
| `RecordStore.Store.UpsertRecord` | programs/solans/src/state/name_record.rs:70-81 | the in-place upsert follows its specification, and a refused one changes nothing |
| `RecordStore.Store.DeleteRecord` | programs/solans/src/state/name_record.rs:84-92 | the in-place delete follows its specification, and a refused one changes nothing |
| `RecordStore.UpsertIsUpdate` | programs/solans/src/state/name_record.rs:70-81 | seen as a map an upsert sets one key; it is refused exactly when a new key meets a full store; keys stay distinct and at most 16 |
| `RecordStore.DeleteIsRemove` | programs/solans/src/state/name_record.rs:84-92 | seen as a map a delete removes one key; it is refused exactly when the key is absent |
| `RecordSafety.RunKeepsForm` | programs/solans/src/state/name_record.rs:70-92 | in every reachable state every stored record vector has distinct keys and at most 16 entries |
| `RecordSafety.InitialForm` | programs/solans/src/instructions/init_config.rs:44-109 | the invariant holds of a fresh registry |
| `RecordSafety.WriteIsUpdate` | programs/solans/src/instructions/update_record.rs:34-41 | after any run, a successful write sets, and a successful delete removes, exactly one key of the name's records seen as a map |
| `Ledger.MoveLamportsConserves` | programs/solans/src/utils.rs:110-123 | reading both balances before writing either conserves lamports if and only if the accounts differ or the amount is zero; otherwise it creates the amount |
| `Ledger.MovesConserve` | programs/solans/src/utils.rs:145-266 | any list of payments keeps lamports and payment tokens in total, and burnt `$SOLANS` leave the supply |
| `Economics.FeeSplitExact` | programs/solans/src/state/config.rs:86-102 | under any accepted configuration the four shares add up to the fee, no subtraction saturates, and the treasury gets at least 1 of a positive fee |
| `Economics.PricePositive` | programs/solans/src/instructions/update_config.rs:42-46 | under any accepted configuration no label is free |
| `Economics.PricesAgree` | clients/sdk/src/client.ts:63-72 | SDK and chain quote the same price for a label if and only if it is ASCII or its doubled tier fits a u64; for the empty text only by chance |
| `Economics.PayInNeverProfits` | programs/solans/src/state/config.rs:111-135 | buying back what was burnt to pay a fee never returns more than the fee, for every rate and discount |
| `Economics.SplitBuybackNeverGains` | programs/solans/src/state/config.rs:128-135 | splitting a buyback never extracts more |
| `RegistryProgram.Program.TransferTokens` | programs/solans/src/utils.rs:145-169 | a checked token transfer, in place, equals the model's payment; zero is a no-op |
| `RegistryProgram.Program.BurnTokens` | programs/solans/src/utils.rs:202-219 | a burn lowers balance and supply together |
| `RegistryProgram.Program.CreateTokenAccount` | programs/solans/src/instructions/start_auction.rs:45-53 | a token account can be created once |
| `RegistryProgram.Program.CloseTokenAccount` | programs/solans/src/utils.rs:246-266 | a token account is closed when it is empty, and only then |
| `RegistryProgram.Program.MoveLamportsOut` | programs/solans/src/utils.rs:110-123 | the two-step lamport debit equals its specification and is undone when the credit overflows |
| `RegistryProgram.Program.DistributeFee` | programs/solans/src/utils.rs:303-360 | the up-to-four transfers equal the split of the fee, the referral share folding into the treasury, all or nothing |
| `RegistryProgram.Program.Charge` | programs/solans/src/instructions/register_with_solans.rs:70-85 | a term is charged in the payment token or by burning `$SOLANS`, with the overflow and enablement refusals |
| `RegistryProgram.Program.NewRecord` | programs/solans/src/utils.rs:270-296 | the guards and the fully initialised record of a registration |
| `RegistryProgram.Program.RegisterName` | programs/solans/src/instructions/register_name.rs:72-122 | registration follows the model or changes nothing |
| `RegistryProgram.Program.ExtendTerm` | programs/solans/src/instructions/renew_name.rs:61-96 | the guards of a renewal and the expiry extended from the later of expiry and now |
| `RegistryProgram.Program.RenewName` | programs/solans/src/instructions/renew_name.rs:60-97 | renewal follows the model or changes nothing |
| `RegistryProgram.Program.AutoRenew` | programs/solans/src/instructions/auto_renew.rs:64-115 | a keeper's renewal: one year only, inside the window, at the owner's expense |
| `RegistryProgram.Program.TakeOver` | programs/solans/src/instructions/claim_expired.rs:63-131 | the takeover guards and the complete reset of the record, field by field |
| `RegistryProgram.Program.ClaimExpired` | programs/solans/src/instructions/claim_expired.rs:62-132 | a takeover follows the model or changes nothing |
| `RegistryProgram.Program.BurnName` | programs/solans/src/instructions/burn_name.rs:18-25 | closing a record that is neither tokenized nor on sale, by its owner |
| `RegistryProgram.Program.TransferName` | programs/solans/src/instructions/transfer_name.rs:15-26 | a transfer clears delegate and reverse flag, and is refused while tokenized, on sale or locked |
| `RegistryProgram.Program.SetController` | programs/solans/src/instructions/set_controller.rs:15-23 | delegation by the owner of an unbound name |
| `RegistryProgram.Program.LockTransfer` | programs/solans/src/instructions/lock_transfer.rs:15-23 | the lock flag of an unbound name, by its owner |
| `RegistryProgram.Program.WriteRecord` | programs/solans/src/instructions/update_record.rs:34-41 | the length limits and the in-place write or delete |
| `RegistryProgram.Program.UpdateRecord` | programs/solans/src/instructions/update_record.rs:24-43 | record writes by holder, owner or delegate with the length limits, never while on sale |
| `RegistryProgram.Program.SetResolver` | programs/solans/src/instructions/set_resolver.rs:23-34 | the resolver field, by holder or owner, never while on sale |
| `RegistryProgram.Program.SetHosting` | programs/solans/src/instructions/set_hosting.rs:25-39 | the hosting reference, by holder, owner or delegate, with its length limit |
| `RegistryProgram.Program.NftName` | programs/solans/src/instructions/tokenize_name.rs:98-103 | the popped name is the longest prefix of the full name within 32 bytes, cut at whole characters |
| `RegistryProgram.Program.TokenizeName` | programs/solans/src/instructions/tokenize_name.rs:79-94 | the guards of tokenization and the stored mint |
| `RegistryProgram.Program.RedeemName` | programs/solans/src/instructions/redeem_name.rs:59-88 | redeeming hands the record to the NFT's holder and forgets the mint |
| `RegistryProgram.Program.ListName` | programs/solans/src/instructions/list_name.rs:34-59 | a listing is opened and the name frozen |
| `RegistryProgram.Program.UpdateListing` | programs/solans/src/instructions/update_listing.rs:20-29 | only price and expiry of the seller's listing change |
| `RegistryProgram.Program.CancelListing` | programs/solans/src/instructions/cancel_listing.rs:35-49 | the seller, or anyone after expiry, closes the listing and unfreezes the name |
| `RegistryProgram.Program.BuyName` | programs/solans/src/instructions/buy_name.rs:45-110 | seller and treasury are paid, the name changes hands unfrozen, the listing closes; or nothing changes |
| `RegistryProgram.Program.StartAuction` | programs/solans/src/instructions/start_auction.rs:59-95 | an auction is opened and the name frozen |
| `RegistryProgram.Program.EscrowBid` | programs/solans/src/instructions/bid.rs:78-104 | the previous bidder is refunded before the new bid is escrowed, all or nothing |
| `RegistryProgram.Program.Bid` | programs/solans/src/instructions/bid.rs:58-125 | a bid follows the model, anti-snipe extension included, or changes nothing |
| `RegistryProgram.Program.PayOut` | programs/solans/src/instructions/settle_auction.rs:78-126 | the seller is paid, the fee burnt and the vault closed, all or nothing |
| `RegistryProgram.Program.SettleAuction` | programs/solans/src/instructions/settle_auction.rs:66-130 | settlement follows the model for won and unsold auctions |
| `RegistryProgram.Program.CancelAuction` | programs/solans/src/instructions/cancel_auction.rs:44-65 | an auction without bids is called off and the name unfrozen |
| `RegistryProgram.Program.WrapSubdomain` | programs/solans/src/instructions/wrap_subdomain.rs:38-84 | a child record with captured birth and capped depth, or nothing |
| `RegistryProgram.Program.RevokeSubdomain` | programs/solans/src/instructions/revoke_subdomain.rs:30-37 | the parent's owner closes an untokenized child |
| `RegistryProgram.Program.SetReverse` | programs/solans/src/instructions/set_reverse.rs:32-55 | a verified reverse record for a top-level name the signer owns |
| `RegistryProgram.Program.MakeOffer` | programs/solans/src/instructions/make_offer.rs:34-65 | an offer is opened and its amount escrowed |
| `RegistryProgram.Program.AcceptOffer` | programs/solans/src/instructions/accept_offer.rs:43-79 | the escrow pays owner and treasury, the rest returns to the buyer, the name changes hands |
| `RegistryProgram.Program.CancelOffer` | programs/solans/src/instructions/cancel_offer.rs:34-56 | who may close an offer and when; the whole escrow returns to the buyer |
| `RegistryProgram.Program.BuybackBurn` | programs/solans/src/instructions/buyback_burn.rs:67-107 | a keeper is reimbursed from the burn vault and its `$SOLANS` burnt, or nothing happens |
| `RegistryProgram.Program.UpdateConfig` | programs/solans/src/instructions/update_config.rs:23-70 | the parameters change exactly when the new configuration is within bounds |
| `RegistryProgram.Program.SetSolansParams` | programs/solans/src/instructions/set_solans_params.rs:22-35 | rate and discount change exactly when the discount is below 100% |
| `RegistryProgram.Program.InitStakePool` | programs/solans/src/instructions/init_stake_pool.rs:75-76 | the staker share is pointed at the pool's reward vault |
| `RegistryProgram.Program.InitBurnPool` | programs/solans/src/instructions/init_burn_pool.rs:47-52 | the burn vault and the `$SOLANS` mint are set |
| `RegistryProgram.Program.Execute` | programs/solans/src/lib.rs:56-296 | every instruction, dispatched to its handler, is the model's step: same success, same final state |
| `RegistryProgram.Program.ExecuteAll` | programs/solans/src/lib.rs:56-296 | any sequence of transactions, failed ones included, leaves the state of the model's run |
| `TermOutcomes.PriceIs` | programs/solans/src/state/config.rs:56-81 | the yearly price: twice the length tier, capped at u64, with an emoji; the numeric price for up to four digits; else the tier |
| `TermOutcomes.ChargeExact` | programs/solans/src/utils.rs:303-336 | a term's charge moves exactly years times the yearly price: the payer loses it, the stakers', burn and referral shares are floored parts of 10000, the treasury gets the rest, in `$SOLANS` the discounted rate is burnt; it goes through when the payer can pay, and otherwise only if the payer shares in it |
| `TermOutcomes.RegisterIs` | programs/solans/src/instructions/register_name.rs:72-122 | a registration costs its years and stores a fresh record for exactly that long from now; nothing else changes; when it succeeds |
| `TermOutcomes.RenewIs` | programs/solans/src/instructions/renew_name.rs:60-97 | a renewal costs its years and adds exactly them to the later of expiry and now; nothing else changes; when it succeeds |
| `TermOutcomes.KeeperRenewIs` | programs/solans/src/instructions/auto_renew.rs:64-115 | a keeper's renewal adds exactly one year, from 30 days before expiry on, and the owner pays the yearly price; when it succeeds |
| `TermOutcomes.ClaimIs` | programs/solans/src/instructions/claim_expired.rs:62-132 | a takeover past grace costs its years, grants exactly them from now to the claimer, and clears delegate, records, resolver, hosting, flags and mint; when it succeeds |
| `TermOutcomes.NothingToExtend` | programs/solans/src/instructions/claim_expired.rs:62-75 | without a record there is nothing to renew or take over |
| `SaleOutcomes.OpenListingIs` | programs/solans/src/instructions/list_name.rs:34-59 | a listing stores seller, price and expiry and freezes the name, or nothing happens; when |
| `SaleOutcomes.RepriceIs` | programs/solans/src/instructions/update_listing.rs:20-29 | repricing replaces price and expiry of the seller's own listing; when |
| `SaleOutcomes.CloseListingIs` | programs/solans/src/instructions/cancel_listing.rs:35-49 | the seller any time, anyone after expiry: the listing closes and the name is free |
| `SaleOutcomes.BuyIs` | programs/solans/src/instructions/buy_name.rs:45-110 | a purchase succeeds if and only if the listing is good and the buyer holds the price; the buyer pays it, the seller gets it less the floored fee, the treasury the fee, every other account nothing; the name changes hands clean |
| `SaleOutcomes.MakeOfferIs` | programs/solans/src/instructions/make_offer.rs:34-65 | an offer stores amount and expiry and moves the amount into its escrow; when |
| `SaleOutcomes.CancelOfferIs` | programs/solans/src/instructions/cancel_offer.rs:34-56 | buyer, presenting owner, or anyone after expiry: the whole escrow returns to the buyer |
| `SaleOutcomes.AcceptOfferIs` | programs/solans/src/instructions/accept_offer.rs:43-79 | an accepted offer pays the owner the amount less the floored fee and the treasury the fee, returns the rest of the escrow to the buyer and hands the name over; it fails only if not acceptable, not covered, or a credit overflows |
| `AuctionOutcomes.OpenAuctionIs` | programs/solans/src/instructions/start_auction.rs:59-95 | an auction stores seller, reserve, increment and end, freezes the name and creates an empty vault; when |
| `AuctionOutcomes.BidIs` | programs/solans/src/instructions/bid.rs:58-125 | a bid succeeds if and only if timely, at least the reserve or the standing bid plus increment, positive, not the seller's, and funded after its own refund; the standing bid is refunded, the new one escrowed, the end moved to at least 300 seconds from now |
| `AuctionOutcomes.BidsFromReserve` | programs/solans/src/instructions/start_auction.rs:81-88 | from the opening instruction's own arguments: the n-th accepted bid is at least the reserve plus n - 1 increments, and the auction closes at the asked time or 300 seconds after the last bid |
| `AuctionOutcomes.SettleIs` | programs/solans/src/instructions/settle_auction.rs:66-130 | a settlement pays the seller the bid less the floored fee, burns the fee, closes the vault and gives the name to the winner clean, or back to the seller |
| `AuctionOutcomes.CallOffIs` | programs/solans/src/instructions/cancel_auction.rs:44-65 | the seller of an auction without bids frees the name and closes the empty vault; when |
| `RecordOutcomes.ReleaseIs` | programs/solans/src/instructions/burn_name.rs:18-25 | the owner of a free name closes its record; when |
| `RecordOutcomes.GiveIs` | programs/solans/src/instructions/transfer_name.rs:15-26 | the owner of a free, unlocked name hands it over; delegate and reverse flag are cleared, everything else stays |
| `RecordOutcomes.DelegateIs` | programs/solans/src/instructions/set_controller.rs:15-23 | only the delegate changes; when |
| `RecordOutcomes.LockIs` | programs/solans/src/instructions/lock_transfer.rs:15-23 | only the lock changes; when |
| `RecordOutcomes.WriteIs` | programs/solans/src/instructions/update_record.rs:24-43 | who may write, which keys and values fit, and that nothing but the record vector changes |
| `RecordOutcomes.ResolverIs` | programs/solans/src/instructions/set_resolver.rs:23-34 | only the resolver changes; the holder by record or NFT may |
| `RecordOutcomes.HostingIs` | programs/solans/src/instructions/set_hosting.rs:25-39 | only the hosting reference changes, up to 80 bytes; the holder or delegate may |
| `RecordOutcomes.TokenizeIs` | programs/solans/src/instructions/tokenize_name.rs:78-172 | only the mint is stored; the owner of a free top-level name may, under its own name |
| `RecordOutcomes.RedeemIs` | programs/solans/src/instructions/redeem_name.rs:59-88 | the record goes to the NFT's holder, clean and untokenized; when |
| `RecordOutcomes.WrapIs` | programs/solans/src/instructions/wrap_subdomain.rs:38-84 | a child starts now, inherits TLD and expiry, captures its parent's birth, one level deeper, four at most; when |
| `RecordOutcomes.RevokeIs` | programs/solans/src/instructions/revoke_subdomain.rs:30-37 | the parent's owner closes an untokenized child; when |
| `RecordOutcomes.SetReverseIs` | programs/solans/src/instructions/set_reverse.rs:32-55 | the owner's reverse record points to its own free top-level name; when |
| `SystemOutcomes.BuybackIs` | programs/solans/src/instructions/buyback_burn.rs:67-107 | a buyback succeeds if and only if funded on both sides; the vault pays the floored undiscounted rate to the keeper, whose `$SOLANS` leave the supply |
| `SystemOutcomes.SendIs` | programs/solans/src/instructions/buyback_burn.rs:82-99 | outsiders can pay from any balance of theirs but draw on no escrow or vault, and change nothing but balances |
| `SystemOutcomes.ConfigureIs` | programs/solans/src/instructions/update_config.rs:40-52 | a configuration is accepted if and only if within the bounds, field by field |
| `TreeSafety.RunKeepsTree` | programs/solans/src/instructions/wrap_subdomain.rs:49-82 | in every reachable state parent pointers agree with the names' own structure (hence are acyclic), depth is the nesting and at most 4, births precede expiries and the clock, and no child remembers a birth later than its parent's |
| `TreeSafety.InitialTree` | programs/solans/src/instructions/init_config.rs:44-109 | the tree and reverse invariants hold of a fresh registry |
| `TreeSafety.Resolve` | clients/rust/src/client.rs:52-67 | the clients' loop terminates with depth as its measure, takes at most depth (at most 4) hops, and returns the record exactly when every ancestor exists with the captured birth |
| `TreeSafety.AncestorsOlder` | clients/sdk/src/client.ts:99-114 | if a name resolves, every ancestor resolves and was born no later |
| `TreeSafety.SubtreeStaysDead` | programs/solans/src/state/name_record.rs:55-57 | after a name was claimed, burned or revoked at clock T, no run lets a descendant created before T resolve |
| `TreeSafety.ClaimRaisesBirth` | programs/solans/src/instructions/claim_expired.rs:77-113 | a claim strictly raises registered_at |
| `TreeSafety.ClaimKillsSubtree` | programs/solans/src/instructions/claim_expired.rs:120-125 | a claim makes every existing descendant stop resolving at once |
| `TreeSafety.RemovalMarks` | programs/solans/src/instructions/burn_name.rs:18-25 | burning or revoking starts the same protection at the current clock |
| `TreeSafety.ReRegistrationExact` | programs/solans/src/state/name_record.rs:55-57 | a name is removed and registered again, with anything in between that leaves one branch of its subtree alone: a descendant on it, at any depth, that resolved before resolves again if and only if the new registration falls in the second of the old one |
| `TreeSafety.RebirthExact` | clients/rust/src/client.rs:57-65 | an unchanged branch resolves in a later state if and only if its ancestor resolves there with the birth it had |
| `TreeSafety.RenewalsAreTopLevel` | programs/solans/src/instructions/auto_renew.rs:65-70 | renewal, keeper renewal and takeover succeed only on a top-level name, whose hash preimage differs from that of every subdomain |
| `TreeSafety.ReverseSound` | clients/rust/src/client.rs:103-112 | after any run, a name returned for a wallet resolves, to a record that wallet owns |
| `TreeSafety.LookupExact` | clients/sdk/src/client.ts:246-257 | a wallet has a primary name if and only if its reverse record points to a name it still owns, and it is the recorded one |
| `TreeSafety.SetThenLookup` | programs/solans/src/instructions/set_reverse.rs:46-53 | a verified reverse record takes effect at once |
| `MarketSafety.ListedIsBacked` | programs/solans/src/state/name_record.rs:60-63 | in every reachable state a listed name is not tokenized, not locked, and has an open listing or auction |
| `MarketSafety.PerformInterlock` | programs/solans/src/instructions/claim_expired.rs:128-130 | an operation on one name keeps its interlock if and only if it is not a takeover of a name with an open market account |
| `MarketSafety.InterlockExact` | programs/solans/src/instructions/start_auction.rs:65-91 | a successful instruction keeps the interlock of all names if and only if it neither claims a name with an open market account nor revokes a listed subdomain; the interlock: listed means exactly one of listing and auction, opened by the current owner, otherwise none |
| `MarketSafety.InterlockKept` | programs/solans/src/instructions/list_name.rs:34-55 | the interlock holds in every state of every run of such instructions |
| `MarketSafety.InitialMarkets` | programs/solans/src/instructions/init_config.rs:44-109 | the market invariants hold of a fresh registry |
| `MarketSafety.StepNoNewChild` | programs/solans/src/instructions/wrap_subdomain.rs:42-43 | no subdomain appears under a listed name |
| `MarketSafety.SaleFreezesName` | programs/solans/src/state/name_record.rs:60-63 | from opening to closing a sale no such run changes owner, delegate, records, resolver, hosting, lock, reverse flag or mint, nor adds subdomains; the expiry can only grow |
| `AuctionSafety.RunKeepsVaults` | programs/solans/src/instructions/bid.rs:78-108 | in every reachable state, whatever outsiders pay in, the vault of an auction holds at least its highest bid, which is zero without a bidder |
| `AuctionSafety.SurplusStep` | programs/solans/src/instructions/bid.rs:78-108 | no handler changes what an open auction's vault holds beyond the standing bid; outside payments add exactly their amount |
| `AuctionSafety.VaultHoldsBidAndDonations` | programs/solans/src/instructions/start_auction.rs:45-53 | from its opening on, while it is open, an auction's vault holds exactly the highest bid plus what outsiders paid into it |
| `AuctionSafety.OpensEmpty` | programs/solans/src/instructions/start_auction.rs:45-53 | an auction opens over a vault it creates, empty; a token account already there makes it fail |
| `AuctionSafety.InitialVaults` | programs/solans/src/instructions/init_config.rs:44-109 | the vault invariant holds of a fresh registry |
| `AuctionSafety.BidFlow` | programs/solans/src/instructions/bid.rs:78-104 | a bid makes the previous bidder whole and debits the new one; the supply is unchanged |
| `AuctionSafety.SettleFlow` | programs/solans/src/instructions/settle_auction.rs:78-126 | a settlement that goes through found exactly the bid in the vault, pays the seller bid minus fee, drops the supply by the fee and closes the vault |
| `AuctionSafety.BidKeepsWorth` | programs/solans/src/instructions/bid.rs:78-108 | a bid leaves every wallet's balance plus standing bids unchanged |
| `AuctionSafety.SettleMovesWorth` | programs/solans/src/instructions/settle_auction.rs:78-116 | a settlement takes the bid from the winner and gives bid minus fee to the seller, and touches nobody else |
| `AuctionSafety.AuctionLedger` | programs/solans/src/instructions/settle_auction.rs:66-126 | over any run, auctions change a wallet's worth only through settlements: being outbid nets to zero, the winner pays the highest bid, the seller gets it less the fee |
| `AuctionSafety.AuctionProgress` | programs/solans/src/instructions/bid.rs:64-116 | the n-th accepted bid is at least the first minimum plus n - 1 increments; the close is the later of the original end and 300 seconds after the last bid |
| `AuctionSafety.BidAdvances` | programs/solans/src/instructions/bid.rs:61-116 | an accepted bid meets the minimum and leaves at least 300 seconds |
| `AuctionSafety.BidsBounded` | programs/solans/src/instructions/bid.rs:64-72 | increment times the number of bids less one is bounded by the `$SOLANS` supply |
| `AuctionSafety.BidXorSettle` | programs/solans/src/instructions/settle_auction.rs:69 | bidding and settling are never both possible |
| `AuctionSafety.SettlementExact` | programs/solans/src/instructions/settle_auction.rs:66-126 | an auction can be settled if and only if its record exists, its end time has come and its vault holds the highest bid and nothing else |
| `AuctionSafety.CallOffExact` | programs/solans/src/instructions/cancel_auction.rs:44-65 | its seller can call it off if and only if its record exists, it has no bid and nobody paid into its vault |
| `AuctionSafety.SettlesUnlessDonated` | programs/solans/src/instructions/settle_auction.rs:8-12 | an auction that runs from its opening to its end can then be settled if and only if its record exists and nobody paid into its vault meanwhile |
| `AuctionSafety.DonationBlocks` | programs/solans/src/utils.rs:246-266 | once an outsider has paid into an open auction's vault, no later state of any run lets it be settled or called off |
| `OwnershipSafety.OwnerChangeExact` | programs/solans/src/instructions/settle_auction.rs:112-116 | a name that changes hands or closes does so by its owner's transfer, release or acceptance, a sale its owner opened, its NFT's holder, its parent's owner, or a takeover past grace, if and only if this is not the settlement of an auction whose seller is no longer the owner |
| `OwnershipSafety.OwnershipExact` | programs/solans/src/instructions/settle_auction.rs:112-116 | over any run a name changes hands only so, if and only if the run settles no such stale auction on it |
| `OwnershipSafety.OrderlyOwnership` | programs/solans/src/instructions/claim_expired.rs:128-130 | in particular over every run in which no claim hits a name with an open market account |
| `OwnershipSafety.StaleAuctionSettles` | programs/solans/src/instructions/start_auction.rs:11-12 | a stale auction that is over, with only its bid in the vault, can be settled, and its bidder becomes the owner |
| `OwnershipSafety.SellersSigned` | programs/solans/src/instructions/list_name.rs:46-55 | over any run the seller named in a listing or auction opened it itself, as the owner it then was, unless the run began with it |
| `Expiry.PerformExtends` | programs/solans/src/instructions/renew_name.rs:88-95 | a renewal or takeover adds at least a year to the expiry; other operations leave it |
| `Expiry.KeeperRateBound` | programs/solans/src/instructions/auto_renew.rs:78-113 | while a record stays open, k renewals and takeovers add at least k years, and n keeper renewals need the clock to reach the first expiry plus n - 1 years less 30 days |
| `Payments.RunConserves` | programs/solans/src/utils.rs:303-360 | over every run, whichever destination accounts coincide, lamports and payment tokens are conserved and burnt `$SOLANS` leave the supply |
| `Payments.TokenFlow` | programs/solans/src/utils.rs:145-169 | a payment list moves each account by exactly what it credits and debits, self-payments included |
| `Payments.FanOutExact` | programs/solans/src/utils.rs:303-336 | the payer loses the whole fee and each account receives exactly the shares addressed to it |
| `Payments.RunKeepsEscrows` | programs/solans/src/instructions/accept_offer.rs:53-70 | in every reachable state each open offer's escrow covers its amount |
| `Payments.BuybackFunded` | programs/solans/src/instructions/buyback_burn.rs:72-99 | a successful buyback pays a positive amount the vault holds and burns what the keeper sold |
| `Payments.BuybacksCovered` | programs/solans/src/instructions/buyback_burn.rs:67-99 | at a fixed rate, over any run, total paid times rate is at most total burnt times 10^6 |
| `Registry.OtherCellsKept` | programs/solans/src/lib.rs:56-296 | an instruction leaves the record, listing and auction of every other name as they were |
| `Registry.ConfigKept` | programs/solans/src/instructions/update_config.rs:40-52 | every reachable configuration satisfies the checked bounds |
| `Indexer.MemoryStore.ApplyEvent` | services/indexer/src/store.ts:94-167 | the in-place fold of one event equals its specification and keeps every entry under its own key |
| `Indexer.MemoryStore.GetByName` | services/indexer/src/store.ts:69-72 | the scan returns the first entry in insertion order with the full name, if there is one |
| `Indexer.Ingest` | services/indexer/src/app.ts:61-79 | a batch of instructions is decoded and folded in order, unknown ones skipped, and the number applied returned |
| `Indexer.MemoryStore.EntryFor` | services/indexer/src/store.ts:94-167 | the entry each kind of event writes, from the old entry, the parent's entry and the block time |
| `Indexer.AgreementExact` | services/indexer/src/parse.ts:59-137 | after one successful instruction index and chain still agree if and only if the instruction is not a late renewal, keeper renewal, takeover, changed repricing, won auction's settlement, redemption by a new holder, accepted offer or revocation |
| `Indexer.RenewAgrees` | services/indexer/src/store.ts:112-122 | after a renewal the indexed expiry equals the chain's if and only if the name had not lapsed |
| `Indexer.UnknownEntries` | services/indexer/src/store.ts:112-167 | a renewal of an unknown name starts from the block time, a child of an unknown parent has no full name, other events about unknown names are dropped |
| `Indexer.IndexAgreement` | services/indexer/src/store.ts:94-167 | over every run of the other instructions the fold agrees with the chain on owner, parent, birth, expiry, activity, asking price and seller, and every full name hashes to its key |
| `Indexer.EmptyIndexAgrees` | services/indexer/src/store.ts:59-61 | the empty index agrees with a fresh registry |
| `Indexer.OwnersFound` | services/indexer/src/store.ts:73-75 | the ownership query returns exactly the names the chain assigns to a wallet |
| `Indexer.FullNamesUnique` | services/indexer/src/store.ts:69-72 | a full name denotes at most one entry |
| `HashedRegistry.ChildKeyIs` | programs/solans/src/utils.rs:103-105 | the address recomputed from the parent's digest and the label is the subdomain's |
| `HashedRegistry.StepMatches` | programs/solans/src/lib.rs:56-296 | one instruction on accounts stored at digests succeeds if and only if it does by name, and the states still match |
| `HashedRegistry.InitialMatches` | programs/solans/src/instructions/init_config.rs:44-109 | a fresh registry matches itself |
| `HashedRegistry.ClashIsCollision` | programs/solans/src/utils.rs:88-105 | if two names a run compares share an address, two names of its scope have different preimages with one digest |
| `HashedRegistry.HashedRunOrCollision` | programs/solans/src/lib.rs:56-296 | from a fresh registry on, the run over hash-keyed accounts holds at every name's address what the name-keyed run holds for the name, or two names the run itself deals in are a keccak collision |
| `Counterexamples.SameSecondRevival` | programs/solans/src/state/name_record.rs:55-57 | register, wrap, burn and register again within one second: the old child resolves |
| `Counterexamples.TakeoverStrandsListing` | programs/solans/src/instructions/claim_expired.rs:128-130 | a takeover of a listed name leaves the former owner's listing on it |
| `Counterexamples.RevocationStrandsListing` | programs/solans/src/instructions/revoke_subdomain.rs:30-37 | revoking a listed subdomain leaves a listing without a name |
| `Counterexamples.StaleAuctionTakesName` | programs/solans/src/instructions/start_auction.rs:11-12 | a claim during an open auction: its later settlement takes the name from the new owner, without its consent |
| `Counterexamples.DonationBlocksAuction` | programs/solans/src/instructions/settle_auction.rs:8-12 | one token sent to an auction's vault: when its end has come, and whatever happens later, nobody can settle it or call it off |
| `Counterexamples.LateRenewalMisleadsIndex` | services/indexer/src/store.ts:112-122 | register, lapse, renew: the indexed expiry is no longer the chain's |
| `Counterexamples.TakeoverMisleadsIndex` | services/indexer/src/parse.ts:69-137 | register, lapse, take over: the index keeps the former owner |
| `Counterexamples.ClientsReadDifferently` | clients/rust/src/hash.rs:24-38 | `a.b` is `a.b.sol` to the TypeScript client and the name `a` under `.b` to the Rust client |
| `Counterexamples.PricesDiffer` | clients/sdk/src/client.ts:63-70 | a star at a tier of 2^63: the SDK quotes 2^64, the chain charges 2^64 - 1 |
| `Counterexamples.SelfMoveMints` | programs/solans/src/utils.rs:110-123 | one lamport moved from an account to itself becomes two |

## Left out

- keccak: an arbitrary 32-byte hash function. Injectivity is proved as a reduction: two names with
  one key exhibit a collision. `Registry` is keyed by the name itself; `HashedRegistry` carries that
  over to digests. The bump fields have no counterpart.
- HashedRegistry.HashedRunOrCollision: covers instructions addressed to names' accounts, with fee
  accounts that are not escrows of the program; an address that is no name's digest holds no account.
- Which accounts a caller must present (refund, payout and treasury accounts): taken as presented and
  matching, as the program demands; a missing one is a failed transaction.
- Rent, account sizes and (de)serialisation: account creation and closing are map updates, and
  lamports of a closed offer are its whole balance.
- Events, error codes and log output: a failure is one revert. The label check keeps its three errors.
- Admin key rotation and the admin's signature: `Configure` admits every configuration within the
  checked bounds, from anyone, including the vaults that initialising a pool sets.
- SPL internals: token accounts of one wallet are one balance; the payment mint and `$SOLANS` are
  distinct mints without transfer fees; a credit cannot overflow u64 because supplies cannot; the
  delegation that auto-renew draws on is taken as granted.
- Outside deposits into the stake vault: excluded, as that vault is only drawn on for the stakes, and
  never read or closed. Outside deposits into the reward vault, burn vault, bid vaults and offer
  escrows stay in.
- Metaplex calls and NFT ownership: the presented token account is an input of the instruction. The
  NFT's display name is computed (`NftName`) but not stored.
- Unicode normalisation, trimming and lower-casing: text is taken as already normalised. The
  transport parts of the clients are not part of this model; a fetch reads the state.
- An `i64` underflow of the renewal window for expiries before 1970: not modelled, since every
  expiry is later than a clock reading of the chain.
- The on-chain `resolve` view, the CLI, the resolver service, the keeper, metrics, and the search,
  listing and watchlist filters of the index: plumbing or easy members.
- Transaction signature and slot of an index entry: carried along by the source without being read.
- Failed transactions in the indexer's feed: the journal holds events of successful ones, as the
  webhook that delivers them is not part of this model.
- RegistryProgram.Program.TokenizeName: covers the guards and the stored mint, not the mint calls between them.
- RegistryProgram.Program.RegisterName: the order of a late overflow check and the payment is not kept, because a failure of either reverts both.
- StakingProgram.Program.constructor: sets up the pool; the redirect of the configuration's staking
  vault is RegistryProgram.Program.InitStakePool, as the two state machines share no field.
- RegistryProgram.Program.Execute: dispatches the changes of configuration as one instruction, and
  neither the admin transfer nor the read-only `resolve` view.
- RegistryProgram.Program.ExecuteAll: ranges over the same instructions as Execute.
- Indexer.IndexAgreement: agreement on the expiry is for top-level names, because the indexer never records one for a subdomain.
