# Telos system contract: REX entry points, producer registration, rotation state and block-info window

This project models in Dafny the parts of the Telos `eosio.system` contract that
change state record by record under explicit `check` guards. It also models the
pure helpers next to them:

- **Ledger** (`ledger.dfy`):
  - the `has_field` / `set_field` helpers over an unsigned 8-bit flag word;
  - the time, refund and pay-split constants;
  - account names (their 64-bit encoding) and assets.
- **REX** (`rex.dfy`): the actions `deposit`, `withdraw`, `buyrex` and `unstaketorex`, plus the checks `sellrex` makes before selling.
  - State lives in a `RexLedger` object: REX funds by owner, delegated-bandwidth rows keyed by (staker, receiver), resource totals by receiver, the core tokens added to the REX pool, REX balance rows, and a ghost log of the token transfers the actions send.
  - Each action checks its guards in the source's order. The first failing guard aborts the action and leaves the whole object unchanged.
  - On success the action changes exactly the fields it names.
  - Two conservation quantities stay fixed:
    - core tokens on the REX side (funds plus pool) minus the net transfers into `eosio.rex`;
    - staked tokens minus the net transfers into `eosio.stake`.
- **Voting** (`voting.dfy`): `register_producer`.
  - An existing producer row is refreshed. The key, url, location and authority are overwritten, the producer is made active, and `last_claim_time` is kept once set.
  - A new producer gets a fresh row with zero votes.
  - The secondary vote-pay row is created only when it is missing.
  - The legacy `producer_key` is the authority's key when the authority has exactly one key.
- **Rotation** (`rotation.dfy`): the `rotations` singleton and `set_bps_rotation`, which assigns exactly the two producer names. Also the rotation-interval and schedule-size constants.
- **BlockInfo** (`block_info.dfy`): the `blockinfo` table as its doc comment describes it. `onblock` erases at most two of the oldest records that lie more than 10 blocks below the new block, then appends the new block's record with version 0. The loop that erases works in place on the table.

## Model

| member | source | states |
|---|---|---|
| Ledger.HasField | contracts/eosio.system/include/eosio.system/eosio.system.hpp:51-57 | a field is present exactly when the flag word and the field share a set bit (`flags & field != 0`, proved bit by bit) |
| Ledger.CommonBit | contracts/eosio.system/include/eosio.system/eosio.system.hpp:51-57 | `flags & field` is non-zero if and only if some bit position is set in both words |
| Ledger.SetField | contracts/eosio.system/include/eosio.system/eosio.system.hpp:59-68 | inside `field` every bit of the result equals `value` (default true); outside `field` the result equals `flags` |
| Ledger.SetFieldThenHas | contracts/eosio.system/include/eosio.system/eosio.system.hpp:59-66 | after setting a non-zero field, `has_field` reports it |
| Ledger.ClearFieldThenHasNot | contracts/eosio.system/include/eosio.system/eosio.system.hpp:67 | after clearing a field, `has_field` does not report it |
| Ledger.SetFieldIdempotent | contracts/eosio.system/include/eosio.system/eosio.system.hpp:60-67 | setting or clearing the same field twice equals doing it once |
| Ledger.TimeConstants | contracts/eosio.system/include/eosio.system/eosio.system.hpp:70-76 | a year is 52 weeks, a day 24 hours; each microsecond constant is its seconds constant times a million; a day has 172,800 half-second blocks |
| Ledger.RefundDelay | contracts/eosio.system/include/eosio.system/eosio.system.hpp:81 | the refund delay is three days, 259,200 seconds |
| Ledger.PaySplit | contracts/eosio.system/include/eosio.system/eosio.system.hpp:83-87 | producers get 20% of inflation and the per-block share is 25% of producer pay, as the comments say; the default rate is 5% at two decimals |
| Rex.AmountError | contracts/eosio.system/src/rex.cpp:16-17 | an amount is accepted exactly when it has the core symbol and is strictly positive; a wrong symbol is reported before a non-positive amount |
| Rex.DepositError | contracts/eosio.system/src/rex.cpp:16-17 | `deposit` fails exactly when the asset is not a positive amount of the core token, with one of its two messages |
| Rex.FundError | contracts/eosio.system/src/rex.cpp:33 | taking from a REX fund fails exactly when the fund (in this model a missing fund counts as empty) holds less than the amount |
| Rex.WithdrawError | contracts/eosio.system/src/rex.cpp:30-33 | `withdraw` succeeds exactly for a positive core amount no larger than the owner's fund; a valid amount above the fund fails with "insufficient funds" |
| Rex.BuyRexError | contracts/eosio.system/src/rex.cpp:45-50 | `buyrex` succeeds exactly for a positive core amount no larger than the buyer's fund |
| Rex.UnstakeToRexError | contracts/eosio.system/src/rex.cpp:64-75 | `unstaketorex` succeeds exactly when both assets are core, both are non-negative, one is positive, the (owner, receiver) row exists and neither amount exceeds its staked weight; each failure is tied to its cause |
| Rex.SellRexError | contracts/eosio.system/src/rex.cpp:108-112 | `sellrex` passes its checks exactly when the seller has a REX balance row and asks for a positive amount of that row's symbol, no more than the REX matured by now; a missing row and a bad amount each give their own message |
| Rex.ProcessMaturities | contracts/eosio.system/src/rex.cpp:111 | the buckets that have matured by now move into `matured_rex`: they are a prefix of the buckets, no REX is created or lost, the first bucket left is still in the future, and no other field changes |
| Rex.RexLedger.Deposit | contracts/eosio.system/src/rex.cpp:12-24 | the outcome is exactly the guard's verdict; a failure changes nothing; a success credits the owner's fund by the amount, logs one transfer of the amount from the owner to `eosio.rex`, changes nothing else and keeps both conservation quantities |
| Rex.RexLedger.Withdraw | contracts/eosio.system/src/rex.cpp:26-39 | the outcome is exactly the guard's verdict; a success debits the owner's fund by the amount, logs one transfer of the amount from `eosio.rex` back to the owner, changes nothing else and keeps both conservation quantities |
| Rex.RexLedger.BuyRex | contracts/eosio.system/src/rex.cpp:41-58 | the outcome is exactly the guard's verdict; a success moves the amount from the buyer's fund into the REX pool, sends no transfer and keeps both conservation quantities |
| Rex.RexLedger.UnstakeToRex | contracts/eosio.system/src/rex.cpp:60-100 | the outcome is exactly the guard's verdict; a success lowers the row's weights by the two amounts and erases the row once empty, lowers the receiver's totals by the same amounts, logs one payment of their sum from `eosio.stake` to `eosio.rex`, adds it to the pool, and keeps both conservation quantities |
| Rex.RexLedger.SellRexCheck | contracts/eosio.system/src/rex.cpp:108-112 | on the ledger's REX balance rows, `sellrex`'s checks give exactly the verdict of `SellRexError`, and nothing changes |
| Rex.RexLedger.TransferToFund | contracts/eosio.system/src/rex.cpp:23 | the owner's fund grows by the amount and is opened at zero if missing; the sum of all funds grows by the amount |
| Rex.RexLedger.TransferFromFund | contracts/eosio.system/src/rex.cpp:33 | the owner's fund shrinks by the amount, and so does the sum of all funds |
| Rex.RexLedger.UpdateResourceLimits | contracts/eosio.system/src/rex.cpp:85 | the receiver's net and cpu totals change by the given deltas, starting from zero for a receiver with no totals; no other receiver changes |
| Rex.RexLedger.ReduceStake | contracts/eosio.system/src/rex.cpp:76-82 | the row's weights drop by exactly the two amounts; the row is erased exactly when both weights reach zero; the total stake drops by the sum; every row stays well-formed |
| Rex.UnstakedRow | contracts/eosio.system/src/rex.cpp:74-82 | taking amounts within the staked weights out of a well-formed row keeps it well-formed and lowers its weights by exactly the payment; the row stays in the table exactly when some weight remains, and no other row is added or removed |
| Voting.LegacyKey | contracts/eosio.system/src/voting.cpp:36-43 | the legacy key is the authority's only key when it has exactly one key, and the default key otherwise |
| Voting.Reregistered | contracts/eosio.system/src/voting.cpp:46-54 | a re-registered row is active, carries the new key, url, location and authority, and keeps its votes, block and kick counters; `last_claim_time` is set to now only when unset |
| Voting.NewProducer | contracts/eosio.system/src/voting.cpp:66-71 | a first registration creates an active row for the producer with zero votes, zero counters and claim time now, advertising the given key, url, location and authority |
| Voting.ProducerRegistry.RegisterProducer | contracts/eosio.system/src/voting.cpp:32-71 | an existing row is refreshed, and a missing one is inserted; afterwards both tables hold the producer; a secondary row is created only if missing, with the owner and the update time now; a vote-pay share update is recorded exactly when an existing producer gets its first secondary row |
| Voting.ReregisteredIdempotent | contracts/eosio.system/src/voting.cpp:46-54 | re-registering again with the same arguments, at any later time, leaves the row as it was once its claim time is set |
| Voting.ReregisteredSameTimeIdempotent | contracts/eosio.system/src/voting.cpp:46-54 | re-registering twice with the same arguments at the same time leaves the row as registering once, whatever its claim time was |
| Voting.NewProducerStable | contracts/eosio.system/src/voting.cpp:52-53 | a producer first registered after the epoch keeps its whole row when it re-registers with the same arguments |
| Voting.EpochClaimTimeMoves | contracts/eosio.system/src/voting.cpp:52-53 | a claim time equal to the epoch is taken as unset, so a later re-registration moves it |
| Voting.ReregisterUnchanged | contracts/eosio.system/src/voting.cpp:45-64 | re-registering with exactly what the producer already advertises, once its claim time is set, changes neither table nor the vote-pay log |
| Rotation.RotationSingleton.SetBpsRotation | contracts/eosio.system/src/system_rotation.cpp:15-18 | the out-going and in-coming producer names are set; both indexes and both rotation times are unchanged |
| Rotation.SetBpsRotationIdempotent | contracts/eosio.system/src/system_rotation.cpp:15-18 | setting the same pair twice leaves the singleton as setting it once |
| Rotation.ScheduleSizes | contracts/eosio.system/src/system_rotation.cpp:8-10 | the top tier (21) fits the schedule (42, twice the tier), and a voter may list 30 producers, more than the tier and no more than the schedule |
| Rotation.RotationPeriods | contracts/eosio.system/src/system_rotation.cpp:3-7 | twelve hours is twice six hours and twelve hours' worth of microseconds; twelve minutes is twice six minutes; `ONE_HOUR_US` is a quarter of an hour |
| BlockInfo.EraseOutdated | contracts/eosio.system/include/eosio.system/block_info.hpp:19-21 | erasing keeps a suffix of the table and drops at most the budget; every dropped record is outdated; when the budget is not used up, the oldest record left is inside the window |
| BlockInfo.BlockInfoTable.EraseOutdatedRows | contracts/eosio.system/include/eosio.system/block_info.hpp:19-21 | the in-place loop leaves the table as `EraseOutdated` with a budget of two describes |
| BlockInfo.BlockInfoTable.OnBlock | contracts/eosio.system/include/eosio.system/block_info.hpp:17-21 | `onblock` leaves the table as erase-then-append describes, and the table stays in ascending height order |
| BlockInfo.OnBlockKeepsOrder | contracts/eosio.system/include/eosio.system/block_info.hpp:23-27 | when the new block is above every stored height, the table stays in strictly ascending height order |
| BlockInfo.OnBlockShape | contracts/eosio.system/include/eosio.system/block_info.hpp:17-21 | one `onblock` adds exactly one record, version 0 with the block's height and timestamp, and otherwise only erases: the rest is a suffix of the old table, shorter by at most two, and every erased record was outdated |
| BlockInfo.OutdatedRecordCanSurvive | contracts/eosio.system/include/eosio.system/block_info.hpp:19-20 | with three outdated records, one `onblock` erases two and an outdated record survives |
| BlockInfo.OnBlockLeavesWindow | contracts/eosio.system/include/eosio.system/block_info.hpp:19-21 | if the table held only the previous block's window, afterwards it holds only records within 10 blocks of the new block |
| BlockInfo.OnBlockKeepsWindow | contracts/eosio.system/include/eosio.system/block_info.hpp:12-21 | from a table inside the previous window, `onblock` leaves a table that is ordered, inside the new window and at most 11 records long |
| BlockInfo.ConsecutiveBlocksKeepWindow | contracts/eosio.system/include/eosio.system/block_info.hpp:12-21 | when blocks arrive one height at a time, the table stays ordered, inside the window and at most 11 records long |
| BlockInfo.WindowSize | contracts/eosio.system/include/eosio.system/block_info.hpp:12 | an ordered table whose heights lie within the 10-block window has at most 11 records |

## Left out

- Authorization (`require_auth`) is not modelled. Neither are the token contract's own checks or the memos of the transfers it is sent. Transfers appear only as a ghost log.
- The REX pool's pricing is not modelled: `add_to_rex_pool` returns REX and `add_to_rex_balance` credits it, and neither is modelled. Nor are `runrex`, `update_rex_account`, `fill_rex_order` and the `buyresult` trace actions.
  - `add_to_rex_pool` is seen only as the core tokens it receives.
  - `sellrex` is modelled up to its checks.
- `transfer_to_fund`, `transfer_from_fund`, `process_rex_maturities` and `update_resource_limits` are modelled abstractly, as:
  - a fund credit, opening the fund at zero;
  - a fund debit that aborts when the fund holds less than the amount;
  - folding matured buckets into `matured_rex`;
  - adding deltas to the receiver's totals.
- Rex.FundError: the "insufficient funds" message and treating a missing fund as an empty one are choices of this model, not promises of the cited call at rex.cpp:33.
- `update_rex_account`, called by `withdraw` before the fund debit, could change the fund in the source. The model does not capture that.
- Asset range checks are not modelled: amounts are unbounded integers, and `asset` addition's overflow checks are absent.
- Rex.RexLedger.Deposit: conservation is promised only when the owner is neither `eosio.rex` nor `eosio.stake`. For owner `eosio.rex` the logged transfer goes from `eosio.rex` to itself, so the fund grows while the net transfers into `eosio.rex` do not. For owner `eosio.stake` the transfer goes from `eosio.stake` to `eosio.rex`, which lowers the net transfers into `eosio.stake` while no delegated row changes, so the staked-token balance moves.
- Rex.RexLedger.Withdraw: conservation is promised only when the owner is neither `eosio.rex` nor `eosio.stake`. For owner `eosio.rex` the transfer from `eosio.rex` to itself leaves the net transfers unchanged while the fund shrinks. For owner `eosio.stake` the transfer from `eosio.rex` to `eosio.stake` raises the net transfers into `eosio.stake` while no delegated row changes.
- `update_total_votepay_share` is recorded only as a call with its arguments. Its floating-point accrual is not modelled.
- `regproducer`, `unregprod` and the authority validation of `regproducer2` are not modelled.
- Voting.NewProducer: the new row's location, authority, claim time (now), zero counters and fresh secondary row are modelled after the existing-row branch of `register_producer`.
- `update_rotation_time` is not modelled.
- Name bidding, `limitauthchg`, the Bancor exchange and the declaration-only headers are not modelled.
- BlockInfo.BlockInfoTable.OnBlock: requires every stored height to be below the new block, since the host delivers blocks in increasing height. The erase rule follows the table's documentation (block_info.hpp:14-22).
- Ledger.HasField, Ledger.SetField: the source's helpers are generic over any unsigned flag type; the model fixes the flag word at 8 bits (`bv8`).
- Floating point: `total_votes` and the vote-pay share are modelled as reals.
- Account names are their 64-bit encodings. The conversion from text is not modelled.
