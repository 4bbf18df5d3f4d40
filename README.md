# Proof-of-existence pallet, modelled in Dafny

The `poe` pallet is a registry of proofs of existence. A proof is the bytes of
a content hash, at most `MaxBytesInHash` long. The `Proofs` storage map maps
each registered proof to `(owner, block number)`. There are three calls:

- `create_claim` registers a proof that is not yet stored.
- `revoke_claim` deletes a proof, but only when the caller owns it.
- `transfer_claim` gives a proof to another account and restamps it with the
  current block, but only when the caller owns it.

Each call either fails with one of three errors and changes nothing, or
makes one change to storage and deposits one event.

The model has two files:

- `poe.dfy` (module `Poe`) defines the errors, events, stored value and
  calls as datatypes. It gives each call as a pure step function over a
  snapshot `State(proofs, events)`. It also defines the class `Pallet`,
  whose methods update the `proofs` map and the `events` log in place, as
  the pallet does. Each method's postcondition equates its result and the
  new snapshot with the step function applied to the old snapshot.
  `Pallet.Valid()` holds the `BoundedVec` bound: every stored key is at most
  `maxBytesInHash` long.
- `poe_properties.dfy` (module `PoeProperties`) holds the lemmas. They cover
  error precedence, the per-proof state machine, and atomicity. They also
  cover four invariants kept over any sequence of calls (`Run`):
  - the event log is enough to reconstruct who owns every proof;
  - stored block numbers never run ahead of the chain;
  - the log is append-only;
  - every stored proof stays within the `MaxBytesInHash` bound.

Accounts are a type parameter with equality. The caller is an
already-authenticated account, and `dest` an already-resolved account. The
current block number is a parameter `now`.

Two guarded operations are proved safe:

- The `expect("All proofs must have an owner!")` is modelled as taking
  `.value` of the `Get` result, and Dafny proves that result is `Some`.
- The `None` arm of the `mutate` closure holds `assert false`, which proves
  the arm unreachable.

## Model

| member | source | states |
|---|---|---|
| Poe.Get | pallets/poe/src/lib.rs:98-127 | `Proofs::get` on an `OptionQuery` map (lines 98 and 127): `Some` exactly when the proof is stored, and then its value is the stored `(owner, block)` |
| Poe.CreateClaimStep | pallets/poe/src/lib.rs:64-84 | fails with ProofAlreadyClaimed exactly when the proof is already stored, and then changes nothing; otherwise stores `(sender, now)` under the proof, adds exactly that key, leaves every other key's value as it was, and appends exactly ClaimCreated(sender, proof) |
| Poe.RevokeClaimStep | pallets/poe/src/lib.rs:87-109 | an absent proof gives NoSuchProof whoever the caller; NotProofOwner exactly when the proof is stored under another owner; success exactly when the caller is the stored owner; a failure changes nothing; a success removes exactly that key, keeps every other entry, and appends ClaimRevoked(sender, proof); the `expect` at line 98 cannot panic |
| Poe.TransferClaimStep | pallets/poe/src/lib.rs:112-147 | the same error precedence as revoke; the set of stored proofs never changes; on success the proof's value is `(dest, now)` whatever it was before, no other entry changes, and ClaimTransferred(sender, dest, proof) is appended; the `expect` at line 127 and the `None` arm at line 140 are unreachable |
| Poe.Dispatch | pallets/poe/src/lib.rs:60-148 | any failing call leaves storage and events unchanged; any successful call appends exactly its one event |
| Poe.Pallet.constructor | pallets/poe/src/lib.rs:50-58 | genesis: empty `Proofs` map, no events, and the key bound holds |
| Poe.Pallet.CreateClaim | pallets/poe/src/lib.rs:64-84 | in-place `create_claim`: returns ProofAlreadyClaimed exactly when the proof was stored; the result and new storage/events are those of CreateClaimStep; keeps every stored key within MaxBytesInHash |
| Poe.Pallet.RevokeClaim | pallets/poe/src/lib.rs:87-109 | in-place `revoke_claim`: succeeds exactly when the caller is the stored owner; the result and new storage/events are those of RevokeClaimStep |
| Poe.Pallet.TransferClaim | pallets/poe/src/lib.rs:112-147 | in-place `transfer_claim`: succeeds exactly when the caller is the stored owner; the result and new storage/events are those of TransferClaimStep; the `None` arm of the `mutate` closure is unreachable |
| PoeProperties.CreateTwiceFails | pallets/poe/src/lib.rs:72 | after a successful create, a second create of the same proof by anyone fails with ProofAlreadyClaimed and leaves the state of the first call |
| PoeProperties.AbsentProofIsNoSuchProof | pallets/poe/src/lib.rs:95 | existence is checked before ownership: revoke and transfer of an absent proof give NoSuchProof for every caller and destination, with no change |
| PoeProperties.OwnershipGate | pallets/poe/src/lib.rs:101 | if a proof is stored under another owner, revoke and transfer by the caller fail with NotProofOwner and change nothing |
| PoeProperties.RevokeThenCreate | pallets/poe/src/lib.rs:104-107 | after a successful revoke, a create of the same proof by any account succeeds and stores it under that account |
| PoeProperties.CreateThenRevoke | pallets/poe/src/lib.rs:78 | revoke is the inverse of create: creating a fresh proof and revoking it by the same account succeeds and restores the storage map |
| PoeProperties.SelfTransfer | pallets/poe/src/lib.rs:130-142 | a transfer to oneself by the owner succeeds (there is no `dest != sender` check): owner kept, block number refreshed to `now`, ClaimTransferred(a, a, proof) appended |
| PoeProperties.CallTouchesOnlyItsProof | pallets/poe/src/lib.rs:78-142 | every call, successful or not, leaves the stored value of every proof other than the one it names unchanged: `insert`, `remove` and `mutate` each write one key |
| PoeProperties.StepFollowsStateMachine | pallets/poe/src/lib.rs:72-145 | per proof, a call makes only the transitions Unclaimed to Claimed(sender, now) by create, Claimed to Unclaimed by the owner's revoke, Claimed to Claimed(dest, now) by the owner's transfer, or none |
| PoeProperties.OwnersFollowEvent | pallets/poe/src/lib.rs:78-81 | a successful call changes the owner map exactly as the event it deposits describes |
| PoeProperties.GenesisEventsMirrorOwners | pallets/poe/src/lib.rs:50-58 | the pallet's initial state (empty `Proofs`, no events, as `Pallet`'s constructor builds it) satisfies the event-log invariant, so `RunKeepsEventsMirrorOwners` applies from genesis |
| PoeProperties.StepKeepsEventsMirrorOwners | pallets/poe/src/lib.rs:104-107 | one call keeps the event log's replay equal to the stored owners |
| PoeProperties.RunKeepsEventsMirrorOwners | pallets/poe/src/lib.rs:31-38 | over any sequence of calls, replaying the deposited events gives exactly the stored owner of every proof |
| PoeProperties.RunOnlyAppendsEvents | pallets/poe/src/lib.rs:81 | over any sequence of calls the event log only grows, by at most one event per call, and keeps its old prefix |
| PoeProperties.StepKeepsBlocksBounded | pallets/poe/src/lib.rs:135-142 | when every stored block number is at most an earlier block not above `now`, a call at `now` stores no block number above `now` and never lowers the block number of a proof that stays stored |
| PoeProperties.RunKeepsBlocksBounded | pallets/poe/src/lib.rs:75-78 | on a chain whose block numbers do not decrease, no stored block number is ahead of the latest call's block |
| PoeProperties.RunKeepsKeysBounded | pallets/poe/src/lib.rs:52-58 | calls whose proofs fit in `BoundedVec<u8, MaxBytesInHash>` keep every stored key within that bound |
| PoeProperties.Scenario | pallets/poe/src/lib.rs:64-147 | from empty storage: Alice's create succeeds; Bob's create gives ProofAlreadyClaimed; Bob's revoke gives NotProofOwner; Alice's revoke empties storage; a transfer then gives NoSuchProof; the log holds exactly the two events |

## Left out

- Origin authentication (`ensure_signed`, lines 69, 92, 121) is left out. The sender is an already-authenticated account.
- Destination lookup (`T::Lookup::lookup`, line 118) is left out. `dest` is an already-resolved account. An unresolved destination fails before the pallet logic runs, so its order relative to `ensure_signed` is not modelled.
- The block number source (`frame_system::Pallet::block_number()`, lines 75 and 135) is left out. The current block is the parameter `now`. The model does not assume the chain's block numbers increase, except where `StepKeepsBlocksBounded` and `RunKeepsBlocksBounded` require it.
- `#[pallet::weight]` fee accounting is left out.
- `Blake2_128Concat` key hashing and the storage engine are left out. `Proofs` is a plain Dafny map.
- The `BoundedVec` length check happens when the call is decoded. It appears as the requirement `|proof| <= maxBytesInHash` on `Pallet.CreateClaim`, as the invariant `Pallet.Valid()`, and as the requirement on the calls of `RunKeepsKeysBounded`.
- The `deposit_event` transport into `frame_system` and the `#[pallet::*]` macro expansion are left out. Events form a sequence the pallet appends to, holding every event ever deposited. The runtime's `System::Events` is cleared at the start of each block, so `RunOnlyAppendsEvents` and `RunKeepsEventsMirrorOwners` describe an observer that keeps the events of every block.
- `BlockNumber` is an unbounded `nat`. The runtime's block-number width is not modelled.
