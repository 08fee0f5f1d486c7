# Counter pallet, modelled in Dafny

The repository is a FRAME pallet for a Substrate runtime. It keeps one bounded
`u32` counter (`CounterValue`, absent until first written and read as 0) and a
per-account interaction ledger (`UserInteractions: AccountId -> u32`). It
offers three dispatchable calls:

- `set_counter_value` (call index 0): Root only. It overwrites the counter with
  a value no larger than the configured `CounterMaxValue`.
- `increment` (call index 1): signed accounts. It uses checked addition, then
  the maximum check, then adds one to the caller's interaction count.
- `decrement` (call index 2): signed accounts. It uses checked subtraction,
  then adds one to the caller's interaction count.

A successful call deposits exactly one event carrying the new counter value. A
failed call returns an error and changes nothing.

Files:

- `primitives.dfy`: Rust's `Option` and `u32` (an explicit subset of `nat`),
  with `checked_add` and `checked_sub`.
- `custom_pallet.dfy`: the storage and event log as a `State` value; the
  `Event`, `Error`, `Origin` and `Call` types; one pure step function per call,
  which is the specification; and class `Pallet`, whose fields are the storage
  items and whose methods perform the calls in place. Each method is proved to
  produce the outcome and the state its step function gives.
- `custom_pallet_properties.dfy`: the outcome of each call in terms of the
  state before it, the all-or-nothing rollback, idempotent failure, the worked
  scenario with maximum 100, and lemmas over any sequence of calls run one after
  another. Those lemmas cover the bound on the counter, the append-only event
  log and the interaction counts.

Atomicity: `increment` and `decrement` store the new counter
(pallets/custom-pallet/src/lib.rs:135, 175) before the fallible update of the
interaction count (lib.rs:137, 177). They rely on the runtime discarding every
write of a call that returns an error. The model computes both new values first
and writes storage only when every check has passed. A failing step function
returns the state unchanged, which is what the runtime's rollback makes
observable.

The origin error is called `BadOrigin` here, as the runtime's `ensure_root` and
`ensure_signed` return it. The pallet's own `Error` enum does not contain it.

The storage methods do not require the invariant `CounterValue <=
CounterMaxValue`: the code handles any stored value. They promise only that a
call keeps the invariant when it held before.

## Model

| member | source | states |
|---|---|---|
| `Primitives.CheckedAdd` | pallets/custom-pallet/src/lib.rs:126-128 | `checked_add` yields the exact sum iff it fits in a `u32`, otherwise nothing |
| `Primitives.CheckedSub` | pallets/custom-pallet/src/lib.rs:171-173 | `checked_sub` yields the exact difference iff the subtrahend is not larger, otherwise nothing |
| `CustomPallet.SetCounterValueStep` | pallets/custom-pallet/src/lib.rs:90-108 | a non-Root origin gets `BadOrigin`; a failure leaves the state unchanged; success appends one event carrying the stored value; `UserInteractions` is never touched; the bound on the counter is kept |
| `CustomPallet.IncrementStep` | pallets/custom-pallet/src/lib.rs:119-153 | a non-signed origin gets `BadOrigin`; a failure leaves the state unchanged; success appends one event carrying the stored value; success from `Signed(who)` raises only `who`'s interaction count, by one; the bound is kept |
| `CustomPallet.DecrementStep` | pallets/custom-pallet/src/lib.rs:164-193 | the same guarantees as for increment; the bound is kept although there is no maximum check |
| `CustomPallet.Dispatch` | pallets/custom-pallet/src/lib.rs:79-193 | for any of the three calls: all-or-nothing, one event per success, one interaction for the signed caller of a successful call, the bound kept |
| `CustomPallet.Pallet.constructor` | pallets/custom-pallet/src/lib.rs:59-65 | storage starts empty (no counter, no interactions, no events) and satisfies the bound |
| `CustomPallet.Pallet.SetCounterValue` | pallets/custom-pallet/src/lib.rs:90-108 | updating the fields in place gives exactly the outcome and state of `SetCounterValueStep`; a failure changes no field; the bound is kept |
| `CustomPallet.Pallet.Increment` | pallets/custom-pallet/src/lib.rs:119-153 | the in-place update with deferred commit gives exactly the outcome and state of `IncrementStep`; a failure changes no field |
| `CustomPallet.Pallet.Decrement` | pallets/custom-pallet/src/lib.rs:164-193 | the in-place update with deferred commit gives exactly the outcome and state of `DecrementStep`; a failure changes no field |
| `CustomPallet.Pallet.DispatchExtrinsic` | pallets/custom-pallet/src/lib.rs:79-193 | dispatching by call index agrees with `Dispatch` and keeps the bound |
| `CustomPalletProperties.SetCounterValueOutcome` | pallets/custom-pallet/src/lib.rs:94-105 | succeeds iff the origin is Root and the value is at most the maximum; `CounterValueExceedsMax` iff Root with a larger value; on success the counter reads back the value and only `CounterValueSet{v}` is appended |
| `CustomPalletProperties.IncrementOutcome` | pallets/custom-pallet/src/lib.rs:123-150 | with the absent counter read as 0: `CounterOverflow` iff the sum leaves the `u32` range; `CounterValueExceedsMax` iff it fits but exceeds the maximum; `UserInteractionOverflow` iff within the maximum but the caller is at `u32::MAX`; success iff neither; then the counter is the sum, the caller's entry is one higher (absent becomes 1) and `CounterIncremented{new, who, a}` is appended |
| `CustomPalletProperties.DecrementOutcome` | pallets/custom-pallet/src/lib.rs:168-190 | `CounterValueBelowZero` iff the amount exceeds the current value; `UserInteractionOverflow` iff it does not but the caller is at `u32::MAX`; success iff neither; then the counter is the difference, the caller's entry is one higher and `CounterDecremented{new, who, a}` is appended |
| `CustomPalletProperties.InteractionOverflowDiscardsCounterWrite` | pallets/custom-pallet/src/lib.rs:135-144 | a caller at `u32::MAX` interactions whose counter arithmetic would pass gets `UserInteractionOverflow`, and the state, counter included, is exactly as before |
| `CustomPalletProperties.FailedCallIsIdempotent` | pallets/custom-pallet/src/lib.rs:94-193 | repeating a failed call on the unchanged state gives the same error and the same state |
| `CustomPalletProperties.RunPreservesWithinMax` | pallets/custom-pallet/src/lib.rs:96-99 | any sequence of calls from a state within the maximum ends within the maximum |
| `CustomPalletProperties.GenesisWithinMax` | pallets/custom-pallet/src/lib.rs:130-133 | from empty storage the stored counter never exceeds `CounterMaxValue`, whatever calls are made |
| `CustomPalletProperties.RunEventLog` | pallets/custom-pallet/src/lib.rs:103-105 | over any sequence of calls the old events stay as a prefix and exactly one event is added per successful call |
| `CustomPalletProperties.RunCountsInteractions` | pallets/custom-pallet/src/lib.rs:137-144 | over any sequence of calls an account's interaction count grows by exactly the number of its own successful calls |
| `CustomPalletProperties.Scenario` | pallets/custom-pallet/src/lib.rs:90-193 | with maximum 100: set 50, Alice +30 gives 80 and one interaction, Bob +25 fails with `CounterValueExceedsMax` and leaves no entry for Bob, Alice -90 fails with `CounterValueBelowZero`; failures leave the state unchanged |

## Left out

- Weights: the `WeightInfo` trait and the `#[pallet::weight]` annotations only feed fee metering and do not affect state.
- FRAME macro machinery: the `#[frame::pallet]` expansion, `generate_deposit`, the conversion into `RuntimeEvent`, and `Twox64Concat` key hashing. Storage is a Dafny `map` and the deposited events are a sequence owned by the pallet. The runtime's system-level event record (phase and topics) is not modelled.
- Origin resolution: how `ensure_root` and `ensure_signed` classify a raw origin. The origin arrives already classified as `Root`, `Signed(who)` or `NoneOrigin`.
- Eager writes and rollback: the literal order of the source, which writes `CounterValue` before the interaction update and leaves the rollback to the runtime, is replaced by a deferred commit with the same observable effect.
- Block execution, consensus, transaction signing and the storage commit engine of the runtime. Sequential execution is modelled by folding calls over a state.
- `AccountId`: the runtime's account type is modelled as a byte sequence with equality only.
