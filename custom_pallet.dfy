/** The counter pallet: one bounded `u32` counter (`CounterValue`), a per-account
    interaction ledger (`UserInteractions`) and three dispatchable calls.

    The pure functions `SetCounterValueStep`, `IncrementStep` and `DecrementStep`
    are the specification of one call: the outcome and the storage (with the
    event log) after it. Class `Pallet` holds the same storage in fields and
    implements each call as a method that is proved to agree with its step
    function. */
module CustomPallet {
  import opened Primitives

  /** The runtime's account identifier, kept as opaque bytes. */
  type AccountId = seq<bv8>

  /** The origin of a call, already classified by the runtime. */
  datatype Origin = Root | Signed(who: AccountId) | NoneOrigin

  /** Events the pallet deposits; every variant carries the counter value after the call. */
  datatype Event =
    | CounterValueSet(counterValue: u32)
    | CounterIncremented(counterValue: u32, who: AccountId, incrementedAmount: u32)
    | CounterDecremented(counterValue: u32, who: AccountId, decrementedAmount: u32)

  /** The pallet's errors, plus `BadOrigin`, which the runtime's origin checks return. */
  datatype Error =
    | BadOrigin
    | CounterValueExceedsMax
    | CounterValueBelowZero
    | CounterOverflow
    | UserInteractionOverflow

  /** `DispatchResult`: `Ok(())` or the error the call returned. */
  datatype DispatchResult = Ok | Err(error: Error)

  /** The calls of the pallet, by call index 0, 1 and 2. */
  datatype Call =
    | SetCounterValue(newValue: u32)
    | Increment(amountToIncrement: u32)
    | Decrement(amountToDecrement: u32)

  /** One extrinsic: a call together with the origin it is dispatched from. */
  datatype Extrinsic = Extrinsic(origin: Origin, call: Call)

  /** The pallet's storage and the events deposited so far. */
  datatype State = State(
    counterValue: Option<u32>,
    userInteractions: map<AccountId, u32>,
    events: seq<Event>)

  /** The result of one call and the state the runtime keeps after it. */
  datatype Transition = Transition(result: DispatchResult, post: State)

  /** Storage before any call: nothing stored, no events. */
  const Genesis: State := State(None, map[], [])

  /** `CounterValue::get().unwrap_or(0)`: an absent counter reads as 0. */
  function CurrentValue(s: State): u32 {
    s.counterValue.UnwrapOr(0)
  }

  /** The interaction count of `who`, 0 when the entry is absent. */
  function InteractionsOf(s: State, who: AccountId): u32 {
    if who in s.userInteractions then s.userInteractions[who] else 0
  }

  /** The storage invariant: a stored counter never exceeds `CounterMaxValue`. */
  predicate WithinMax(s: State, max: u32) {
    s.counterValue.Some? ==> s.counterValue.value <= max
  }

  /** A failed call: the runtime discards every write the call made, so the state is `s`. */
  function Reject(s: State, e: Error): Transition {
    Transition(Err(e), s)
  }

  /** The state after a successful increment or decrement: the counter holds
      `newValue`, `who` has `interactions` interactions, `e` is deposited. */
  function Commit(s: State, newValue: u32, who: AccountId, interactions: u32, e: Event): State {
    State(Some(newValue), s.userInteractions[who := interactions], s.events + [e])
  }

  /** The call succeeded, appended exactly one event, and that event carries
      the stored counter value. */
  predicate DepositedOneEvent(s: State, t: Transition) {
    t.post.counterValue.Some? &&
    |t.post.events| == |s.events| + 1 &&
    t.post.events[..|s.events|] == s.events &&
    t.post.events[|s.events|].counterValue == t.post.counterValue.value
  }

  /** A successful call from `Signed(who)` raises the interaction count of
      `who` by exactly one; every other count stays as it was. */
  ghost predicate InteractionRecorded(s: State, t: Transition, origin: Origin) {
    forall w :: InteractionsOf(t.post, w) ==
      InteractionsOf(s, w) + (if t.result.Ok? && origin == Signed(w) then 1 else 0)
  }

  /** `set_counter_value(origin, new_value)`: Root only; the new value must not exceed the maximum. */
  function SetCounterValueStep(s: State, max: u32, origin: Origin, newValue: u32): (t: Transition)
    ensures t.result.Err? ==> t.post == s
    ensures !origin.Root? ==> t.result == Err(BadOrigin)
    ensures t.result.Ok? ==> DepositedOneEvent(s, t)
    ensures t.post.userInteractions == s.userInteractions
    ensures WithinMax(s, max) ==> WithinMax(t.post, max)
  {
    if !origin.Root? then Reject(s, BadOrigin)
    else if newValue > max then Reject(s, CounterValueExceedsMax)
    else Transition(Ok, State(Some(newValue), s.userInteractions, s.events + [CounterValueSet(newValue)]))
  }

  /** `increment(origin, amount)`: signed origins only; checked addition, the
      maximum, then one more interaction for the caller. */
  function IncrementStep(s: State, max: u32, origin: Origin, amount: u32): (t: Transition)
    ensures t.result.Err? ==> t.post == s
    ensures !origin.Signed? ==> t.result == Err(BadOrigin)
    ensures t.result.Ok? ==> DepositedOneEvent(s, t)
    ensures InteractionRecorded(s, t, origin)
    ensures WithinMax(s, max) ==> WithinMax(t.post, max)
  {
    match origin
    case Signed(who) =>
      (match CheckedAdd(CurrentValue(s), amount)
       case None => Reject(s, CounterOverflow)
       case Some(newValue) =>
         if newValue > max then Reject(s, CounterValueExceedsMax)
         else
           match CheckedAdd(InteractionsOf(s, who), 1)
           case None => Reject(s, UserInteractionOverflow)
           case Some(n) => Transition(Ok, Commit(s, newValue, who, n, CounterIncremented(newValue, who, amount))))
    case _ => Reject(s, BadOrigin)
  }

  /** `decrement(origin, amount)`: signed origins only; checked subtraction
      (no maximum check), then one more interaction for the caller. */
  function DecrementStep(s: State, max: u32, origin: Origin, amount: u32): (t: Transition)
    ensures t.result.Err? ==> t.post == s
    ensures !origin.Signed? ==> t.result == Err(BadOrigin)
    ensures t.result.Ok? ==> DepositedOneEvent(s, t)
    ensures InteractionRecorded(s, t, origin)
    ensures WithinMax(s, max) ==> WithinMax(t.post, max)
  {
    match origin
    case Signed(who) =>
      (match CheckedSub(CurrentValue(s), amount)
       case None => Reject(s, CounterValueBelowZero)
       case Some(newValue) =>
         match CheckedAdd(InteractionsOf(s, who), 1)
         case None => Reject(s, UserInteractionOverflow)
         case Some(n) => Transition(Ok, Commit(s, newValue, who, n, CounterDecremented(newValue, who, amount))))
    case _ => Reject(s, BadOrigin)
  }

  /** Dispatch of one extrinsic to the call it names. */
  function Dispatch(s: State, max: u32, x: Extrinsic): (t: Transition)
    ensures t.result.Err? ==> t.post == s
    ensures t.result.Ok? ==> DepositedOneEvent(s, t)
    ensures InteractionRecorded(s, t, x.origin)
    ensures WithinMax(s, max) ==> WithinMax(t.post, max)
  {
    match x.call
    case SetCounterValue(v) => SetCounterValueStep(s, max, x.origin, v)
    case Increment(a) => IncrementStep(s, max, x.origin, a)
    case Decrement(a) => DecrementStep(s, max, x.origin, a)
  }

  /** The pallet instance: its storage items as fields, updated in place by its calls. */
  class Pallet {
    /** `CounterMaxValue`, fixed by the runtime's configuration. */
    const maxValue: u32
    /** `CounterValue` storage value. */
    var counterValue: Option<u32>
    /** `UserInteractions` storage map. */
    var userInteractions: map<AccountId, u32>
    /** Events deposited by this pallet, oldest first. */
    var events: seq<Event>

    /** The storage invariant on the fields. */
    predicate Valid()
      reads this
    {
      WithinMax(Snapshot(), maxValue)
    }

    /** The fields as a `State` value. */
    function Snapshot(): State
      reads this
    {
      State(counterValue, userInteractions, events)
    }

    constructor (maxValue: u32)
      ensures this.maxValue == maxValue
      ensures Snapshot() == Genesis
      ensures Valid()
    {
      this.maxValue := maxValue;
      counterValue := None;
      userInteractions := map[];
      events := [];
    }

    /** `set_counter_value`. */
    method SetCounterValue(origin: Origin, newValue: u32) returns (r: DispatchResult)
      modifies this
      ensures Transition(r, Snapshot()) == SetCounterValueStep(old(Snapshot()), maxValue, origin, newValue)
      ensures r.Err? ==> Snapshot() == old(Snapshot())
      ensures old(Valid()) ==> Valid()
    {
      if !origin.Root? {
        return Err(BadOrigin);
      }
      if newValue > maxValue {
        return Err(CounterValueExceedsMax);
      }
      counterValue := Some(newValue);
      events := events + [CounterValueSet(newValue)];
      r := Ok;
    }

    /** `increment`. The source stores the new counter before updating the
        interaction count and relies on the runtime to discard that write when
        the update fails; here both new values are computed first and stored
        only once every check has passed. */
    method Increment(origin: Origin, amountToIncrement: u32) returns (r: DispatchResult)
      modifies this
      ensures Transition(r, Snapshot()) == IncrementStep(old(Snapshot()), maxValue, origin, amountToIncrement)
      ensures r.Err? ==> Snapshot() == old(Snapshot())
      ensures old(Valid()) ==> Valid()
    {
      if !origin.Signed? {
        return Err(BadOrigin);
      }
      var who := origin.who;
      var currentValue := counterValue.UnwrapOr(0);
      var sum := CheckedAdd(currentValue, amountToIncrement);
      if sum.None? {
        return Err(CounterOverflow);
      }
      var newValue := sum.value;
      if newValue > maxValue {
        return Err(CounterValueExceedsMax);
      }
      var interactions := if who in userInteractions then userInteractions[who] else 0;
      var bumped := CheckedAdd(interactions, 1);
      if bumped.None? {
        return Err(UserInteractionOverflow);
      }
      counterValue := Some(newValue);
      userInteractions := userInteractions[who := bumped.value];
      events := events + [CounterIncremented(newValue, who, amountToIncrement)];
      r := Ok;
    }

    /** `decrement`, with the same deferred commit as `Increment`. */
    method Decrement(origin: Origin, amountToDecrement: u32) returns (r: DispatchResult)
      modifies this
      ensures Transition(r, Snapshot()) == DecrementStep(old(Snapshot()), maxValue, origin, amountToDecrement)
      ensures r.Err? ==> Snapshot() == old(Snapshot())
      ensures old(Valid()) ==> Valid()
    {
      if !origin.Signed? {
        return Err(BadOrigin);
      }
      var who := origin.who;
      var currentValue := counterValue.UnwrapOr(0);
      var difference := CheckedSub(currentValue, amountToDecrement);
      if difference.None? {
        return Err(CounterValueBelowZero);
      }
      var newValue := difference.value;
      var interactions := if who in userInteractions then userInteractions[who] else 0;
      var bumped := CheckedAdd(interactions, 1);
      if bumped.None? {
        return Err(UserInteractionOverflow);
      }
      counterValue := Some(newValue);
      userInteractions := userInteractions[who := bumped.value];
      events := events + [CounterDecremented(newValue, who, amountToDecrement)];
      r := Ok;
    }

    /** Dispatch of one extrinsic to the method of the call it names. */
    method DispatchExtrinsic(x: Extrinsic) returns (r: DispatchResult)
      modifies this
      ensures Transition(r, Snapshot()) == Dispatch(old(Snapshot()), maxValue, x)
      ensures old(Valid()) ==> Valid()
    {
      match x.call
      case SetCounterValue(v) => r := SetCounterValue(x.origin, v);
      case Increment(a) => r := Increment(x.origin, a);
      case Decrement(a) => r := Decrement(x.origin, a);
    }
  }
}
