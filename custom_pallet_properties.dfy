/** What the counter pallet promises: the outcome of each call in terms of the
    storage before it, all-or-nothing failure, and the invariants kept by any
    sequence of calls the runtime executes one after another. */
module CustomPalletProperties {
  import opened Primitives
  import opened CustomPallet

  /** `set_counter_value` from Root succeeds exactly when the value is within
      the maximum; afterwards the counter reads back that value and only a
      `CounterValueSet` event has been added. */
  lemma SetCounterValueOutcome(s: State, max: u32, origin: Origin, v: u32)
    ensures var t := SetCounterValueStep(s, max, origin, v);
      && (t.result.Ok? <==> origin.Root? && v <= max)
      && (t.result == Err(CounterValueExceedsMax) <==> origin.Root? && v > max)
      && (t.result.Ok? ==>
            CurrentValue(t.post) == v &&
            t.post.events == s.events + [CounterValueSet(v)])
  {
  }

  /** `increment(a)` by `who`, with `c` the counter read as 0 when absent and
      `n` the caller's interaction count: the three errors and their order, and
      on success the counter is `c + a`, `who` has `n + 1` interactions and one
      `CounterIncremented` event is added. */
  lemma IncrementOutcome(s: State, max: u32, who: AccountId, a: u32)
    ensures var t := IncrementStep(s, max, Signed(who), a);
      var c, n := CurrentValue(s), InteractionsOf(s, who);
      && (t.result == Err(CounterOverflow) <==> c + a > U32_MAX)
      && (t.result == Err(CounterValueExceedsMax) <==> c + a <= U32_MAX && c + a > max)
      && (t.result == Err(UserInteractionOverflow) <==> c + a <= max && n == U32_MAX)
      && (t.result.Ok? <==> c + a <= max && n < U32_MAX)
      && (t.result.Ok? ==>
            t.post.counterValue == Some(c + a) &&
            t.post.userInteractions == s.userInteractions[who := n + 1] &&
            t.post.events == s.events + [CounterIncremented(c + a, who, a)])
  {
  }

  /** `decrement(a)` by `who`: it fails below zero or on interaction overflow,
      never checks the maximum, and on success the counter is `c - a`. */
  lemma DecrementOutcome(s: State, max: u32, who: AccountId, a: u32)
    ensures var t := DecrementStep(s, max, Signed(who), a);
      var c, n := CurrentValue(s), InteractionsOf(s, who);
      && (t.result == Err(CounterValueBelowZero) <==> a > c)
      && (t.result == Err(UserInteractionOverflow) <==> a <= c && n == U32_MAX)
      && (t.result.Ok? <==> a <= c && n < U32_MAX)
      && (t.result.Ok? ==>
            t.post.counterValue == Some(c - a) &&
            t.post.userInteractions == s.userInteractions[who := n + 1] &&
            t.post.events == s.events + [CounterDecremented(c - a, who, a)])
  {
  }

  /** The rollback the runtime provides: when the caller's interaction count is
      already `u32::MAX`, a call whose counter arithmetic would succeed fails
      with `UserInteractionOverflow` and the counter write does not survive. */
  lemma InteractionOverflowDiscardsCounterWrite(s: State, max: u32, who: AccountId, a: u32)
    requires InteractionsOf(s, who) == U32_MAX
    ensures CurrentValue(s) + a <= max ==>
      IncrementStep(s, max, Signed(who), a) == Transition(Err(UserInteractionOverflow), s)
    ensures a <= CurrentValue(s) ==>
      DecrementStep(s, max, Signed(who), a) == Transition(Err(UserInteractionOverflow), s)
  {
  }

  /** A failed call changes nothing, so repeating it fails the same way and
      still changes nothing. */
  lemma FailedCallIsIdempotent(s: State, max: u32, x: Extrinsic)
    requires Dispatch(s, max, x).result.Err?
    ensures Dispatch(Dispatch(s, max, x).post, max, x) == Dispatch(s, max, x)
  {
  }

  /** The runtime executes extrinsics one at a time; a failed one leaves the state as it was. */
  function Run(s: State, max: u32, xs: seq<Extrinsic>): State
    decreases |xs|
  {
    if xs == [] then s else Run(Dispatch(s, max, xs[0]).post, max, xs[1..])
  }

  /** How many of `xs` succeed when executed in order from `s`. */
  function Successes(s: State, max: u32, xs: seq<Extrinsic>): nat
    decreases |xs|
  {
    if xs == [] then 0
    else
      var t := Dispatch(s, max, xs[0]);
      (if t.result.Ok? then 1 else 0) + Successes(t.post, max, xs[1..])
  }

  /** How many of `xs` succeed with origin `Signed(who)` when executed in order from `s`. */
  function SuccessesBy(s: State, max: u32, xs: seq<Extrinsic>, who: AccountId): nat
    decreases |xs|
  {
    if xs == [] then 0
    else
      var t := Dispatch(s, max, xs[0]);
      (if t.result.Ok? && xs[0].origin == Signed(who) then 1 else 0) + SuccessesBy(t.post, max, xs[1..], who)
  }

  /** `CounterValue <= CounterMaxValue` holds after any sequence of calls that starts where it holds. */
  lemma {:induction false} RunPreservesWithinMax(s: State, max: u32, xs: seq<Extrinsic>)
    requires WithinMax(s, max)
    ensures WithinMax(Run(s, max, xs), max)
    decreases |xs|
  {
    if xs != [] {
      RunPreservesWithinMax(Dispatch(s, max, xs[0]).post, max, xs[1..]);
    }
  }

  /** From genesis, the stored counter never exceeds the maximum. */
  lemma {:induction false} GenesisWithinMax(max: u32, xs: seq<Extrinsic>)
    ensures Run(Genesis, max, xs).counterValue.Some? ==> Run(Genesis, max, xs).counterValue.value <= max
  {
    RunPreservesWithinMax(Genesis, max, xs);
  }

  /** Events are only ever appended, one per successful call. */
  lemma {:induction false} RunEventLog(s: State, max: u32, xs: seq<Extrinsic>)
    ensures |Run(s, max, xs).events| == |s.events| + Successes(s, max, xs)
    ensures Run(s, max, xs).events[..|s.events|] == s.events
    decreases |xs|
  {
    if xs != [] {
      var t := Dispatch(s, max, xs[0]);
      RunEventLog(t.post, max, xs[1..]);
      var r := Run(t.post, max, xs[1..]);
      assert r.events[..|s.events|] == r.events[..|t.post.events|][..|s.events|];
    }
  }

  /** The interaction count of `who` grows by exactly the number of calls `who` made that succeeded. */
  lemma {:induction false} RunCountsInteractions(s: State, max: u32, xs: seq<Extrinsic>, who: AccountId)
    ensures InteractionsOf(Run(s, max, xs), who) == InteractionsOf(s, who) + SuccessesBy(s, max, xs, who)
    decreases |xs|
  {
    if xs != [] {
      var t := Dispatch(s, max, xs[0]);
      assert InteractionRecorded(s, t, xs[0].origin);
      RunCountsInteractions(t.post, max, xs[1..], who);
    }
  }

  /** The worked scenario with `CounterMaxValue = 100`: Root sets 50, Alice adds
      30, Bob's increment by 25 exceeds the maximum, Alice's decrement by 90
      would go below zero. */
  lemma Scenario()
    ensures
      var alice, bob := [1 as bv8], [2 as bv8];
      var t1 := SetCounterValueStep(Genesis, 100, Root, 50);
      var t2 := IncrementStep(t1.post, 100, Signed(alice), 30);
      var t3 := IncrementStep(t2.post, 100, Signed(bob), 25);
      var t4 := DecrementStep(t3.post, 100, Signed(alice), 90);
      && t1.result == Ok && t1.post.counterValue == Some(50)
      && t1.post.events == [CounterValueSet(50)]
      && t2.result == Ok && t2.post.counterValue == Some(80)
      && InteractionsOf(t2.post, alice) == 1
      && t2.post.events == [CounterValueSet(50), CounterIncremented(80, alice, 30)]
      && t3.result == Err(CounterValueExceedsMax) && t3.post == t2.post
      && bob !in t3.post.userInteractions
      && t4.result == Err(CounterValueBelowZero) && t4.post == t2.post
  {
  }
}
