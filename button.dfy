/** The push button (button.c): a threaded interrupt whose top half drops
    presses that come less than DIFF_JIFFIES ticks after the last accepted
    one and wakes the bottom half only when it is idle; the bottom half
    samples the button a fixed number of times, then marks itself idle. */
module Button {
  import opened Gpio

  /** DIFF_JIFFIES: the debounce window, in ticks. */
  const DiffJiffies: nat := 50

  /** `unsigned long` is 64 bits wide on the target; tick counts and their
      differences wrap at this modulus. */
  const WordModulus: nat := 0x1_0000_0000_0000_0000

  type ULong = x: int | 0 <= x < WordModulus

  /** The bottom half's iteration count and the delay of each iteration. */
  const ThreadSteps: nat := 100
  const StepDelayMs: nat := 5

  datatype IrqReturn = Handled | WakeThread

  /** `jiffies - old_jiffies` in unsigned arithmetic: the number of ticks
      from `before` forward to `now`, the counter wrapping at the word
      size. */
  function Elapsed(now: ULong, before: ULong): (d: ULong)
    ensures (before + d) % WordModulus == now
  {
    (now - before) % WordModulus
  }

  /** The top half lets a press through when at least the window has passed
      since the last accepted one. */
  predicate Accepts(now: ULong, before: ULong)
  {
    Elapsed(now, before) >= DiffJiffies
  }

  /** Before any press is accepted `old_jiffies` is 0, so a press is let
      through exactly when the tick counter has reached the window. */
  lemma FirstWindowRejected(now: ULong)
    ensures Accepts(now, 0) <==> now >= DiffJiffies
  {
  }

  /** A tick counter that has wrapped since the last accepted press still
      measures the distance forward: the press is let through exactly when
      the ticks to the wrap plus the ticks after it reach the window. */
  lemma AcceptsAcrossWrap(now: ULong, before: ULong)
    requires now < before
    ensures Accepts(now, before) <==> (WordModulus - before) + now >= DiffJiffies
  {
    assert Elapsed(now, before) == now - before + WordModulus;
  }

  /** Two presses closer than the window: the second is never let through,
      whatever the counter values, across a wrap as well. */
  lemma CloseSecondPressRejected(before: ULong, gap: nat)
    requires gap < DiffJiffies
    ensures !Accepts(((before + gap) % WordModulus) as ULong, before)
  {
    var now := (before + gap) % WordModulus;
    if before + gap < WordModulus {
      assert now == before + gap;
    } else {
      assert now == before + gap - WordModulus;
      assert Elapsed(now, before) == gap;
    }
  }

  /** hgd_button_get_state: pressed when the line reads low. */
  method GetState(chip: Chip, pin: int) returns (pressed: bool)
    ensures pressed <==> !chip.Level(pin)
  {
    pressed := !chip.Level(pin);
  }

  /** The mdelay calls of `n` bottom-half iterations. */
  function Delays(n: nat): (cs: seq<Call>)
    ensures |cs| == n && forall k :: 0 <= k < n ==> cs[k] == DelayMs(StepDelayMs)
  {
    seq(n, _ => DelayMs(StepDelayMs))
  }

  /** The interrupt's state: `old_jiffies` and the atomic `thread_busy`. */
  class ButtonIrq {
    var oldJiffies: ULong
    var threadBusy: int

    /** At most one bottom half is ever pending or running. */
    ghost predicate Valid()
      reads this
    {
      0 <= threadBusy <= 1
    }

    /** The values the module starts with. */
    constructor ()
      ensures oldJiffies == 0 && threadBusy == 0 && Valid()
    {
      oldJiffies := 0;
      threadBusy := 0;
    }

    /** gpio_irq_handler with the tick counter `jiffies`. A press inside the
        window is handled with no state change. Any other press moves the
        window to `jiffies`, even when it is then dropped because the bottom
        half is busy; when the bottom half is idle it is marked busy and
        woken. */
    method Handler(jiffies: ULong) returns (r: IrqReturn)
      requires Valid()
      modifies this
      ensures Valid()
      ensures !Accepts(jiffies, old(oldJiffies)) ==>
                r == Handled && oldJiffies == old(oldJiffies) && threadBusy == old(threadBusy)
      ensures Accepts(jiffies, old(oldJiffies)) ==> oldJiffies == jiffies
      ensures Accepts(jiffies, old(oldJiffies)) && old(threadBusy) > 0 ==>
                r == Handled && threadBusy == old(threadBusy)
      ensures Accepts(jiffies, old(oldJiffies)) && old(threadBusy) <= 0 ==>
                r == WakeThread && threadBusy == old(threadBusy) + 1
    {
      var diff := Elapsed(jiffies, oldJiffies);
      if diff < DiffJiffies {
        return Handled;
      }
      oldJiffies := jiffies;
      if threadBusy > 0 {
        return Handled;
      }
      threadBusy := threadBusy + 1;
      return WakeThread;
    }

    /** gpio_interrupt_thread_fn: 100 iterations, each reading the button
        state (for the log) and waiting 5 ms; then the busy mark is
        released. `states` holds the states read; nothing drives the line in
        between, so they all equal the state at the start. */
    method ThreadFn(chip: Chip, pin: int) returns (r: IrqReturn, states: seq<bool>)
      requires Valid() && threadBusy == 1
      modifies this, chip
      ensures Valid() && threadBusy == 0
      ensures r == Handled
      ensures threadBusy == old(threadBusy) - 1 && oldJiffies == old(oldJiffies)
      ensures |states| == ThreadSteps
      ensures forall k :: 0 <= k < |states| ==> states[k] == !old(chip.Level(pin))
      ensures chip.calls == old(chip.calls) + Delays(ThreadSteps)
      ensures chip.level == old(chip.level) && chip.requested == old(chip.requested)
      ensures chip.direction == old(chip.direction) && chip.exported == old(chip.exported)
    {
      var i: nat := ThreadSteps;
      states := [];
      while i > 0
        invariant i <= ThreadSteps && |states| == ThreadSteps - i
        invariant forall k :: 0 <= k < |states| ==> states[k] == !old(chip.Level(pin))
        invariant chip.calls == old(chip.calls) + Delays(ThreadSteps - i)
        invariant chip.level == old(chip.level) && chip.requested == old(chip.requested)
        invariant chip.direction == old(chip.direction) && chip.exported == old(chip.exported)
        invariant threadBusy == old(threadBusy) && oldJiffies == old(oldJiffies)
      {
        var pressed := GetState(chip, pin);
        states := states + [pressed];
        chip.Mdelay(StepDelayMs);
        assert Delays(ThreadSteps - i) + [DelayMs(StepDelayMs)] == Delays(ThreadSteps - (i - 1));
        i := i - 1;
      }
      threadBusy := threadBusy - 1;
      r := Handled;
    }
  }

  /** From the state at load, with a counter `t` past the first window: a
      press at `t` wakes the bottom half; a bounce 10 ticks later is
      dropped without moving the window; a press 60 ticks after the first,
      while the bottom half still runs, is dropped too but moves the window.
      Once the bottom half has run, the next press 50 ticks later wakes it
      again. */
  method PressSequence(b: ButtonIrq, chip: Chip, pin: int, t: ULong)
    returns (r1: IrqReturn, r2: IrqReturn, r3: IrqReturn, r4: IrqReturn)
    requires b.oldJiffies == 0 && b.threadBusy == 0
    requires DiffJiffies <= t && t + 110 < WordModulus
    modifies b, chip
    ensures r1 == WakeThread && r2 == Handled && r3 == Handled && r4 == WakeThread
    ensures b.oldJiffies == t + 110 && b.threadBusy == 1
  {
    r1 := b.Handler(t);
    r2 := b.Handler(t + 10);
    r3 := b.Handler(t + 60);
    var done, states := b.ThreadFn(chip, pin);
    r4 := b.Handler(t + 110);
  }
}
