/** Relay control (relay.c): four active-low relay inputs, each switched by
    one line. A relay is on when its line is low. */
module Relay {
  import opened Gpio

  /** The values of the relay identifiers HGD_RELAY_1..4 (members of a C
      enumeration whose values are not part of this model) and the line
      numbers of the relay inputs IN1..IN4. */
  datatype RelayTable = RelayTable(r1: int, r2: int, r3: int, r4: int,
                                   in1: int, in2: int, in3: int, in4: int)
  {
    /** The four identifiers differ: they are the `case` labels of one
        `switch`, which C requires to be distinct. */
    predicate Distinct()
    {
      r1 != r2 && r1 != r3 && r1 != r4 && r2 != r3 && r2 != r4 && r3 != r4
    }

    predicate IsRelay(relay: int)
    {
      relay == r1 || relay == r2 || relay == r3 || relay == r4
    }
  }

  /** C's conversion of a line number to the `__u8` get_relay_gpio returns. */
  function AsU8(x: int): int
  {
    x % 256
  }

  /** get_relay_gpio: the input line of a relay, as a `__u8`; 0 for any value
      that is not a relay identifier. */
  function RelayGpio(t: RelayTable, relay: int): (g: int)
    requires t.Distinct()
    ensures 0 <= g < 256
    ensures !t.IsRelay(relay) ==> g == 0
    ensures relay == t.r1 ==> g == AsU8(t.in1)
    ensures relay == t.r2 ==> g == AsU8(t.in2)
    ensures relay == t.r3 ==> g == AsU8(t.in3)
    ensures relay == t.r4 ==> g == AsU8(t.in4)
  {
    if relay == t.r1 then AsU8(t.in1)
    else if relay == t.r2 then AsU8(t.in2)
    else if relay == t.r3 then AsU8(t.in3)
    else if relay == t.r4 then AsU8(t.in4)
    else 0
  }

  /** hgd_relay_get_state: on (true) when the relay's line reads low; false
      for a value without a line. */
  function RelayState(chip: Chip, t: RelayTable, relay: int): bool
    requires t.Distinct()
    reads chip
  {
    StateIn(chip.level, t, relay)
  }

  /** The same reading over a level map, for stating what a write does. */
  function StateIn(level: map<int, bool>, t: RelayTable, relay: int): (on: bool)
    requires t.Distinct()
    ensures on ==> RelayGpio(t, relay) > 0
    ensures RelayGpio(t, relay) > 0 ==> (on <==> !LevelOf(level, RelayGpio(t, relay)))
  {
    var g := RelayGpio(t, relay);
    if g > 0 then !LevelOf(level, g) else false
  }

  /** Writing `!s` to a relay's line leaves that relay in state `s`, and a
      relay on another line keeps its state. */
  lemma WriteSetsState(level: map<int, bool>, t: RelayTable, relay: int, s: bool, other: int)
    requires t.Distinct() && RelayGpio(t, relay) > 0
    ensures StateIn(level[RelayGpio(t, relay) := !s], t, relay) == s
    ensures RelayGpio(t, other) != RelayGpio(t, relay) ==>
              StateIn(level[RelayGpio(t, relay) := !s], t, other) == StateIn(level, t, other)
  {
  }

  /** hgd_relay_set_state: writes `!state` to the relay's line only when the
      relay is not already in `state` and has a line. */
  method SetState(chip: Chip, t: RelayTable, relay: int, state: bool)
    requires t.Distinct()
    modifies chip
    ensures RelayGpio(t, relay) > 0 ==> RelayState(chip, t, relay) == state
    ensures old(RelayState(chip, t, relay)) == state || RelayGpio(t, relay) == 0 ==>
              chip.level == old(chip.level) && chip.calls == old(chip.calls)
    ensures old(RelayState(chip, t, relay)) != state && RelayGpio(t, relay) > 0 ==>
              chip.level == old(chip.level)[RelayGpio(t, relay) := !state]
              && chip.calls == old(chip.calls) + [SetValue(RelayGpio(t, relay), !state)]
    ensures chip.requested == old(chip.requested) && chip.direction == old(chip.direction)
    ensures chip.exported == old(chip.exported)
  {
    if RelayState(chip, t, relay) != state {
      var gpio := RelayGpio(t, relay);
      if gpio > 0 {
        chip.GpioSetValue(gpio, !state);
      }
    }
  }

  /** The lines of the four relays. */
  function RelayLines(t: RelayTable): (ls: set<int>)
    requires t.Distinct()
    ensures forall r :: t.IsRelay(r) ==> RelayGpio(t, r) in ls
  {
    {RelayGpio(t, t.r1), RelayGpio(t, t.r2), RelayGpio(t, t.r3), RelayGpio(t, t.r4)}
  }

  /** What switching relays off may do to the chip between two states: the
      calls grow by at most `n` writes, each driving a relay line high, and
      a line's level changes only by such a write. */
  ghost predicate OnlySwitchedOff(t: RelayTable, level0: map<int, bool>, calls0: seq<Call>,
                                  level: map<int, bool>, calls: seq<Call>, n: nat)
    requires t.Distinct()
  {
    && calls0 <= calls && |calls| <= |calls0| + n
    && (forall k :: |calls0| <= k < |calls| ==>
          calls[k].SetValue? && calls[k].high && calls[k].pin in RelayLines(t) && calls[k].pin > 0)
    && (forall x :: x in level0 ==> x in level)
    && (forall x :: x in level ==>
          (x in level0 && level[x] == level0[x]) || (x in RelayLines(t) && level[x]))
  }

  /** One more relay switched off extends what switching off may do. */
  lemma OnlySwitchedOffStep(t: RelayTable, level0: map<int, bool>, calls0: seq<Call>,
                            level1: map<int, bool>, calls1: seq<Call>, n: nat,
                            level2: map<int, bool>, calls2: seq<Call>, relay: int)
    requires t.Distinct() && t.IsRelay(relay)
    requires OnlySwitchedOff(t, level0, calls0, level1, calls1, n)
    requires (level2 == level1 && calls2 == calls1)
             || (RelayGpio(t, relay) > 0 && level2 == level1[RelayGpio(t, relay) := true]
                 && calls2 == calls1 + [SetValue(RelayGpio(t, relay), true)])
    ensures OnlySwitchedOff(t, level0, calls0, level2, calls2, n + 1)
  {
  }

  /** hgd_relay_init: every relay is switched off, so afterwards all four
      report off, whichever lines they share. Only relay lines are written,
      each write drives its line high, and there are at most four. */
  method Init(chip: Chip, t: RelayTable)
    requires t.Distinct()
    modifies chip
    ensures !RelayState(chip, t, t.r1) && !RelayState(chip, t, t.r2)
    ensures !RelayState(chip, t, t.r3) && !RelayState(chip, t, t.r4)
    ensures OnlySwitchedOff(t, old(chip.level), old(chip.calls), chip.level, chip.calls, 4)
    ensures chip.requested == old(chip.requested) && chip.direction == old(chip.direction)
    ensures chip.exported == old(chip.exported)
  {
    ghost var l0, c0 := chip.level, chip.calls;
    SetState(chip, t, t.r1, false);
    OnlySwitchedOffStep(t, l0, c0, l0, c0, 0, chip.level, chip.calls, t.r1);
    ghost var l1, c1 := chip.level, chip.calls;
    SetState(chip, t, t.r2, false);
    OnlySwitchedOffStep(t, l0, c0, l1, c1, 1, chip.level, chip.calls, t.r2);
    OffStaysOff(l1, t, t.r1, RelayGpio(t, t.r2));
    ghost var l2, c2 := chip.level, chip.calls;
    SetState(chip, t, t.r3, false);
    OnlySwitchedOffStep(t, l0, c0, l2, c2, 2, chip.level, chip.calls, t.r3);
    OffStaysOff(l2, t, t.r1, RelayGpio(t, t.r3));
    OffStaysOff(l2, t, t.r2, RelayGpio(t, t.r3));
    ghost var l3, c3 := chip.level, chip.calls;
    SetState(chip, t, t.r4, false);
    OnlySwitchedOffStep(t, l0, c0, l3, c3, 3, chip.level, chip.calls, t.r4);
    OffStaysOff(l3, t, t.r1, RelayGpio(t, t.r4));
    OffStaysOff(l3, t, t.r2, RelayGpio(t, t.r4));
    OffStaysOff(l3, t, t.r3, RelayGpio(t, t.r4));
  }

  /** Driving any line high never switches a relay on. */
  lemma OffStaysOff(level: map<int, bool>, t: RelayTable, relay: int, x: int)
    requires t.Distinct()
    requires !StateIn(level, t, relay)
    ensures !StateIn(level[x := true], t, relay)
  {
  }

  /** hgd_relay_toggle as written: the line number of the relay is passed
      where a relay identifier is expected, so the line actually toggled is
      the one of the relay whose identifier equals that number, if any. */
  method Toggle(chip: Chip, t: RelayTable, relay: int)
    requires t.Distinct()
    modifies chip
    ensures var g := RelayGpio(t, relay);
            g == 0 || RelayGpio(t, g) == 0 ==>
              chip.level == old(chip.level) && chip.calls == old(chip.calls)
    ensures var g := RelayGpio(t, relay);
            g > 0 && RelayGpio(t, g) > 0 ==>
              RelayState(chip, t, g) == !old(RelayState(chip, t, g))
              && chip.level == old(chip.level)[RelayGpio(t, g) := !LevelOf(old(chip.level), RelayGpio(t, g))]
              && chip.calls
                 == old(chip.calls) + [SetValue(RelayGpio(t, g), !LevelOf(old(chip.level), RelayGpio(t, g)))]
    ensures chip.requested == old(chip.requested) && chip.direction == old(chip.direction)
    ensures chip.exported == old(chip.exported)
  {
    var gpio := RelayGpio(t, relay);
    if gpio > 0 {
      SetState(chip, t, gpio, !RelayState(chip, t, gpio));
    }
  }

  /** When no relay identifier coincides with a relay line number (the
      identifiers are enumeration values, the lines are board pin numbers),
      Toggle never changes any line: either the relay has no line, or its
      line number is no relay identifier. */
  lemma ToggleMissesRelays(t: RelayTable, relay: int)
    requires t.Distinct()
    requires !t.IsRelay(AsU8(t.in1)) && !t.IsRelay(AsU8(t.in2))
    requires !t.IsRelay(AsU8(t.in3)) && !t.IsRelay(AsU8(t.in4))
    ensures RelayGpio(t, relay) == 0 || RelayGpio(t, RelayGpio(t, relay)) == 0
  {
    var g := RelayGpio(t, relay);
    assert g == 0 || g == AsU8(t.in1) || g == AsU8(t.in2) || g == AsU8(t.in3) || g == AsU8(t.in4);
  }

  /** A concrete board on which toggling relay 1 changes nothing: identifiers
      0..3, inputs on lines 22, 24, 26 and 28. */
  lemma ToggleOfRelayOneIsLost()
    ensures var t := RelayTable(0, 1, 2, 3, 22, 24, 26, 28);
            RelayGpio(t, 0) == 22 && RelayGpio(t, RelayGpio(t, 0)) == 0
  {
  }

  /** The toggle the function's name promises: relay `relay` itself is
      switched to the opposite state. */
  method ToggleIntended(chip: Chip, t: RelayTable, relay: int)
    requires t.Distinct()
    modifies chip
    ensures RelayGpio(t, relay) > 0 ==>
              RelayState(chip, t, relay) == !old(RelayState(chip, t, relay))
              && chip.level == old(chip.level)[RelayGpio(t, relay) := !LevelOf(old(chip.level), RelayGpio(t, relay))]
              && chip.calls
                 == old(chip.calls) + [SetValue(RelayGpio(t, relay), !LevelOf(old(chip.level), RelayGpio(t, relay)))]
    ensures RelayGpio(t, relay) == 0 ==> chip.level == old(chip.level) && chip.calls == old(chip.calls)
    ensures chip.requested == old(chip.requested) && chip.direction == old(chip.direction)
    ensures chip.exported == old(chip.exported)
  {
    if RelayGpio(t, relay) > 0 {
      SetState(chip, t, relay, !RelayState(chip, t, relay));
    }
  }
}
