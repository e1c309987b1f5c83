/** The 4-bit bus layer of the display (src/lcd.c): initial line levels, the
    enable pulse, the nibble write and the two-nibble send, each a fixed
    sequence of line writes and waits on the GPIO subsystem. */
module LcdBus {
  import opened Gpio

  /** The GPIO lines wired to the panel: register select, read/write, enable,
      backlight and the four data lines D4..D7. */
  datatype Wiring = Wiring(rs: int, rw: int, e: int, bl: int, d4: int, d5: int, d6: int, d7: int)
  {
    /** The eight lines are pairwise different. */
    predicate Distinct()
    {
      && rs != rw && rs != e && rs != bl && rs != d4 && rs != d5 && rs != d6 && rs != d7
      && rw != e && rw != bl && rw != d4 && rw != d5 && rw != d6 && rw != d7
      && e != bl && e != d4 && e != d5 && e != d6 && e != d7
      && bl != d4 && bl != d5 && bl != d6 && bl != d7
      && d4 != d5 && d4 != d6 && d4 != d7
      && d5 != d6 && d5 != d7
      && d6 != d7
    }

    predicate IsDataLine(pin: int)
    {
      pin == d4 || pin == d5 || pin == d6 || pin == d7
    }
  }

  /** `(value >> k) & 0x01` of an unsigned byte, as a line level. */
  function Bit(v: bv8, k: nat): bool
    requires k < 8
  {
    (v >> k) & 1 == 1
  }

  /** The calls hgd_lcd_init makes. The wait is recorded with its arguments as
      written, minimum 40000 and maximum 2000. */
  function InitCalls(w: Wiring): seq<Call>
  {
    [ SetValue(w.rs, false), SetValue(w.rw, false), SetValue(w.e, false), SetValue(w.bl, false),
      SetValue(w.d4, false), SetValue(w.d5, false), SetValue(w.d6, false), SetValue(w.d7, false),
      SleepUs(40000, 2000),
      SetValue(w.d4, true), SetValue(w.d5, true) ]
  }

  /** The calls hgd_lcd_pulse makes: enable low, high, low, with waits. */
  function PulseCalls(w: Wiring): seq<Call>
  {
    [ SetValue(w.e, false), SleepUs(1, 10), SetValue(w.e, true), SleepUs(1, 10),
      SetValue(w.e, false), SleepUs(100, 200) ]
  }

  /** The calls hgd_lcd_write(v) makes: bits 0, 1, 3 and 4 of v onto D4..D7,
      then a pulse. */
  function WriteCalls(w: Wiring, v: bv8): seq<Call>
  {
    [ SetValue(w.d4, Bit(v, 0)), SetValue(w.d5, Bit(v, 1)),
      SetValue(w.d6, Bit(v, 3)), SetValue(w.d7, Bit(v, 4)) ]
    + PulseCalls(w)
  }

  /** The line levels after hgd_lcd_write(v): bits 0, 1, 3 and 4 of v on
      D4..D7, then the enable line low. */
  function WriteLevels(level: map<int, bool>, w: Wiring, v: bv8): map<int, bool>
  {
    level[w.d4 := Bit(v, 0)][w.d5 := Bit(v, 1)][w.d6 := Bit(v, 3)][w.d7 := Bit(v, 4)][w.e := false]
  }

  /** The level WriteLevels gives a line: the enable line is low, a data line
      carries its bit (the later assignment wins where lines coincide), any
      other line keeps its level. */
  lemma WriteLevelsAt(level: map<int, bool>, w: Wiring, v: bv8, x: int)
    ensures x in WriteLevels(level, w, v) <==> x in level || x in {w.d4, w.d5, w.d6, w.d7, w.e}
    ensures x in WriteLevels(level, w, v) ==>
              WriteLevels(level, w, v)[x]
              == if x == w.e then false else if x == w.d7 then Bit(v, 4)
                 else if x == w.d6 then Bit(v, 3) else if x == w.d5 then Bit(v, 1)
                 else if x == w.d4 then Bit(v, 0) else level[x]
  {
  }

  /** A second write overwrites every line the first one drove. */
  lemma WriteLevelsTwice(level: map<int, bool>, w: Wiring, u: bv8, v: bv8)
    ensures WriteLevels(WriteLevels(level, w, u), w, v) == WriteLevels(level, w, v)
  {
    var first := WriteLevels(level, w, u);
    var twice := WriteLevels(first, w, v);
    var once := WriteLevels(level, w, v);
    forall x
      ensures x in twice <==> x in once
      ensures x in twice ==> twice[x] == once[x]
    {
      WriteLevelsAt(level, w, u, x);
      WriteLevelsAt(first, w, v, x);
      WriteLevelsAt(level, w, v, x);
    }
    assert twice.Keys == once.Keys;
  }

  /** The calls hgd_lcd_send(v) makes: a write of `v >> 4`, then a write of v
      itself (not masked to its low nibble). */
  function SendCalls(w: Wiring, v: bv8): seq<Call>
  {
    WriteCalls(w, v >> 4) + WriteCalls(w, v)
  }

  /** Number of low-to-high transitions of `pin` caused by the line writes in
      `cs`, starting from level `high`. */
  function RisingEdges(cs: seq<Call>, pin: int, high: bool): nat
  {
    if cs == [] then 0
    else if cs[0].SetValue? && cs[0].pin == pin then
      (if cs[0].high && !high then 1 else 0) + RisingEdges(cs[1..], pin, cs[0].high)
    else RisingEdges(cs[1..], pin, high)
  }

  /** Level of `pin` after the line writes in `cs`, starting from `high`. */
  function FinalLevel(cs: seq<Call>, pin: int, high: bool): bool
  {
    if cs == [] then high
    else if cs[0].SetValue? && cs[0].pin == pin then FinalLevel(cs[1..], pin, cs[0].high)
    else FinalLevel(cs[1..], pin, high)
  }

  /** Edges of a concatenation: those of the first part, then those of the
      second part starting from where the first part left the line. */
  lemma {:induction false} RisingEdgesAppend(a: seq<Call>, b: seq<Call>, pin: int, high: bool)
    ensures RisingEdges(a + b, pin, high)
            == RisingEdges(a, pin, high) + RisingEdges(b, pin, FinalLevel(a, pin, high))
    ensures FinalLevel(a + b, pin, high) == FinalLevel(b, pin, FinalLevel(a, pin, high))
  {
    if a == [] {
      assert a + b == b;
    } else {
      assert (a + b)[1..] == a[1..] + b;
      var next := if a[0].SetValue? && a[0].pin == pin then a[0].high else high;
      RisingEdgesAppend(a[1..], b, pin, next);
    }
  }

  /** A pulse raises the enable line exactly once and leaves it low, whatever
      its level before. */
  lemma {:induction false} PulseRisesOnce(w: Wiring, high: bool)
    ensures RisingEdges(PulseCalls(w), w.e, high) == 1
    ensures FinalLevel(PulseCalls(w), w.e, high) == false
  {
    var p := PulseCalls(w);
    assert p[5..][1..] == [];
    assert RisingEdges(p[5..], w.e, false) == 0 && FinalLevel(p[5..], w.e, false) == false;
    assert p[4..][1..] == p[5..] && p[4..][0] == SetValue(w.e, false);
    assert RisingEdges(p[4..], w.e, true) == 0 && FinalLevel(p[4..], w.e, true) == false;
    assert p[3..][1..] == p[4..] && p[3..][0].SleepUs?;
    assert RisingEdges(p[3..], w.e, true) == 0 && FinalLevel(p[3..], w.e, true) == false;
    assert p[2..][1..] == p[3..] && p[2..][0] == SetValue(w.e, true);
    assert RisingEdges(p[2..], w.e, false) == 1 && FinalLevel(p[2..], w.e, false) == false;
    assert p[1..][1..] == p[2..] && p[1..][0].SleepUs?;
    assert RisingEdges(p[1..], w.e, false) == 1 && FinalLevel(p[1..], w.e, false) == false;
  }

  /** The four data writes of a nibble write never touch the enable line. */
  lemma {:induction false} DataWritesKeepEnable(w: Wiring, v: bv8, high: bool)
    requires w.Distinct()
    ensures RisingEdges(WriteCalls(w, v)[..4], w.e, high) == 0
    ensures FinalLevel(WriteCalls(w, v)[..4], w.e, high) == high
  {
    var d := WriteCalls(w, v)[..4];
    assert d[3..][1..] == [] && d[3..][0] == SetValue(w.d7, Bit(v, 4));
    assert RisingEdges(d[3..], w.e, high) == 0 && FinalLevel(d[3..], w.e, high) == high;
    assert d[2..][1..] == d[3..] && d[2..][0] == SetValue(w.d6, Bit(v, 3));
    assert RisingEdges(d[2..], w.e, high) == 0 && FinalLevel(d[2..], w.e, high) == high;
    assert d[1..][1..] == d[2..] && d[1..][0] == SetValue(w.d5, Bit(v, 1));
    assert RisingEdges(d[1..], w.e, high) == 0 && FinalLevel(d[1..], w.e, high) == high;
    assert d[0] == SetValue(w.d4, Bit(v, 0));
  }

  /** A nibble write produces exactly one rising edge on the enable line and
      leaves it low. */
  lemma {:induction false} WriteRisesOnce(w: Wiring, v: bv8, high: bool)
    requires w.Distinct()
    ensures RisingEdges(WriteCalls(w, v), w.e, high) == 1
    ensures FinalLevel(WriteCalls(w, v), w.e, high) == false
  {
    var c := WriteCalls(w, v);
    assert c == c[..4] + PulseCalls(w);
    DataWritesKeepEnable(w, v, high);
    RisingEdgesAppend(c[..4], PulseCalls(w), w.e, high);
    PulseRisesOnce(w, high);
  }

  /** A send produces exactly two enable pulses (two rising edges) and leaves
      the enable line low. */
  lemma {:induction false} SendPulsesTwice(w: Wiring, v: bv8, high: bool)
    requires w.Distinct()
    ensures RisingEdges(SendCalls(w, v), w.e, high) == 2
    ensures FinalLevel(SendCalls(w, v), w.e, high) == false
  {
    WriteRisesOnce(w, v >> 4, high);
    WriteRisesOnce(w, v, false);
    RisingEdgesAppend(WriteCalls(w, v >> 4), WriteCalls(w, v), w.e, high);
  }

  /** Bit 2 of the argument never reaches a data line: writing v and writing v
      with bit 2 flipped make the very same calls. */
  lemma Bit2Ignored(w: Wiring, v: bv8)
    ensures WriteCalls(w, v) == WriteCalls(w, v ^ 4)
  {
  }

  /** For every byte, the first write of a send drives D7 low, since bit 4 of
      `v >> 4` is always zero. */
  lemma SendFirstWriteDrivesD7Low(w: Wiring, v: bv8)
    ensures SendCalls(w, v)[3] == SetValue(w.d7, false)
  {
  }

  /** As written, a send never carries bit 2 or bit 6 of its byte: flipping
      either leaves every call the same, since the high-nibble write skips
      bit 2 of `v >> 4` and the low-nibble write skips bit 2 of `v`. */
  lemma SendLosesBits2And6(w: Wiring, v: bv8)
    ensures SendCalls(w, v) == SendCalls(w, v ^ 4)
    ensures SendCalls(w, v) == SendCalls(w, v ^ 0x40)
  {
    Bit2Ignored(w, v);
    Bit2Ignored(w, v >> 4);
    assert (v ^ 4) >> 4 == v >> 4;
    assert (v ^ 0x40) >> 4 == (v >> 4) ^ 4;
    assert WriteCalls(w, v ^ 0x40) == WriteCalls(w, v);
  }

  /** So the display receives the same signals for 'A' and 'E'. */
  lemma SendCannotTellAFromE(w: Wiring)
    ensures SendCalls(w, 'A' as bv8) == SendCalls(w, 'E' as bv8)
  {
    SendLosesBits2And6(w, 'A' as bv8);
    assert ('A' as bv8) ^ 4 == 'E' as bv8;
  }

  /** The nibble write as evidently intended by the 4-bit interface: bits 0
      to 3 of the value on D4 to D7, then a pulse. */
  function IntendedWriteCalls(w: Wiring, v: bv8): seq<Call>
  {
    [ SetValue(w.d4, Bit(v, 0)), SetValue(w.d5, Bit(v, 1)),
      SetValue(w.d6, Bit(v, 2)), SetValue(w.d7, Bit(v, 3)) ]
    + PulseCalls(w)
  }

  /** The send built on the intended write: high nibble, then low nibble. */
  function IntendedSendCalls(w: Wiring, v: bv8): seq<Call>
  {
    IntendedWriteCalls(w, v >> 4) + IntendedWriteCalls(w, v)
  }

  /** With the intended write every bit of the byte reaches the bus: two
      bytes that make the same calls are the same byte. */
  lemma IntendedSendKeepsByte(w: Wiring, u: bv8, v: bv8)
    requires IntendedSendCalls(w, u) == IntendedSendCalls(w, v)
    ensures u == v
  {
    var n := |IntendedWriteCalls(w, 0)|;
    assert n == 4 + |PulseCalls(w)|;
    var cu, cv := IntendedSendCalls(w, u), IntendedSendCalls(w, v);
    assert cu[0] == cv[0] && cu[1] == cv[1] && cu[2] == cv[2] && cu[3] == cv[3];
    assert cu[n] == cv[n] && cu[n + 1] == cv[n + 1] && cu[n + 2] == cv[n + 2] && cu[n + 3] == cv[n + 3];
    assert Bit(u >> 4, 0) == Bit(v >> 4, 0) && Bit(u >> 4, 1) == Bit(v >> 4, 1);
    assert Bit(u >> 4, 2) == Bit(v >> 4, 2) && Bit(u >> 4, 3) == Bit(v >> 4, 3);
    assert Bit(u, 0) == Bit(v, 0) && Bit(u, 1) == Bit(v, 1);
    assert Bit(u, 2) == Bit(v, 2) && Bit(u, 3) == Bit(v, 3);
  }

  /** A send writes only the data lines and the enable line: never RS, RW or
      the backlight. */
  lemma SendTouchesOnlyBus(w: Wiring, v: bv8)
    requires w.Distinct()
    ensures forall c :: c in SendCalls(w, v) && c.SetValue? ==> w.IsDataLine(c.pin) || c.pin == w.e
    ensures forall c :: c in SendCalls(w, v) && c.SetValue? ==> c.pin != w.rs && c.pin != w.rw && c.pin != w.bl
  {
  }

  /** hgd_lcd_init: all eight lines low, a wait, then D4 and D5 high; always
      reports success. */
  method Init(chip: Chip, w: Wiring) returns (ok: bool)
    modifies chip
    ensures ok
    ensures chip.calls == old(chip.calls) + InitCalls(w)
    ensures chip.level == old(chip.level)[w.rs := false][w.rw := false][w.e := false][w.bl := false]
                          [w.d4 := false][w.d5 := false][w.d6 := false][w.d7 := false]
                          [w.d4 := true][w.d5 := true]
    ensures chip.requested == old(chip.requested) && chip.direction == old(chip.direction)
    ensures chip.exported == old(chip.exported)
  {
    chip.GpioSetValue(w.rs, false);
    chip.GpioSetValue(w.rw, false);
    chip.GpioSetValue(w.e, false);
    chip.GpioSetValue(w.bl, false);
    chip.GpioSetValue(w.d4, false);
    chip.GpioSetValue(w.d5, false);
    chip.GpioSetValue(w.d6, false);
    chip.GpioSetValue(w.d7, false);
    chip.UsleepRange(40000, 2000);
    chip.GpioSetValue(w.d4, true);
    chip.GpioSetValue(w.d5, true);
    ok := true;
  }

  /** hgd_lcd_pulse: enable low, high, low; only the enable line changes and it
      ends low. */
  method Pulse(chip: Chip, w: Wiring)
    modifies chip
    ensures chip.calls == old(chip.calls) + PulseCalls(w)
    ensures chip.level == old(chip.level)[w.e := false]
    ensures chip.requested == old(chip.requested) && chip.direction == old(chip.direction)
    ensures chip.exported == old(chip.exported)
  {
    chip.GpioSetValue(w.e, false);
    chip.UsleepRange(1, 10);
    chip.GpioSetValue(w.e, true);
    chip.UsleepRange(1, 10);
    chip.GpioSetValue(w.e, false);
    chip.UsleepRange(100, 200);
  }

  /** hgd_lcd_write: D4, D5, D6, D7 take bits 0, 1, 3, 4 of the value, then a
      pulse; RS, RW and the backlight keep their level. */
  method Write(chip: Chip, w: Wiring, v: bv8)
    modifies chip
    ensures chip.calls == old(chip.calls) + WriteCalls(w, v)
    ensures chip.level == WriteLevels(old(chip.level), w, v)
    ensures chip.requested == old(chip.requested) && chip.direction == old(chip.direction)
    ensures chip.exported == old(chip.exported)
  {
    chip.GpioSetValue(w.d4, Bit(v, 0));
    chip.GpioSetValue(w.d5, Bit(v, 1));
    chip.GpioSetValue(w.d6, Bit(v, 3));
    chip.GpioSetValue(w.d7, Bit(v, 4));
    Pulse(chip, w);
  }

  /** hgd_lcd_send: the high part first, then the whole byte. The second
      write overwrites every line the first one drove, so the levels left
      behind are those of `v` alone; the first write survives only in the call
      record. */
  method Send(chip: Chip, w: Wiring, v: bv8)
    modifies chip
    ensures chip.calls == old(chip.calls) + SendCalls(w, v)
    ensures chip.level == WriteLevels(old(chip.level), w, v)
    ensures chip.requested == old(chip.requested) && chip.direction == old(chip.direction)
    ensures chip.exported == old(chip.exported)
  {
    Write(chip, w, v >> 4);
    Write(chip, w, v);
    WriteLevelsTwice(old(chip.level), w, v >> 4, v);
  }
}
