/** The display driver module (hhg_lcd.c): acquisition of the panel's lines
    for the 4-bit bus, the 8-bit initialiser, the send primitives (bodies not
    yet written in the driver) and the single-open gate of the character
    device. */
module HhgLcd {
  import opened Gpio

  /** A C `short`, the type of the module parameters. */
  type Short = x: int | -0x8000 <= x < 0x8000

  /** The module parameters gpio_rs .. gpio_db7 (DB0..DB3 are not read by the
      4-bit path), each a `short`; -1, the default, means "not configured". */
  datatype Params = Params(rs: Short, rw: Short, en: Short, db4: Short, db5: Short, db6: Short, db7: Short)

  /** C's conversion of an int return value to `bool`. */
  function AsBool(rc: int): bool
  {
    rc != 0
  }

  /** The lines the 4-bit path validates and requests, in order: RS, then RW
      only when it is configured (`gpio_rw > -1`), then EN and DB4..DB7. */
  function FourBitLines(p: Params): (ps: seq<int>)
    ensures p.rw > -1 ==> ps == [p.rs, p.rw, p.en, p.db4, p.db5, p.db6, p.db7]
    ensures p.rw <= -1 ==> ps == [p.rs, p.en, p.db4, p.db5, p.db6, p.db7]
  {
    [p.rs] + (if p.rw > -1 then [p.rw] else []) + [p.en, p.db4, p.db5, p.db6, p.db7]
  }

  function RequestOneLowCalls(ps: seq<int>): (cs: seq<Call>)
    ensures |cs| == |ps|
    ensures forall i :: 0 <= i < |ps| ==> cs[i] == RequestOneLow(ps[i])
  {
    if ps == [] then [] else [RequestOneLow(ps[0])] + RequestOneLowCalls(ps[1..])
  }

  /** The lines among `ps` that a request can newly claim. */
  function Claimable(ps: seq<int>, requested: set<int>): set<int>
  {
    set q | q in ps && q !in requested
  }

  /** A direction or level map after requesting the lines `ps` in order, as
      outputs driven low, when the lines `req` were already requested: each
      request that succeeds sets its line to `v`, a failed one changes
      nothing. */
  function OutputsAfter<V>(m: map<int, V>, ps: seq<int>, req: set<int>, v: V): map<int, V>
    decreases |ps|
  {
    if ps == [] then m
    else
      var earlier := ps[..|ps| - 1];
      var q := ps[|ps| - 1];
      var before := OutputsAfter(m, earlier, req, v);
      if q in req || q in earlier then before else before[q := v]
  }

  /** What OutputsAfter means line by line: exactly the lines that were free
      before and are named in `ps` end up at `v`; every other line keeps its
      entry (or its absence). */
  lemma {:induction false} OutputsAfterAt<V>(m: map<int, V>, ps: seq<int>, req: set<int>, v: V, x: int)
    ensures x in Claimable(ps, req) ==> x in OutputsAfter(m, ps, req, v) && OutputsAfter(m, ps, req, v)[x] == v
    ensures x !in Claimable(ps, req) ==>
              (x in OutputsAfter(m, ps, req, v) <==> x in m)
              && (x in m ==> OutputsAfter(m, ps, req, v)[x] == m[x])
    decreases |ps|
  {
    if ps != [] {
      var earlier := ps[..|ps| - 1];
      assert ps == earlier + [ps[|ps| - 1]];
      OutputsAfterAt(m, earlier, req, v, x);
    }
  }

  /** hhg_lcd_init_4_bit. Each configured line is checked in order and the
      first invalid one makes the function return -EINVAL before anything is
      requested; as a `bool` that is `true`, the opposite of what its
      documentation promises. Otherwise every line is requested as an output
      driven low, in order, each result ignored, and the function returns 0,
      i.e. `false`. */
  method Init4Bit(chip: Chip, p: Params) returns (r: bool)
    modifies chip
    ensures r <==> exists q :: q in FourBitLines(p) && q !in chip.valid
    ensures r ==> chip.calls == old(chip.calls) && chip.requested == old(chip.requested)
                  && chip.direction == old(chip.direction) && chip.level == old(chip.level)
    ensures !r ==> chip.calls == old(chip.calls) + RequestOneLowCalls(FourBitLines(p))
    ensures !r ==> chip.requested == old(chip.requested) + set q | q in FourBitLines(p)
    ensures !r ==> chip.direction == OutputsAfter(old(chip.direction), FourBitLines(p), old(chip.requested), Output)
    ensures !r ==> chip.level == OutputsAfter(old(chip.level), FourBitLines(p), old(chip.requested), false)
    ensures chip.exported == old(chip.exported)
  {
    if p.rs !in chip.valid { return AsBool(-EINVAL); }
    if p.rw > -1 {
      if p.rw !in chip.valid { return AsBool(-EINVAL); }
    }
    if p.en !in chip.valid { return AsBool(-EINVAL); }
    if p.db4 !in chip.valid { return AsBool(-EINVAL); }
    if p.db5 !in chip.valid { return AsBool(-EINVAL); }
    if p.db6 !in chip.valid { return AsBool(-EINVAL); }
    if p.db7 !in chip.valid { return AsBool(-EINVAL); }

    RequestFourBitLines(chip, p);
    return AsBool(0);
  }

  /** The request half of Init4Bit, reached once every line is valid: RS,
      [RW], EN, DB4..DB7 requested in order as outputs driven low. */
  method RequestFourBitLines(chip: Chip, p: Params)
    requires forall q :: q in FourBitLines(p) ==> q in chip.valid
    modifies chip
    ensures chip.calls == old(chip.calls) + RequestOneLowCalls(FourBitLines(p))
    ensures chip.requested == old(chip.requested) + set q | q in FourBitLines(p)
    ensures chip.direction == OutputsAfter(old(chip.direction), FourBitLines(p), old(chip.requested), Output)
    ensures chip.level == OutputsAfter(old(chip.level), FourBitLines(p), old(chip.requested), false)
    ensures chip.exported == old(chip.exported)
  {
    ghost var req0, dir0, lvl0, calls0 := chip.requested, chip.direction, chip.level, chip.calls;
    ghost var done: seq<int> := [];
    var rc := RequestLineLow(chip, p.rs, req0, dir0, lvl0, calls0, done);
    done := done + [p.rs];
    if p.rw > -1 {
      rc := RequestLineLow(chip, p.rw, req0, dir0, lvl0, calls0, done);
      done := done + [p.rw];
    }
    rc := RequestLineLow(chip, p.en, req0, dir0, lvl0, calls0, done);
    done := done + [p.en];
    rc := RequestLineLow(chip, p.db4, req0, dir0, lvl0, calls0, done);
    done := done + [p.db4];
    rc := RequestLineLow(chip, p.db5, req0, dir0, lvl0, calls0, done);
    done := done + [p.db5];
    rc := RequestLineLow(chip, p.db6, req0, dir0, lvl0, calls0, done);
    done := done + [p.db6];
    rc := RequestLineLow(chip, p.db7, req0, dir0, lvl0, calls0, done);
    done := done + [p.db7];
    FourBitLinesByAppends(p);
  }

  lemma FourBitLinesByAppends(p: Params)
    ensures p.rw > -1 ==> FourBitLines(p) == [] + [p.rs] + [p.rw] + [p.en] + [p.db4] + [p.db5] + [p.db6] + [p.db7]
    ensures p.rw <= -1 ==> FourBitLines(p) == [] + [p.rs] + [p.en] + [p.db4] + [p.db5] + [p.db6] + [p.db7]
  {
  }

  /** The state reached from (req0, dir0, lvl0, calls0) by requesting the valid
      lines `done`, in order, as outputs driven low. */
  ghost predicate RequestedAll(chip: Chip, req0: set<int>, dir0: map<int, Direction>,
                               lvl0: map<int, bool>, calls0: seq<Call>, done: seq<int>)
    reads chip
  {
    && chip.calls == calls0 + RequestOneLowCalls(done)
    && chip.requested == req0 + (set q | q in done)
    && chip.direction == OutputsAfter(dir0, done, req0, Output)
    && chip.level == OutputsAfter(lvl0, done, req0, false)
  }

  /** One `gpio_request_one(q, GPIOF_OUT_INIT_LOW, ...)` of Init4Bit, its
      result ignored by the caller. */
  method RequestLineLow(chip: Chip, q: int, ghost req0: set<int>, ghost dir0: map<int, Direction>,
                        ghost lvl0: map<int, bool>, ghost calls0: seq<Call>, ghost done: seq<int>)
    returns (rc: int)
    requires q in chip.valid
    requires RequestedAll(chip, req0, dir0, lvl0, calls0, done)
    modifies chip
    ensures RequestedAll(chip, req0, dir0, lvl0, calls0, done + [q])
    ensures chip.exported == old(chip.exported)
  {
    rc := chip.GpioRequestOneLow(q);
    RequestOneLowCallsAppend(done, q);
    OutputsAfterAppend(dir0, done, req0, Output, q);
    OutputsAfterAppend(lvl0, done, req0, false, q);
    LinesAppend(done, q);
  }

  lemma LinesAppend(done: seq<int>, q: int)
    ensures (set x | x in done + [q]) == (set x | x in done) + {q}
  {
  }

  /** Requesting one more line: a line already held (before or by an
      earlier request) changes nothing, a free one takes `v`. */
  lemma OutputsAfterAppend<V>(m: map<int, V>, done: seq<int>, req: set<int>, v: V, q: int)
    ensures OutputsAfter(m, done + [q], req, v)
            == if q in req || q in done then OutputsAfter(m, done, req, v)
               else OutputsAfter(m, done, req, v)[q := v]
  {
    assert (done + [q])[..|done + [q]| - 1] == done;
  }

  lemma RequestOneLowCallsAppend(ps: seq<int>, q: int)
    ensures RequestOneLowCalls(ps + [q]) == RequestOneLowCalls(ps) + [RequestOneLow(q)]
  {
  }

  /** hhg_lcd_init_8_bit only logs the configured lines: it requests nothing
      and always returns false. */
  function Init8Bit(p: Params): (r: bool)
    ensures !r
  {
    false
  }

  /** hhg_lcd_send_byte: its body is a placeholder that sleeps 1 ms and
      drives no line. */
  method SendByte(chip: Chip, byte: bv8, mode: bv8)
    modifies chip
    ensures chip.calls == old(chip.calls) + [SleepMs(1)]
    ensures chip.level == old(chip.level) && chip.requested == old(chip.requested)
    ensures chip.direction == old(chip.direction) && chip.exported == old(chip.exported)
  {
    chip.Msleep(1);
  }

  /** hhg_lcd_send_command: empty body. */
  method SendCommand(chip: Chip, command: bv8)
    ensures unchanged(chip)
  {
  }

  /** hhg_lcd_send_data: empty body. */
  method SendData(chip: Chip, data: bv8)
    ensures unchanged(chip)
  {
  }

  /** hhg_lcd_send_str: empty body. */
  method SendStr(chip: Chip, str: seq<char>, len: nat)
    ensures unchanged(chip)
  {
  }

  /** The `device_busy` counter of the character device. */
  class DeviceGate {
    var busy: int

    constructor ()
      ensures busy == 0
    {
      busy := 0;
    }

    /** hhg_lcd_fops_open: refuses with -EBUSY while the counter is positive,
        otherwise takes the device. */
    method Open() returns (rc: int)
      modifies this
      ensures old(busy) > 0 ==> rc == -EBUSY && busy == old(busy)
      ensures old(busy) <= 0 ==> rc == 0 && busy == old(busy) + 1
    {
      if busy > 0 {
        return -EBUSY;
      }
      busy := busy + 1;
      rc := 0;
    }

    /** hhg_lcd_fops_release: always gives one back, matched or not. */
    method Release() returns (rc: int)
      modifies this
      ensures rc == 0 && busy == old(busy) - 1
    {
      busy := busy - 1;
      rc := 0;
    }
  }

  /** From an idle device: the first open succeeds, a second one before the
      release is refused, and after the release an open succeeds again. */
  method OpenIsExclusive(g: DeviceGate) returns (first: int, second: int, third: int)
    requires g.busy == 0
    modifies g
    ensures first == 0 && second == -EBUSY && third == 0
    ensures g.busy == 1
  {
    first := g.Open();
    second := g.Open();
    var released := g.Release();
    third := g.Open();
  }

  /** A release without a matching open drives the counter below zero, after
      which two opens in a row both succeed. */
  method UnmatchedReleaseAdmitsTwo(g: DeviceGate) returns (first: int, second: int)
    requires g.busy == 0
    modifies g
    ensures first == 0 && second == 0
    ensures g.busy == 1
  {
    var released := g.Release();
    first := g.Open();
    second := g.Open();
  }
}
