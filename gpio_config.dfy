/** Board bring-up (gpio_config.c): the thirteen lines of the garden board
    are checked, requested, configured and exported in a fixed order, and
    every line is released again when a check or a request fails.

    The driver spells each pass out as thirteen (or twelve) calls in a row;
    here each pass is one loop over the same lines in the same order, which
    makes the same calls in the same sequence. */
module GpioConfig {
  import opened Gpio

  /** The board's lines, one per HGD_*_GPIO macro. */
  datatype Line =
    | ButtonLine | LedLine
    | RelayIn1 | RelayIn2 | RelayIn3 | RelayIn4
    | LcdRs | LcdE | LcdBl | LcdD4 | LcdD5 | LcdD6 | LcdD7

  /** The line number each macro expands to. */
  datatype Board = Board(button: int, led: int, in1: int, in2: int, in3: int, in4: int,
                         rs: int, e: int, bl: int, d4: int, d5: int, d6: int, d7: int)

  function Pin(b: Board, l: Line): int
  {
    match l
    case ButtonLine => b.button
    case LedLine => b.led
    case RelayIn1 => b.in1
    case RelayIn2 => b.in2
    case RelayIn3 => b.in3
    case RelayIn4 => b.in4
    case LcdRs => b.rs
    case LcdE => b.e
    case LcdBl => b.bl
    case LcdD4 => b.d4
    case LcdD5 => b.d5
    case LcdD6 => b.d6
    case LcdD7 => b.d7
  }

  /** The order of the validity checks, of free, of unexport and of export. */
  const AllLines: seq<Line> :=
    [ButtonLine, LedLine, RelayIn1, RelayIn2, RelayIn3, RelayIn4,
     LcdRs, LcdE, LcdBl, LcdD4, LcdD5, LcdD6, LcdD7]

  /** The order of the requests: the request of relay input 2 is commented
      out, so that line is never requested. */
  const RequestLines: seq<Line> :=
    [ButtonLine, LedLine, RelayIn1, RelayIn3, RelayIn4,
     LcdRs, LcdE, LcdBl, LcdD4, LcdD5, LcdD6, LcdD7]

  /** The lines made outputs driven low on success: all but the button,
      relay input 2 included. */
  const OutputLines: seq<Line> :=
    [LedLine, RelayIn1, RelayIn2, RelayIn3, RelayIn4,
     LcdRs, LcdE, LcdBl, LcdD4, LcdD5, LcdD6, LcdD7]

  /** The line numbers of AllLines, RequestLines and OutputLines, in order. */
  function AllPins(b: Board): (ps: seq<int>)
    ensures |ps| == |AllLines|
    ensures forall i :: 0 <= i < |AllLines| ==> ps[i] == Pin(b, AllLines[i])
  {
    [b.button, b.led, b.in1, b.in2, b.in3, b.in4, b.rs, b.e, b.bl, b.d4, b.d5, b.d6, b.d7]
  }

  function RequestPins(b: Board): (ps: seq<int>)
    ensures |ps| == |RequestLines|
    ensures forall i :: 0 <= i < |RequestLines| ==> ps[i] == Pin(b, RequestLines[i])
  {
    [b.button, b.led, b.in1, b.in3, b.in4, b.rs, b.e, b.bl, b.d4, b.d5, b.d6, b.d7]
  }

  function OutputPins(b: Board): (ps: seq<int>)
    ensures |ps| == |OutputLines|
    ensures forall i :: 0 <= i < |OutputLines| ==> ps[i] == Pin(b, OutputLines[i])
  {
    [b.led, b.in1, b.in2, b.in3, b.in4, b.rs, b.e, b.bl, b.d4, b.d5, b.d6, b.d7]
  }

  /** The error kinds the bring-up reports through hgd_error_new. */
  datatype ErrorKind = GpioNotValid | GpioRequestFailed | GpioDebounce

  /** The record hgd_error_new is asked to build: a kind and a message. */
  datatype Report = Report(kind: ErrorKind, msg: string)

  /** The message each check and each request names on failure: the line's
      own macro name, except that the D4 and D5 lines are reported as
      "HGD_BUTTON_GPIO". */
  function MessageOf(l: Line): string
  {
    match l
    case ButtonLine => "HGD_BUTTON_GPIO"
    case LedLine => "HGD_LED_GPIO"
    case RelayIn1 => "HGD_RELEAY_IN1_GPIO"
    case RelayIn2 => "HGD_RELEAY_IN2_GPIO"
    case RelayIn3 => "HGD_RELEAY_IN3_GPIO"
    case RelayIn4 => "HGD_RELEAY_IN4_GPIO"
    case LcdRs => "HGD_LCD_RS_GPIO"
    case LcdE => "HGD_LCD_E_GPIO"
    case LcdBl => "HGD_LCD_BL_GPIO"
    case LcdD4 => "HGD_BUTTON_GPIO"
    case LcdD5 => "HGD_BUTTON_GPIO"
    case LcdD6 => "HGD_LCD_D6_GPIO"
    case LcdD7 => "HGD_LCD_D7_GPIO"
  }

  /** A failure of the D4 or D5 line cannot be told apart from one of the
      button line by its message. */
  lemma DataLineMessagesNameButton()
    ensures MessageOf(LcdD4) == MessageOf(ButtonLine) && MessageOf(LcdD5) == MessageOf(ButtonLine)
    ensures forall l :: l != LcdD4 && l != LcdD5 && l != ButtonLine ==> MessageOf(l) != MessageOf(ButtonLine)
  {
  }

  /** The position of the first line of `ls` whose number is not valid. */
  function FirstInvalid(valid: set<int>, b: Board, ls: seq<Line>): (r: Option<nat>)
    ensures r.Some? ==>
              r.value < |ls| && Pin(b, ls[r.value]) !in valid
              && forall j :: 0 <= j < r.value ==> Pin(b, ls[j]) in valid
    ensures r.None? <==> forall j :: 0 <= j < |ls| ==> Pin(b, ls[j]) in valid
  {
    if ls == [] then None
    else if Pin(b, ls[0]) !in valid then Some(0)
    else match FirstInvalid(valid, b, ls[1..])
      case None => None
      case Some(k) => Some(k + 1)
  }

  /** The elements of a sequence of line numbers, as a set. */
  function ToSet(ps: seq<int>): (s: set<int>)
    ensures forall x :: x in s <==> x in ps
    decreases |ps|
  {
    if ps == [] then {}
    else
      var earlier := ps[..|ps| - 1];
      assert ps == earlier + [ps[|ps| - 1]];
      ToSet(earlier) + {ps[|ps| - 1]}
  }

  lemma ToSetAppend(ps: seq<int>, i: nat)
    requires i < |ps|
    ensures ToSet(ps[..i + 1]) == ToSet(ps[..i]) + {ps[i]}
  {
    assert ps[..i + 1][..i] == ps[..i];
  }

  /** Whether the request of `ps[i]` succeeds when `ps[..i]` were requested,
      all successfully, on top of `req`. */
  predicate Grantable(valid: set<int>, req: set<int>, ps: seq<int>, i: nat)
    requires i < |ps|
  {
    ps[i] in valid && ps[i] !in req && ps[i] !in ps[..i]
  }

  /** Grantable is what the kernel's request decides once the lines before
      `ps[i]` are held. */
  lemma GrantedIff(valid: set<int>, req: set<int>, ps: seq<int>, i: nat)
    requires i < |ps|
    ensures RequestResult(valid, req + ToSet(ps[..i]), ps[i]) == 0 <==> Grantable(valid, req, ps, i)
  {
  }

  /** The position, from `i` on, of the first request that fails when the
      lines `ps` are requested in order on top of `req`, or |ps| when every
      one succeeds. */
  function FirstRefused(valid: set<int>, req: set<int>, ps: seq<int>, i: nat): (k: nat)
    requires i <= |ps|
    ensures i <= k <= |ps|
    ensures forall j :: i <= j < k ==> Grantable(valid, req, ps, j)
    ensures k < |ps| ==> !Grantable(valid, req, ps, k)
    decreases |ps| - i
  {
    if i == |ps| then i
    else if !Grantable(valid, req, ps, i) then i
    else FirstRefused(valid, req, ps, i + 1)
  }

  /** FirstRefused is the one position before which every request succeeds
      and at which one fails (or the end). */
  lemma FirstRefusedIs(valid: set<int>, req: set<int>, ps: seq<int>, k: nat)
    requires k <= |ps|
    requires forall j :: 0 <= j < k ==> Grantable(valid, req, ps, j)
    requires k < |ps| ==> !Grantable(valid, req, ps, k)
    ensures FirstRefused(valid, req, ps, 0) == k
  {
  }

  /** Every request of the sequence succeeds exactly when the lines are all
      valid, none was held before, and no line is named twice. */
  lemma AllGrantedIff(valid: set<int>, req: set<int>, ps: seq<int>)
    ensures FirstRefused(valid, req, ps, 0) == |ps| <==>
              (forall i :: 0 <= i < |ps| ==> ps[i] in valid && ps[i] !in req)
              && (forall i, j :: 0 <= i < j < |ps| ==> ps[i] != ps[j])
  {
    var k := FirstRefused(valid, req, ps, 0);
    if k == |ps| {
      forall i | 0 <= i < |ps|
        ensures ps[i] in valid && ps[i] !in req
      {
        assert Grantable(valid, req, ps, i);
      }
      forall i, j | 0 <= i < j < |ps|
        ensures ps[i] != ps[j]
      {
        assert Grantable(valid, req, ps, j);
        assert ps[i] in ps[..j];
      }
    } else {
      assert !Grantable(valid, req, ps, k);
      if ps[k] in ps[..k] {
        var i :| 0 <= i < k && ps[..k][i] == ps[k];
        assert ps[i] == ps[k];
      }
    }
  }

  /** A map after setting every line of `ps` to `v`, in order. */
  function SetAll<V>(m: map<int, V>, ps: seq<int>, v: V): map<int, V>
    decreases |ps|
  {
    if ps == [] then m else SetAll(m, ps[..|ps| - 1], v)[ps[|ps| - 1] := v]
  }

  /** What SetAll means line by line. */
  lemma {:induction false} SetAllAt<V>(m: map<int, V>, ps: seq<int>, v: V, x: int)
    ensures x in ps ==> x in SetAll(m, ps, v) && SetAll(m, ps, v)[x] == v
    ensures x !in ps ==>
              (x in SetAll(m, ps, v) <==> x in m)
              && (x in m ==> SetAll(m, ps, v)[x] == m[x])
    decreases |ps|
  {
    if ps != [] {
      var earlier := ps[..|ps| - 1];
      assert ps == earlier + [ps[|ps| - 1]];
      SetAllAt(m, earlier, v, x);
    }
  }

  /** The calls a pass over the lines makes, one per line. */
  datatype Pass = FreePass | UnexportPass | ExportPass | RequestPass | OutputLowPass

  function CallFor(pass: Pass, pin: int): Call
  {
    match pass
    case FreePass => Free(pin)
    case UnexportPass => Unexport(pin)
    case ExportPass => Export(pin)
    case RequestPass => Request(pin)
    case OutputLowPass => DirectionOut(pin, false)
  }

  function PassCalls(pass: Pass, ps: seq<int>): (cs: seq<Call>)
    ensures |cs| == |ps|
    decreases |ps|
  {
    if ps == [] then [] else PassCalls(pass, ps[..|ps| - 1]) + [CallFor(pass, ps[|ps| - 1])]
  }

  lemma PassCallsAppend(pass: Pass, ps: seq<int>, i: nat)
    requires i < |ps|
    ensures PassCalls(pass, ps[..i + 1]) == PassCalls(pass, ps[..i]) + [CallFor(pass, ps[i])]
  {
    assert ps[..i + 1][..i] == ps[..i];
  }

  /** hgd_gpio_consig_is_valid: the lines are checked in order and the first
      invalid one is reported as GpioNotValid with its message. Nothing is
      requested or changed. */
  method ConfigIsValid(chip: Chip, b: Board) returns (ok: bool, report: Option<Report>)
    ensures ok <==> FirstInvalid(chip.valid, b, AllLines).None?
    ensures ok ==> report == None
    ensures !ok ==>
              exists k :: FirstInvalid(chip.valid, b, AllLines) == Some(k)
                          && report == Some(Report(GpioNotValid, MessageOf(AllLines[k])))
  {
    var i := 0;
    while i < |AllLines|
      invariant 0 <= i <= |AllLines|
      invariant forall j :: 0 <= j < i ==> Pin(b, AllLines[j]) in chip.valid
    {
      if Pin(b, AllLines[i]) !in chip.valid {
        return false, Some(Report(GpioNotValid, MessageOf(AllLines[i])));
      }
      i := i + 1;
    }
    return true, None;
  }

  /** hgd_gpio_config_request: the twelve request lines are requested in
      order; the first refusal stops the pass and is reported as
      GpioRequestFailed with its line's message. The lines granted before it
      stay requested. */
  method ConfigRequest(chip: Chip, b: Board) returns (ok: bool, report: Option<Report>)
    modifies chip
    ensures ok <==> FirstRefused(chip.valid, old(chip.requested), RequestPins(b), 0) == |RequestLines|
    ensures ok ==> report == None && chip.calls == old(chip.calls) + PassCalls(RequestPass, RequestPins(b))
    ensures !ok ==>
              var k := FirstRefused(chip.valid, old(chip.requested), RequestPins(b), 0);
              && report == Some(Report(GpioRequestFailed, MessageOf(RequestLines[k])))
              && chip.calls == old(chip.calls) + PassCalls(RequestPass, RequestPins(b)[..k + 1])
    ensures chip.requested
            == old(chip.requested) + ToSet(RequestPins(b)[..FirstRefused(chip.valid, old(chip.requested), RequestPins(b), 0)])
    ensures chip.direction == old(chip.direction) && chip.level == old(chip.level)
    ensures chip.exported == old(chip.exported)
  {
    var k := RequestInOrder(chip, RequestPins(b));
    if k < |RequestLines| {
      return false, Some(Report(GpioRequestFailed, MessageOf(RequestLines[k])));
    }
    return true, None;
  }

  /** The HGD_REQUEST steps: gpio_request on each line of `ps` in order,
      stopping at the first refusal, whose position is returned (|ps| when
      there is none). */
  method RequestInOrder(chip: Chip, ps: seq<int>) returns (k: nat)
    modifies chip
    ensures k == FirstRefused(chip.valid, old(chip.requested), ps, 0)
    ensures k == |ps| ==> chip.calls == old(chip.calls) + PassCalls(RequestPass, ps)
    ensures k < |ps| ==> chip.calls == old(chip.calls) + PassCalls(RequestPass, ps[..k + 1])
    ensures chip.requested == old(chip.requested) + ToSet(ps[..k])
    ensures chip.direction == old(chip.direction) && chip.level == old(chip.level)
    ensures chip.exported == old(chip.exported)
  {
    ghost var req0 := chip.requested;
    k := 0;
    while k < |ps|
      invariant k <= |ps|
      invariant forall j :: 0 <= j < k ==> Grantable(chip.valid, req0, ps, j)
      invariant chip.requested == req0 + ToSet(ps[..k])
      invariant chip.calls == old(chip.calls) + PassCalls(RequestPass, ps[..k])
      invariant chip.direction == old(chip.direction) && chip.level == old(chip.level)
      invariant chip.exported == old(chip.exported)
    {
      RequestStep(chip.valid, req0, ps, k);
      var rc := chip.GpioRequest(ps[k]);
      PassCallsAppend(RequestPass, ps, k);
      if rc != 0 {
        return;
      }
      k := k + 1;
    }
    FirstRefusedIs(chip.valid, req0, ps, k);
    assert ps[..k] == ps;
  }

  /** One request of RequestInOrder: with the lines before `ps[k]` all
      granted, a grant extends the granted prefix by `ps[k]` and a refusal
      makes `k` the first refused position. */
  lemma RequestStep(valid: set<int>, req: set<int>, ps: seq<int>, k: nat)
    requires k < |ps|
    requires forall j :: 0 <= j < k ==> Grantable(valid, req, ps, j)
    ensures RequestResult(valid, req + ToSet(ps[..k]), ps[k]) == 0 ==>
              (forall j :: 0 <= j < k + 1 ==> Grantable(valid, req, ps, j))
              && req + ToSet(ps[..k]) + {ps[k]} == req + ToSet(ps[..k + 1])
    ensures RequestResult(valid, req + ToSet(ps[..k]), ps[k]) != 0 ==>
              FirstRefused(valid, req, ps, 0) == k
  {
    GrantedIff(valid, req, ps, k);
    ToSetAppend(ps, k);
    if RequestResult(valid, req + ToSet(ps[..k]), ps[k]) != 0 {
      FirstRefusedIs(valid, req, ps, k);
    }
  }

  /** One pass of gpio_free over all thirteen lines, in order. */
  method ConfigFree(chip: Chip, b: Board)
    modifies chip
    ensures chip.requested == old(chip.requested) - ToSet(AllPins(b))
    ensures chip.calls == old(chip.calls) + PassCalls(FreePass, AllPins(b))
    ensures chip.direction == old(chip.direction) && chip.level == old(chip.level)
    ensures chip.exported == old(chip.exported)
  {
    var ps := AllPins(b);
    var i := 0;
    while i < |ps|
      invariant 0 <= i <= |ps|
      invariant chip.requested == old(chip.requested) - ToSet(ps[..i])
      invariant chip.calls == old(chip.calls) + PassCalls(FreePass, ps[..i])
      invariant chip.direction == old(chip.direction) && chip.level == old(chip.level)
      invariant chip.exported == old(chip.exported)
    {
      chip.GpioFree(ps[i]);
      PassCallsAppend(FreePass, ps, i);
      ToSetAppend(ps, i);
      i := i + 1;
    }
    assert ps[..i] == ps;
  }

  /** hgd_gpio_config_unexport: one pass of gpio_unexport over the same
      thirteen lines that ConfigFree releases. */
  method ConfigUnexport(chip: Chip, b: Board)
    modifies chip
    ensures chip.exported == old(chip.exported) - ToSet(AllPins(b))
    ensures chip.calls == old(chip.calls) + PassCalls(UnexportPass, AllPins(b))
    ensures chip.direction == old(chip.direction) && chip.level == old(chip.level)
    ensures chip.requested == old(chip.requested)
  {
    var ps := AllPins(b);
    var i := 0;
    while i < |ps|
      invariant 0 <= i <= |ps|
      invariant chip.exported == old(chip.exported) - ToSet(ps[..i])
      invariant chip.calls == old(chip.calls) + PassCalls(UnexportPass, ps[..i])
      invariant chip.direction == old(chip.direction) && chip.level == old(chip.level)
      invariant chip.requested == old(chip.requested)
    {
      chip.GpioUnexport(ps[i]);
      PassCallsAppend(UnexportPass, ps, i);
      ToSetAppend(ps, i);
      i := i + 1;
    }
    assert ps[..i] == ps;
  }

  /** The run of gpio_direction_output(line, 0) calls of the bring-up. */
  method DriveOutputsLow(chip: Chip, ps: seq<int>)
    modifies chip
    ensures chip.direction == SetAll(old(chip.direction), ps, Output)
    ensures chip.level == SetAll(old(chip.level), ps, false)
    ensures chip.calls == old(chip.calls) + PassCalls(OutputLowPass, ps)
    ensures chip.requested == old(chip.requested) && chip.exported == old(chip.exported)
  {
    var i := 0;
    while i < |ps|
      invariant 0 <= i <= |ps|
      invariant chip.direction == SetAll(old(chip.direction), ps[..i], Output)
      invariant chip.level == SetAll(old(chip.level), ps[..i], false)
      invariant chip.calls == old(chip.calls) + PassCalls(OutputLowPass, ps[..i])
      invariant chip.requested == old(chip.requested) && chip.exported == old(chip.exported)
    {
      chip.GpioDirectionOutput(ps[i], false);
      PassCallsAppend(OutputLowPass, ps, i);
      assert ps[..i + 1][..i] == ps[..i];
      i := i + 1;
    }
    assert ps[..i] == ps;
  }

  /** The run of gpio_export calls of the bring-up. */
  method ExportAll(chip: Chip, ps: seq<int>)
    modifies chip
    ensures chip.exported == old(chip.exported) + ToSet(ps)
    ensures chip.calls == old(chip.calls) + PassCalls(ExportPass, ps)
    ensures chip.requested == old(chip.requested)
    ensures chip.direction == old(chip.direction) && chip.level == old(chip.level)
  {
    var i := 0;
    while i < |ps|
      invariant 0 <= i <= |ps|
      invariant chip.exported == old(chip.exported) + ToSet(ps[..i])
      invariant chip.calls == old(chip.calls) + PassCalls(ExportPass, ps[..i])
      invariant chip.requested == old(chip.requested)
      invariant chip.direction == old(chip.direction) && chip.level == old(chip.level)
    {
      chip.GpioExport(ps[i]);
      PassCallsAppend(ExportPass, ps, i);
      ToSetAppend(ps, i);
      i := i + 1;
    }
    assert ps[..i] == ps;
  }

  /** The debounce interval the bring-up asks for, in milliseconds. */
  const DebounceMs: nat := 200

  /** The calls of the bring-up between the requests and the outputs pass:
      the button made an input, then the debounce when it is built in. */
  function ButtonSetupCalls(b: Board, enDebounce: bool): (cs: seq<Call>)
    ensures |cs| == if enDebounce then 2 else 1
    ensures cs[0] == DirectionIn(b.button)
    ensures enDebounce ==> cs[1] == SetDebounce(b.button, DebounceMs)
  {
    [DirectionIn(b.button)] + if enDebounce then [SetDebounce(b.button, DebounceMs)] else []
  }

  /** hgd_gpio_config_init. `enDebounce` says whether the driver is built
      with EN_DEBOUNCE, and `debounceOutcome` is what gpio_set_debounce
      returns. A failed check or request frees all thirteen lines (even when
      nothing was requested yet) and returns false with the report of the
      failure; a debounce failure returns false without freeing; otherwise
      the button becomes an input, the twelve other lines outputs driven low,
      all thirteen are exported and the result is true. */
  method ConfigInit(chip: Chip, b: Board, enDebounce: bool, debounceOutcome: int)
    returns (ok: bool, report: Option<Report>)
    modifies chip
    ensures var valid := FirstInvalid(chip.valid, b, AllLines).None?;
            var granted := FirstRefused(chip.valid, old(chip.requested), RequestPins(b), 0)
                           == |RequestLines|;
            var debounced := !enDebounce || debounceOutcome >= 0;
            && (ok <==> valid && granted && debounced)
            && (!valid ==> report.Some? && report.value.kind == GpioNotValid)
            && (valid && !granted ==> report.Some? && report.value.kind == GpioRequestFailed)
            && (valid && granted && !debounced ==>
                  report == Some(Report(GpioDebounce, "Imppossible init debouce"))
                  && chip.requested == old(chip.requested) + ToSet(RequestPins(b)))
            && (!valid || !granted ==>
                  chip.requested == old(chip.requested) - ToSet(AllPins(b))
                  && chip.exported == old(chip.exported))
            && (ok ==>
                  report == None
                  && chip.requested == old(chip.requested) + ToSet(RequestPins(b))
                  && chip.exported == old(chip.exported) + ToSet(AllPins(b))
                  && chip.direction
                     == SetAll(old(chip.direction)[b.button := Input], OutputPins(b), Output)
                  && chip.level == SetAll(old(chip.level), OutputPins(b), false))
    ensures var k := FirstRefused(chip.valid, old(chip.requested), RequestPins(b), 0);
            && (FirstInvalid(chip.valid, b, AllLines).Some? ==>
                  chip.calls == old(chip.calls) + PassCalls(FreePass, AllPins(b)))
            && (FirstInvalid(chip.valid, b, AllLines).None? && k < |RequestLines| ==>
                  chip.calls == old(chip.calls) + PassCalls(RequestPass, RequestPins(b)[..k + 1])
                                + PassCalls(FreePass, AllPins(b)))
            && (FirstInvalid(chip.valid, b, AllLines).Some? || k < |RequestLines| ==>
                  chip.direction == old(chip.direction) && chip.level == old(chip.level))
    ensures report == Some(Report(GpioDebounce, "Imppossible init debouce")) ==>
              chip.calls == old(chip.calls) + PassCalls(RequestPass, RequestPins(b))
                            + ButtonSetupCalls(b, true)
              && chip.direction == old(chip.direction)[b.button := Input]
              && chip.level == old(chip.level) && chip.exported == old(chip.exported)
    ensures ok ==>
              chip.calls == old(chip.calls) + PassCalls(RequestPass, RequestPins(b))
                            + ButtonSetupCalls(b, enDebounce)
                            + PassCalls(OutputLowPass, OutputPins(b)) + PassCalls(ExportPass, AllPins(b))
  {
    var valid, validReport := ConfigIsValid(chip, b);
    if !valid {
      ConfigFree(chip, b);
      return false, validReport;
    }
    var granted, requestReport := ConfigRequest(chip, b);
    if !granted {
      ConfigFree(chip, b);
      RequestedAmongAll(old(chip.requested), b, FirstRefused(chip.valid, old(chip.requested), RequestPins(b), 0));
      return false, requestReport;
    }
    ok, report := ConfigureLines(chip, b, enDebounce, debounceOutcome);
  }

  /** The part of hgd_gpio_config_init after the requests: the button made an
      input, the debounce when it is built in (a failure stops here), then
      the outputs pass and the exports. */
  method ConfigureLines(chip: Chip, b: Board, enDebounce: bool, debounceOutcome: int)
    returns (ok: bool, report: Option<Report>)
    modifies chip
    ensures ok <==> !enDebounce || debounceOutcome >= 0
    ensures chip.requested == old(chip.requested)
    ensures !ok ==>
              report == Some(Report(GpioDebounce, "Imppossible init debouce"))
              && chip.calls == old(chip.calls) + ButtonSetupCalls(b, true)
              && chip.direction == old(chip.direction)[b.button := Input]
              && chip.level == old(chip.level) && chip.exported == old(chip.exported)
    ensures ok ==>
              report == None
              && chip.calls == old(chip.calls) + ButtonSetupCalls(b, enDebounce)
                               + PassCalls(OutputLowPass, OutputPins(b)) + PassCalls(ExportPass, AllPins(b))
              && chip.exported == old(chip.exported) + ToSet(AllPins(b))
              && chip.direction == SetAll(old(chip.direction)[b.button := Input], OutputPins(b), Output)
              && chip.level == SetAll(old(chip.level), OutputPins(b), false)
  {
    chip.GpioDirectionInput(b.button);
    if enDebounce {
      var rc := chip.GpioSetDebounce(b.button, DebounceMs, debounceOutcome);
      if rc < 0 {
        return false, Some(Report(GpioDebounce, "Imppossible init debouce"));
      }
    }
    ghost var setup := chip.calls;
    assert setup == old(chip.calls) + ButtonSetupCalls(b, enDebounce);
    DriveOutputsLow(chip, OutputPins(b));
    ExportAll(chip, AllPins(b));
    return true, None;
  }

  /** Freeing all thirteen lines undoes any prefix of the requests. */
  lemma RequestedAmongAll(req: set<int>, b: Board, k: nat)
    requires k <= |RequestLines|
    ensures (req + ToSet(RequestPins(b)[..k])) - ToSet(AllPins(b)) == req - ToSet(AllPins(b))
  {
    assert forall x :: x in RequestPins(b)[..k] ==> x in AllPins(b);
  }

  /** After a successful bring-up every output line is an output driven
      low. */
  lemma OutputLinesLow(b: Board, dir0: map<int, Direction>, lvl0: map<int, bool>)
    ensures forall l :: l in OutputLines ==>
              var dir := SetAll(dir0[b.button := Input], OutputPins(b), Output);
              var lvl := SetAll(lvl0, OutputPins(b), false);
              Pin(b, l) in dir && dir[Pin(b, l)] == Output && Pin(b, l) in lvl && !lvl[Pin(b, l)]
  {
    var outs := OutputPins(b);
    var dir := SetAll(dir0[b.button := Input], outs, Output);
    forall l | l in OutputLines
      ensures Pin(b, l) in dir && dir[Pin(b, l)] == Output
      ensures Pin(b, l) in SetAll(lvl0, outs, false) && !SetAll(lvl0, outs, false)[Pin(b, l)]
    {
      var i :| 0 <= i < |OutputLines| && OutputLines[i] == l;
      assert outs[i] == Pin(b, l);
      SetAllAt(dir0[b.button := Input], outs, Output, Pin(b, l));
      SetAllAt(lvl0, outs, false, Pin(b, l));
    }
  }

  /** After a successful bring-up the button is an input unless relay input
      2, the one line that is never requested, shares its number (the other
      lines were all granted, so none of them can). */
  lemma ButtonStaysInput(valid: set<int>, req: set<int>, b: Board, dir0: map<int, Direction>)
    requires FirstRefused(valid, req, RequestPins(b), 0) == |RequestLines|
    ensures var dir := SetAll(dir0[b.button := Input], OutputPins(b), Output);
            b.button in dir && (dir[b.button] == Input <==> b.button != b.in2)
  {
    var outs := OutputPins(b);
    AllGrantedIff(valid, req, RequestPins(b));
    var rs := RequestPins(b);
    assert b.button == rs[0];
    assert outs == rs[1..3] + [b.in2] + rs[3..];
    SetAllAt(dir0[b.button := Input], outs, Output, b.button);
    if b.button != b.in2 {
      assert b.button !in outs by {
        forall j | 1 <= j < |rs|
          ensures rs[j] != b.button
        {
          assert rs[0] != rs[j];
        }
      }
    } else {
      assert b.button in outs by {
        assert outs[2] == b.in2;
      }
    }
  }
}
