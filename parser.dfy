/** The command parser (parser.c): a line "<TARGET> <VALUE>" written to the
    device is split into two tokens, and the first token selects what the
    record filled in for the caller says. */
module Parser {
  import opened Gpio
  import opened CString

  /** HDG_PARSER_BUF_MAX, the size of the record's text buffer. */
  const BufMax: nat := 48

  /** hgd_type_t as the parser sets it; Zero is the value the initial
      memset leaves. */
  datatype Target = Zero | Led | Button | Lcd | Relay1 | Relay2 | Relay3 | Relay4

  /** HDG_PARSER_MAX (the size of each token array) and the target names the
      first token is compared with. Both come from a header that is not part
      of this model. */
  datatype Names = Names(max: nat, led: string, button: string, lcd: string,
                         relay1: string, relay2: string, relay3: string, relay4: string)

  /** The outcome of the scan: a token too long for its array, or the two
      tokens and the position `after` where the text after the first token
      and the spaces that follow it begins. */
  datatype Scan = Overflow | Tokens(arg0: seq<char>, arg1: seq<char>, after: nat)

  /** The first space at or after `i`, or |s|. */
  function FirstSpace(s: seq<char>, i: nat): (k: nat)
    requires i <= |s|
    ensures i <= k <= |s|
    ensures forall j :: i <= j < k ==> s[j] != ' '
    ensures k < |s| ==> s[k] == ' '
    decreases |s| - i
  {
    if i == |s| || s[i] == ' ' then i else FirstSpace(s, i + 1)
  }

  /** The first character other than a space at or after `i`, or |s|. */
  function FirstNonSpace(s: seq<char>, i: nat): (k: nat)
    requires i <= |s|
    ensures i <= k <= |s|
    ensures forall j :: i <= j < k ==> s[j] == ' '
    ensures k < |s| ==> s[k] != ' '
    decreases |s| - i
  {
    if i == |s| || s[i] != ' ' then i else FirstNonSpace(s, i + 1)
  }

  /** The tokens of a line: the first token runs up to the first space, the
      second starts after the spaces that follow and runs up to the next
      space (or the end). A token longer than `max` is an overflow. */
  function TokensOf(s: seq<char>, max: nat): Scan
  {
    var f := FirstSpace(s, 0);
    var g := FirstNonSpace(s, f);
    var h := FirstSpace(s, g);
    if f > max || h - g > max then Overflow else Tokens(s[..f], s[g..h], g)
  }

  /** The shape of every scan that succeeds: neither token holds a space or
      exceeds `max`; the first token starts the line, only spaces separate
      it from the second, and the second begins at `after`. */
  lemma TokensOfShape(s: seq<char>, max: nat)
    ensures var r := TokensOf(s, max);
            r.Tokens? ==>
              && |r.arg0| <= max && |r.arg1| <= max
              && (forall j :: 0 <= j < |r.arg0| ==> r.arg0[j] != ' ')
              && (forall j :: 0 <= j < |r.arg1| ==> r.arg1[j] != ' ')
              && |r.arg0| <= r.after <= |s| && r.arg0 == s[..|r.arg0|]
              && (forall j :: |r.arg0| <= j < r.after ==> s[j] == ' ')
              && r.after + |r.arg1| <= |s| && r.arg1 == s[r.after..r.after + |r.arg1|]
              && (r.arg1 == [] ==> r.after == |s|)
  {
    var f := FirstSpace(s, 0);
    var g := FirstNonSpace(s, f);
  }

  lemma FirstSpaceIs(s: seq<char>, i: nat, k: nat)
    requires i <= k <= |s|
    requires forall j :: i <= j < k ==> s[j] != ' '
    requires k < |s| ==> s[k] == ' '
    ensures FirstSpace(s, i) == k
  {
  }

  lemma FirstNonSpaceIs(s: seq<char>, i: nat, k: nat)
    requires i <= k <= |s|
    requires forall j :: i <= j < k ==> s[j] == ' '
    requires k < |s| ==> s[k] != ' '
    ensures FirstNonSpace(s, i) == k
  {
  }

  predicate SpaceFree(t: seq<char>)
  {
    forall j :: 0 <= j < |t| ==> t[j] != ' '
  }

  /** Scanning a line made of two tokens that fit, separated by one space and
      followed by nothing or by a space and anything, gives back the two
      tokens, and the text after the first token starts at the second. */
  lemma ScanFormatted(t0: seq<char>, t1: seq<char>, rest: seq<char>, max: nat)
    requires SpaceFree(t0) && SpaceFree(t1) && t1 != []
    requires |t0| <= max && |t1| <= max
    requires rest == [] || rest[0] == ' '
    ensures TokensOf(t0 + [' '] + t1 + rest, max) == Tokens(t0, t1, |t0| + 1)
  {
    var s := t0 + [' '] + t1 + rest;
    var f := |t0|;
    var g := f + 1;
    var h := g + |t1|;
    FirstSpaceIs(s, 0, f);
    FirstNonSpaceIs(s, f, g);
    FirstSpaceIs(s, g, h);
    assert s[..f] == t0;
    assert s[g..h] == t1;
  }

  /** The record the parser fills in (hgd_parser_t). */
  datatype Parsed = Parsed(kind: Target, buff: seq<char>, status: int)

  /** The record as the memset leaves it. */
  function Cleared(): (p: Parsed)
    ensures p.kind == Zero && p.status == 0 && |p.buff| == BufMax && Text(p.buff) == []
  {
    Parsed(Zero, Zeros(BufMax), 0)
  }

  datatype Outcome = Outcome(ok: bool, parsed: Parsed)

  /** HGD_STD_FILL_PARSER: the kind is set first; a conversion result of
      -ERANGE or -EINVAL then fails, any other is stored truncated to the
      8-bit status. */
  function Fill(kind: Target, converted: int): (r: Outcome)
    ensures r.parsed.kind == kind && r.parsed.buff == Zeros(BufMax)
    ensures r.ok <==> converted != -ERANGE && converted != -EINVAL
    ensures r.ok ==> 0 <= r.parsed.status < 256 && (r.parsed.status - converted) % 256 == 0
    ensures !r.ok ==> r.parsed.status == 0
  {
    if converted == -ERANGE || converted == -EINVAL then Outcome(false, Parsed(kind, Zeros(BufMax), 0))
    else Outcome(true, Parsed(kind, Zeros(BufMax), converted % 256))
  }

  /** The record's buffer after strncpy(buff, text, strlen(text)) on a
      cleared record: the text, then the NULs left by the memset. A text
      longer than the buffer is kept whole, where C writes past its end. */
  function LcdBuff(text: seq<char>): (b: seq<char>)
    ensures |b| >= BufMax && |b| >= |text| && b[..|text|] == text
    ensures |text| <= BufMax ==> b == text + Zeros(BufMax - |text|)
  {
    if |text| <= BufMax then text + Zeros(BufMax - |text|) else text
  }

  /** The target dispatch: the first token is compared with LED, BUTTON,
      LCD and RELAY_1..4 in that order (as strncmp over HDG_PARSER_MAX
      characters); `text` is the string that starts after the first token and
      its spaces, and `kstrtol` the kernel's conversion of the second token. */
  function Dispatch(names: Names, arg0: seq<char>, arg1: seq<char>, text: seq<char>,
                    kstrtol: seq<char> -> int): (r: Outcome)
    ensures StrnEq(arg0, names.led, names.max) ==> r == Fill(Led, kstrtol(Text(arg1)))
    ensures !StrnEq(arg0, names.led, names.max) && StrnEq(arg0, names.button, names.max) ==>
              r == Fill(Button, kstrtol(Text(arg1)))
    ensures var n := names.max;
            !StrnEq(arg0, names.led, n) && !StrnEq(arg0, names.button, n) ==>
              && (StrnEq(arg0, names.lcd, n) ==>
                    r.ok && r.parsed.kind == Lcd && r.parsed.status == 0 && r.parsed.buff == LcdBuff(Text(text)))
              && (!StrnEq(arg0, names.lcd, n) && StrnEq(arg0, names.relay1, n) ==>
                    r == Fill(Relay1, kstrtol(Text(arg1))))
              && (!StrnEq(arg0, names.lcd, n) && !StrnEq(arg0, names.relay1, n)
                  && StrnEq(arg0, names.relay2, n) ==>
                    r == Fill(Relay2, kstrtol(Text(arg1))))
              && (!StrnEq(arg0, names.lcd, n) && !StrnEq(arg0, names.relay1, n)
                  && !StrnEq(arg0, names.relay2, n) && StrnEq(arg0, names.relay3, n) ==>
                    r == Fill(Relay3, kstrtol(Text(arg1))))
              && (!StrnEq(arg0, names.lcd, n) && !StrnEq(arg0, names.relay1, n)
                  && !StrnEq(arg0, names.relay2, n) && !StrnEq(arg0, names.relay3, n)
                  && StrnEq(arg0, names.relay4, n) ==>
                    r == Fill(Relay4, kstrtol(Text(arg1))))
              && (!StrnEq(arg0, names.lcd, n) && !StrnEq(arg0, names.relay1, n)
                  && !StrnEq(arg0, names.relay2, n) && !StrnEq(arg0, names.relay3, n)
                  && !StrnEq(arg0, names.relay4, n) ==>
                    r == Outcome(false, Cleared()))
    ensures r.parsed.kind == Lcd ==> r.ok && r.parsed.status == 0 && r.parsed.buff == LcdBuff(Text(text))
    ensures r.ok && r.parsed.kind != Lcd ==> 0 <= r.parsed.status < 256
  {
    var n := names.max;
    if StrnEq(arg0, names.led, n) then Fill(Led, kstrtol(Text(arg1)))
    else if StrnEq(arg0, names.button, n) then Fill(Button, kstrtol(Text(arg1)))
    else if StrnEq(arg0, names.lcd, n) then Outcome(true, Parsed(Lcd, LcdBuff(Text(text)), 0))
    else if StrnEq(arg0, names.relay1, n) then Fill(Relay1, kstrtol(Text(arg1)))
    else if StrnEq(arg0, names.relay2, n) then Fill(Relay2, kstrtol(Text(arg1)))
    else if StrnEq(arg0, names.relay3, n) then Fill(Relay3, kstrtol(Text(arg1)))
    else if StrnEq(arg0, names.relay4, n) then Fill(Relay4, kstrtol(Text(arg1)))
    else Outcome(false, Cleared())
  }

  /** Where the scan of a NUL-free line `s` stands after `i` characters:
      phase 0 reads the first token, phase 1 the spaces after it, phase 2
      the second token. */
  ghost predicate ScanAt(s: seq<char>, max: nat, i: nat, phase: nat, args0: seq<char>,
                         args1: seq<char>, count: nat, after: nat)
    requires i <= |s|
  {
    var f := FirstSpace(s, 0);
    var g := FirstNonSpace(s, f);
    var h := FirstSpace(s, g);
    && (phase == 0 ==> i <= f && args0 == s[..i] && count == i && after == i && args1 == [])
    && (phase == 1 ==> f <= max && f < i <= g && args0 == s[..f] && after == i && count == 0 && args1 == [])
    && (phase == 2 ==>
          f <= max && args0 == s[..f] && g < i <= h && args1 == s[g..i] && count == i - g && after == g)
    && phase <= 2
  }

  /** A space ends the first token or extends the gap after it. */
  lemma ScanSpace(s: seq<char>, max: nat, i: nat, phase: nat, args0: seq<char>,
                  args1: seq<char>, count: nat, after: nat)
    requires i < |s| && s[i] == ' ' && phase < 2 && count <= max
    requires ScanAt(s, max, i, phase, args0, args1, count, after)
    ensures ScanAt(s, max, i + 1, 1, args0, args1, 0, after + 1)
  {
  }

  /** A character other than a space extends the token being read. */
  lemma ScanChar(s: seq<char>, max: nat, i: nat, phase: nat, args0: seq<char>,
                 args1: seq<char>, count: nat, after: nat)
    requires i < |s| && s[i] != ' ' && count < max
    requires ScanAt(s, max, i, phase, args0, args1, count, after)
    ensures phase == 0 ==> ScanAt(s, max, i + 1, 0, args0 + [s[i]], args1, count + 1, after + 1)
    ensures phase > 0 ==> ScanAt(s, max, i + 1, 2, args0, args1 + [s[i]], count + 1, after)
  {
    if phase == 0 {
      assert s[..i + 1] == args0 + [s[i]];
    } else if phase == 2 {
      assert s[FirstNonSpace(s, FirstSpace(s, 0))..i + 1] == args1 + [s[i]];
    }
  }

  /** A token about to outgrow its array means TokensOf overflows. */
  lemma ScanOverflow(s: seq<char>, max: nat, i: nat, phase: nat, args0: seq<char>,
                     args1: seq<char>, count: nat, after: nat)
    requires i < |s| && s[i] != ' ' && count >= max
    requires ScanAt(s, max, i, phase, args0, args1, count, after)
    ensures TokensOf(s, max) == Overflow
  {
  }

  /** The scan stops, at the end of the line or at the space after the second
      token, with the tokens TokensOf gives. */
  lemma ScanDone(s: seq<char>, max: nat, i: nat, phase: nat, args0: seq<char>,
                 args1: seq<char>, count: nat, after: nat)
    requires i <= |s| && count <= max
    requires i == |s| || (phase == 2 && s[i] == ' ')
    requires ScanAt(s, max, i, phase, args0, args1, count, after)
    ensures TokensOf(s, max) == Tokens(args0, args1, after)
  {
  }

  /** The scanning loop of hgd_parser_params over the first `len`
      characters of `buf`, with an index as wide as `len` (the loop as
      written uses a `__u8` index; see LoopSteps). `count` is
      no_buffer_overflow, `check` is true while the first token is being
      read, `after` is ptr_after_arg0. On a line without NUL characters the
      result is TokensOf. */
  method Tokenize(buf: seq<char>, len: nat, max: nat) returns (r: Scan)
    requires len <= |buf|
    ensures r.Tokens? ==> |r.arg0| <= max && r.after <= len
    ensures NulFree(buf[..len]) ==> r == TokensOf(buf[..len], max)
  {
    ghost var s := buf[..len];
    var args0: seq<char> := [];
    var args1: seq<char> := [];
    var count := 0;
    var check := true;
    var after := 0;
    var i := 0;
    ghost var phase := 0;
    while i < len
      invariant 0 <= i <= len && 0 <= count <= max && after <= i
      invariant check ==> count == |args0|
      invariant |args0| <= max
      invariant NulFree(s) ==>
                  (check <==> phase == 0) && (args1 == [] <==> phase < 2)
                  && ScanAt(s, max, i, phase, args0, args1, count, after)
    {
      if buf[i] == ' ' {
        if !check && StrLen(args1) > 0 {
          if NulFree(s) {
            ScanDone(s, max, i, phase, args0, args1, count, after);
          }
          break;
        }
        if NulFree(s) {
          ScanSpace(s, max, i, phase, args0, args1, count, after);
        }
        count := 0;
        check := false;
        after := after + 1;
        phase := 1;
      } else {
        if count >= max {
          if NulFree(s) {
            ScanOverflow(s, max, i, phase, args0, args1, count, after);
          }
          return Overflow;
        }
        if NulFree(s) {
          ScanChar(s, max, i, phase, args0, args1, count, after);
        }
        if check {
          args0 := args0 + [buf[i]];
          after := after + 1;
          count := count + 1;
        } else {
          args1 := args1 + [buf[i]];
          count := count + 1;
          phase := 2;
        }
      }
      i := i + 1;
    }
    if i == len && NulFree(s) {
      ScanDone(s, max, i, phase, args0, args1, count, after);
    }
    return Tokens(args0, args1, after);
  }

  /** A C `__u8`, the type of the loop's index and of no_buffer_overflow. */
  type U8 = x: int | 0 <= x < 256

  /** The variables of the scanning loop as written: the `__u8` index `i`,
      then check, the `__u8` no_buffer_overflow, the two token arrays and
      ptr_after_arg0. */
  datatype Iter = Iter(i: U8, check: bool, count: U8, args0: seq<char>, args1: seq<char>, after: nat)

  /** What one pass of the loop body leaves: the next values of the
      variables, or the end of the scan. */
  datatype Next = Goes(it: Iter) | Ends(r: Scan)

  /** The loop's initial values. */
  const LoopStart: Iter := Iter(0, true, 0, [], [], 0)

  /** One test of `i < len` and, when it holds, one pass of the body as
      written: the index and the counter are `__u8`s, so `i++` and
      `no_buffer_overflow++` wrap from 255 to 0. */
  function LoopStep(buf: seq<char>, len: nat, max: nat, it: Iter): (n: Next)
    requires len <= |buf|
    ensures n.Goes? ==> n.it.i == (it.i + 1) % 256 && it.i < len
    ensures n == Ends(Overflow) ==> it.i < len && buf[it.i] != ' ' && max <= it.count
  {
    var i := it.i;
    if i >= len then Ends(Tokens(it.args0, it.args1, it.after))
    else if buf[i] == ' ' then
      if !it.check && StrLen(it.args1) > 0 then Ends(Tokens(it.args0, it.args1, it.after))
      else Goes(Iter((i + 1) % 256, false, 0, it.args0, it.args1, it.after + 1))
    else if it.count >= max then Ends(Overflow)
    else if it.check then
      Goes(Iter((i + 1) % 256, true, (it.count + 1) % 256, it.args0 + [buf[i]], it.args1, it.after + 1))
    else
      Goes(Iter((i + 1) % 256, false, (it.count + 1) % 256, it.args0, it.args1 + [buf[i]], it.after))
  }

  /** `n` passes of the loop as written from `it`, stopping where it ends. */
  function LoopSteps(buf: seq<char>, len: nat, max: nat, it: Iter, n: nat): Next
    requires len <= |buf|
    decreases n
  {
    if n == 0 then Goes(it)
    else match LoopStep(buf, len, max, it)
      case Ends(r) => Ends(r)
      case Goes(next) => LoopSteps(buf, len, max, next, n - 1)
  }

  /** Over a run of spaces after the first one, with the second token still
      empty, every pass goes on: the index moves forward modulo 256 and
      nothing else that could end the loop changes. */
  lemma {:induction false} SpacesKeepGoing(buf: seq<char>, len: nat, max: nat, it: Iter, n: nat)
    requires 256 <= len <= |buf|
    requires forall j :: 0 <= j < 256 ==> buf[j] == ' '
    requires !it.check && it.count == 0 && it.args1 == []
    ensures LoopSteps(buf, len, max, it, n)
            == Goes(Iter((it.i + n) % 256, false, 0, it.args0, [], it.after + n))
    decreases n
  {
    if n > 0 {
      var next := Iter((it.i + 1) % 256, false, 0, it.args0, [], it.after + 1);
      assert buf[it.i] == ' ';
      assert LoopStep(buf, len, max, it) == Goes(next);
      SpacesKeepGoing(buf, len, max, next, n - 1);
      WrapShift(it.i, n);
    }
  }

  /** Moving the index one step and then n - 1 more is moving it n steps,
      modulo 256. */
  lemma WrapShift(i: nat, n: nat)
    requires i < 256 && n > 0
    ensures ((i + 1) % 256 + (n - 1)) % 256 == (i + n) % 256
  {
    if i == 255 {
      assert (i + 1) % 256 == 0;
      assert (n - 1) % 256 == (255 + n) % 256;
    }
  }

  /** The loop as written never ends on a line of 256 or more characters
      that starts with 256 spaces: the index wraps back before it reaches
      `len`, and the second token stays empty, so nothing breaks out. */
  lemma BlankLineNeverEnds(buf: seq<char>, len: nat, max: nat, n: nat)
    requires 256 <= len <= |buf|
    requires forall j :: 0 <= j < 256 ==> buf[j] == ' '
    ensures LoopSteps(buf, len, max, LoopStart, n).Goes?
  {
    if n > 0 {
      var first := Iter(1, false, 0, [], [], 1);
      assert LoopStep(buf, len, max, LoopStart) == Goes(first);
      SpacesKeepGoing(buf, len, max, first, n - 1);
    }
  }

  /** With HDG_PARSER_MAX at 256 or more the loop as written never reports
      an overflow: its `__u8` counter wraps to 0 before it reaches the
      bound, so the tokens are written past their arrays instead. */
  lemma {:induction false} WideMaxNeverOverflows(buf: seq<char>, len: nat, max: nat, it: Iter, n: nat)
    requires len <= |buf| && 256 <= max
    ensures LoopSteps(buf, len, max, it, n) != Ends(Overflow)
    decreases n
  {
    if n > 0 && LoopStep(buf, len, max, it).Goes? {
      WideMaxNeverOverflows(buf, len, max, LoopStep(buf, len, max, it).it, n - 1);
    }
  }

  /** Where the loop as written agrees with the scan of a NUL-free line
      shorter than 256 characters: its variables are those ScanAt describes
      for the same number of characters. */
  ghost predicate LoopAgrees(buf: seq<char>, len: nat, max: nat, it: Iter, phase: nat)
  {
    && len <= |buf| && len < 256 && it.i <= len && NulFree(buf[..len])
    && it.count <= max && (it.check <==> phase == 0) && (it.args1 == [] <==> phase < 2)
    && ScanAt(buf[..len], max, it.i, phase, it.args0, it.args1, it.count, it.after)
  }

  /** A space that does not end the scan: the pass goes on in phase 1. */
  lemma StepSpaceFollows(buf: seq<char>, len: nat, max: nat, it: Iter, phase: nat)
    requires LoopAgrees(buf, len, max, it, phase)
    requires it.i < len && buf[it.i] == ' ' && !(!it.check && StrLen(it.args1) > 0)
    ensures LoopStep(buf, len, max, it) == Goes(Iter(it.i + 1, false, 0, it.args0, it.args1, it.after + 1))
    ensures LoopAgrees(buf, len, max, Iter(it.i + 1, false, 0, it.args0, it.args1, it.after + 1), 1)
  {
    var s := buf[..len];
    assert s[it.i] == ' ';
    ScanSpace(s, max, it.i, phase, it.args0, it.args1, it.count, it.after);
  }

  /** A character other than a space, with room left in its token: the pass
      goes on, adding it to the token being read. */
  lemma StepCharFollows(buf: seq<char>, len: nat, max: nat, it: Iter, phase: nat) returns (next: nat)
    requires LoopAgrees(buf, len, max, it, phase)
    requires it.i < len && buf[it.i] != ' ' && it.count < max
    ensures LoopStep(buf, len, max, it).Goes?
    ensures LoopStep(buf, len, max, it).it.i == it.i + 1
    ensures LoopAgrees(buf, len, max, LoopStep(buf, len, max, it).it, next)
  {
    var s := buf[..len];
    assert s[it.i] == buf[it.i];
    ScanChar(s, max, it.i, phase, it.args0, it.args1, it.count, it.after);
    next := if it.check then 0 else 2;
  }

  /** One pass of the loop as written either ends with the tokens of
      TokensOf, or goes on to the next character still agreeing with the
      scan, in the phase `next`. */
  lemma StepFollowsScan(buf: seq<char>, len: nat, max: nat, it: Iter, phase: nat) returns (next: nat)
    requires LoopAgrees(buf, len, max, it, phase)
    ensures LoopStep(buf, len, max, it).Ends? ==> LoopStep(buf, len, max, it).r == TokensOf(buf[..len], max)
    ensures LoopStep(buf, len, max, it).Goes? ==>
              LoopStep(buf, len, max, it).it.i == it.i + 1
              && LoopAgrees(buf, len, max, LoopStep(buf, len, max, it).it, next)
  {
    var s := buf[..len];
    var i := it.i;
    next := phase;
    if i == len {
      ScanDone(s, max, i, phase, it.args0, it.args1, it.count, it.after);
    } else if buf[i] == ' ' {
      if !it.check && StrLen(it.args1) > 0 {
        assert s[i] == ' ';
        ScanDone(s, max, i, phase, it.args0, it.args1, it.count, it.after);
      } else {
        StepSpaceFollows(buf, len, max, it, phase);
        next := 1;
      }
    } else if it.count >= max {
      assert s[i] != ' ';
      ScanOverflow(s, max, i, phase, it.args0, it.args1, it.count, it.after);
    } else {
      next := StepCharFollows(buf, len, max, it, phase);
    }
  }

  /** Below 256 characters the index never wraps, and the loop as written
      follows the scan: from any point where it agrees with ScanAt, the
      passes left end with the tokens of TokensOf. */
  lemma {:induction false} LoopFollowsScan(buf: seq<char>, len: nat, max: nat, it: Iter, phase: nat)
    requires LoopAgrees(buf, len, max, it, phase)
    ensures LoopSteps(buf, len, max, it, len - it.i + 1) == Ends(TokensOf(buf[..len], max))
    decreases len - it.i
  {
    var next := StepFollowsScan(buf, len, max, it, phase);
    if LoopStep(buf, len, max, it).Goes? {
      LoopFollowsScan(buf, len, max, LoopStep(buf, len, max, it).it, next);
    }
  }

  /** On a NUL-free line shorter than 256 characters the loop as written ends
      after at most len + 1 index tests, with exactly the tokens Tokenize
      computes. */
  lemma LoopAsWrittenBelow256(buf: seq<char>, len: nat, max: nat)
    requires len <= |buf| && len < 256
    requires NulFree(buf[..len])
    ensures LoopSteps(buf, len, max, LoopStart, len + 1) == Ends(TokensOf(buf[..len], max))
  {
    LoopFollowsScan(buf, len, max, LoopStart, 0);
  }

  /** With a full-width index the same line ends after one scan: its tokens
      are both empty (a line of spaces names no target). */
  lemma BlankLineEndsWithWideIndex(buf: seq<char>, len: nat, max: nat)
    requires 256 <= len <= |buf|
    requires forall j :: 0 <= j < len ==> buf[j] == ' '
    ensures TokensOf(buf[..len], max) == Tokens([], [], len)
  {
    var s := buf[..len];
    assert FirstSpace(s, 0) == 0;
    FirstNonSpaceAllSpaces(s, 0);
  }

  /** In a sequence of spaces the first non-space from `i` is the end. */
  lemma {:induction false} FirstNonSpaceAllSpaces(s: seq<char>, i: nat)
    requires i <= |s|
    requires forall j :: 0 <= j < |s| ==> s[j] == ' '
    ensures FirstNonSpace(s, i) == |s|
    decreases |s| - i
  {
    if i < |s| {
      FirstNonSpaceAllSpaces(s, i + 1);
    }
  }

  /** The caller's record (hgd_parser_t), filled in place. */
  class ParserRecord {
    var kind: Target
    var buff: seq<char>
    var status: int

    constructor ()
      ensures kind == Zero && buff == Zeros(BufMax) && status == 0
    {
      kind := Zero;
      buff := Zeros(BufMax);
      status := 0;
    }

    function Contents(): Parsed
      reads this
    {
      Parsed(kind, buff, status)
    }
  }

  /** What hgd_parser_params computes for a line, `buf` being all the memory
      readable from the line's start (the text handed to an LCD target runs
      to the first NUL, which may lie beyond `len`). */
  function Parse(names: Names, buf: seq<char>, len: nat, kstrtol: seq<char> -> int): Outcome
    requires len <= |buf|
  {
    match TokensOf(buf[..len], names.max)
    case Overflow => Outcome(false, Cleared())
    case Tokens(arg0, arg1, after) => Dispatch(names, arg0, arg1, buf[after..], kstrtol)
  }

  /** hgd_parser_params: false for a missing record; otherwise the record is
      cleared, the line scanned, and the target dispatched. */
  method ParseParams(buf: seq<char>, len: nat, parser: ParserRecord?, names: Names,
                     kstrtol: seq<char> -> int) returns (ok: bool)
    requires len <= |buf|
    modifies parser
    ensures parser == null ==> !ok
    ensures parser != null && NulFree(buf[..len]) ==>
              ok == Parse(names, buf, len, kstrtol).ok
              && parser.Contents() == Parse(names, buf, len, kstrtol).parsed
  {
    if parser == null {
      return false;
    }
    parser.kind, parser.buff, parser.status := Zero, Zeros(BufMax), 0;
    var scan := Tokenize(buf, len, names.max);
    if scan.Overflow? {
      return false;
    }
    var out := Dispatch(names, scan.arg0, scan.arg1, buf[scan.after..], kstrtol);
    parser.kind, parser.buff, parser.status := out.parsed.kind, out.parsed.buff, out.parsed.status;
    ok := out.ok;
  }

  /** A command naming the LCD hands over everything after the first token
      and its spaces, up to the first NUL: the second token and whatever
      follows it, however long, so a longer text runs past the 48-character
      buffer. */
  lemma LcdTakesRestOfLine(names: Names, t1: seq<char>, rest: seq<char>, kstrtol: seq<char> -> int)
    requires SpaceFree(names.lcd) && NulFree(names.lcd) && |names.lcd| <= names.max
    requires !StrnEq(names.lcd, names.led, names.max) && !StrnEq(names.lcd, names.button, names.max)
    requires SpaceFree(t1) && NulFree(t1) && t1 != [] && |t1| <= names.max
    requires NulFree(rest) && (rest == [] || rest[0] == ' ')
    ensures var line := names.lcd + [' '] + t1 + rest;
            var r := Parse(names, line + [Nul], |line|, kstrtol);
            r.ok && r.parsed.kind == Lcd && r.parsed.buff == LcdBuff(t1 + rest)
            && |r.parsed.buff| == if |t1 + rest| <= BufMax then BufMax else |t1 + rest|
  {
    var line := names.lcd + [' '] + t1 + rest;
    assert (line + [Nul])[..|line|] == line;
    ScanFormatted(names.lcd, t1, rest, names.max);
    var after := |names.lcd| + 1;
    assert (line + [Nul])[after..] == (t1 + rest) + [Nul] + [];
    TextOfNulFree(t1 + rest, []);
    TextOfNulFree(names.lcd, []);
    assert StrnEq(names.lcd, names.lcd, names.max);
  }
}
