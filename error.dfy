/** Error records (error.c): a record holds a code and a message of at most
    MSG_LEN_ERROR_HGD characters; the module remembers the last record it
    created, prints records, and frees them. */
module Error {
  import opened CString
  import opened Gpio

  /** MSG_LEN_ERROR_HGD, the size of a record's message array. */
  const MsgLen: nat := 30

  /** An error code as `%u` prints it: an unsigned 32-bit value. */
  type U32 = x: int | 0 <= x < 0x1_0000_0000

  /** The contents of a record's message array. */
  type MsgArray = s: seq<char> | |s| == MsgLen witness Zeros(MsgLen)

  /** hgd_error_t. Neither field changes after hgd_error_new fills it. */
  class ErrorRecord {
    const code: U32
    const msg: MsgArray

    /** vmalloc followed by the two assignments of hgd_error_new: the
        message is strncpy'd into the 30-character array. */
    constructor (code: U32, text: seq<char>)
      ensures this.code == code && msg == StrnCpy(text, MsgLen)
    {
      this.code := code;
      msg := StrnCpy(text, MsgLen);
    }
  }

  /** A `hgd_error_t *` variable whose address is handed to the module. */
  class ErrorSlot {
    var target: ErrorRecord?

    constructor (target: ErrorRecord?)
      ensures this.target == target
    {
      this.target := target;
    }
  }

  /** The decimal digits `%u` prints for `n`. */
  function Decimal(n: nat): (d: seq<char>)
    ensures 1 <= |d|
    decreases n
  {
    var digit := ['0' + (n % 10) as char];
    if n < 10 then digit else Decimal(n / 10) + digit
  }

  function Pow10(k: nat): (p: nat)
    ensures p >= 1
  {
    if k == 0 then 1 else 10 * Pow10(k - 1)
  }

  /** A number below 10^k has at most k digits (k >= 1, as 0 has one). */
  lemma {:induction false} DecimalBelow(n: nat, k: nat)
    requires k >= 1 && n < Pow10(k)
    ensures |Decimal(n)| <= k
    decreases n
  {
    if n >= 10 {
      assert Pow10(1) == 10;
      assert n / 10 < Pow10(k - 1) by {
        assert Pow10(k) == 10 * Pow10(k - 1);
      }
      DecimalBelow(n / 10, k - 1);
      assert |Decimal(n)| == |Decimal(n / 10)| + 1;
    }
  }

  /** A `%u` never takes more than ten characters. */
  lemma DecimalOfU32(n: U32)
    ensures |Decimal(n)| <= 10
  {
    assert Pow10(10) == 10000000000;
    DecimalBelow(n, 10);
  }

  /** The format hgd_error_print uses when it is given a message. */
  const Fmt: seq<char> := "%s: %s code=%u msg=%s"

  /** The line sprintf writes for that format, without its NUL. */
  function Annotated(name: seq<char>, note: seq<char>, code: U32, text: seq<char>): (line: seq<char>)
    ensures |line| == |name| + |note| + |Decimal(code)| + |text| + 13
  {
    name + ": " + note + " code=" + Decimal(code) + " msg=" + text
  }

  /** The line printed when no message is given. */
  function Plain(code: U32, text: seq<char>): (line: seq<char>)
    ensures |line| == |Decimal(code)| + |text| + 16 && line[..11] == "error code="
  {
    "error code=" + Decimal(code) + " msg=" + text
  }

  /** The size hgd_error_print allocates for the annotated line, as written:
      strlen(msg) + strlen(fmt) + strlen(HGD_NAME). It leaves out the
      expansion of the code and of the record's message, and the NUL. */
  function PrintBufferLen(name: seq<char>, note: seq<char>): (n: nat)
    ensures n == |name| + |note| + 21
  {
    |note| + |Fmt| + |name|
  }

  /** How far the annotated line of a record overruns the allocated size:
      the line and its NUL take the digits of the code and the characters of
      the message, less 7, beyond it. */
  lemma AnnotatedOverrun(name: seq<char>, note: seq<char>, code: U32, msg: seq<char>)
    requires NulFree(msg) && |msg| <= MsgLen
    ensures |Annotated(name, note, code, Text(StrnCpy(msg, MsgLen)))| + 1
            == PrintBufferLen(name, note) + |Decimal(code)| + |msg| - 7
  {
    TextOfNulFree(msg, []);
    StrnCpyText(msg, MsgLen);
  }

  /** With the call the driver makes at load time (error code 10, message
      "test ciao", note "messaggio aggiuntivo"), the line and its NUL need
      four characters more than the allocated size, whatever HGD_NAME is. */
  lemma LoadTimeCallOverflows(name: seq<char>)
    ensures var rec := StrnCpy("test ciao", MsgLen);
            var line := Annotated(name, "messaggio aggiuntivo", 10, Text(rec));
            |line| + 1 == PrintBufferLen(name, "messaggio aggiuntivo") + 4
  {
    assert Decimal(10) == "10";
    AnnotatedOverrun(name, "messaggio aggiuntivo", 10, "test ciao");
  }

  /** The size the annotated line needs at most: the name, the note, the
      fixed characters of the format, ten digits, a full message array and
      the NUL. */
  function SafePrintBufferLen(name: seq<char>, note: seq<char>): (n: nat)
    ensures n >= PrintBufferLen(name, note)
  {
    |name| + |note| + 13 + 10 + MsgLen + 1
  }

  /** The annotated line of any record, with its NUL, fits the corrected
      size. */
  lemma SafePrintBufferFits(name: seq<char>, note: seq<char>, code: U32, msg: seq<char>)
    requires |msg| == MsgLen
    ensures |Annotated(name, note, code, Text(msg))| + 1 <= SafePrintBufferLen(name, note)
  {
    DecimalOfU32(code);
  }

  /** The module's state: `last_error`, the records ever allocated (the
      module never releases one), and the lines printed. `name` is
      HGD_NAME. */
  class ErrorRegistry {
    const name: seq<char>
    var last: ErrorRecord?
    ghost var records: set<ErrorRecord>
    var log: seq<seq<char>>

    /** The last error, when there is one, is a record the module allocated. */
    ghost predicate Valid()
      reads this
    {
      last != null ==> last in records
    }

    constructor (name: seq<char>)
      ensures this.name == name && last == null && records == {} && log == []
      ensures Valid()
    {
      this.name := name;
      last := null;
      records := {};
      log := [];
    }

    /** hgd_error_new. `allocOk` is whether vmalloc succeeds. Without a slot,
        or when the allocation fails, the last error is forgotten and 0 is
        returned; otherwise the slot receives a new record with the code and
        the message cut to 30 characters, and that record becomes the last
        error. */
    method New(slot: ErrorSlot?, code: U32, msg: seq<char>, allocOk: bool) returns (ok: bool)
      requires Valid()
      modifies this, slot
      ensures Valid()
      ensures ok <==> slot != null && allocOk
      ensures !ok ==> last == null && records == old(records)
      ensures slot != null && !allocOk ==> slot.target == null
      ensures ok ==> slot.target != null && fresh(slot.target)
                     && slot.target.code == code && slot.target.msg == StrnCpy(msg, MsgLen)
                     && last == slot.target && records == old(records) + {slot.target}
      ensures log == old(log)
    {
      if slot == null {
        last := null;
        return false;
      }
      if !allocOk {
        slot.target := null;
        last := null;
        return false;
      }
      var e := new ErrorRecord(code, msg);
      slot.target := e;
      records := records + {e};
      last := e;
      return true;
    }

    /** hgd_erro_get_last. */
    method GetLast() returns (e: ErrorRecord?)
      requires Valid()
      ensures e == last
      ensures e != null ==> e in records
    {
      return last;
    }

    /** hgd_error_free. The slot itself must exist (it is dereferenced
        unchecked). An empty slot is left alone; otherwise the last error is
        forgotten if it is this record, and the slot is emptied. The record
        is never released: the release is called on the emptied slot. */
    method Free(slot: ErrorSlot)
      requires Valid()
      modifies this, slot
      ensures Valid()
      ensures slot.target == null
      ensures last == if old(last) == old(slot.target) then null else old(last)
      ensures records == old(records) && log == old(log)
    {
      if slot.target == null {
        return;
      }
      if last == slot.target {
        last := null;
      }
      slot.target := null;
    }

    /** hgd_error_print. Nothing happens for a missing record. With a note,
        the annotated line is printed into a buffer of `size` characters from
        vmalloc (`allocOk` says whether it succeeds; on failure the function
        returns before any free); the size is the corrected
        SafePrintBufferLen, so the line and its NUL fit. Without a note, the
        plain line is printed and nothing is allocated (`size` is 0). With
        `free`, the record is freed through a local copy of the pointer, so
        only `last` can change: whoever passed the record keeps pointing at
        it. */
    method Print(error: ErrorRecord?, note: Option<seq<char>>, allocOk: bool, free: bool)
      returns (ghost size: nat)
      requires Valid()
      modifies this
      ensures Valid()
      ensures error == null || (note.Some? && !allocOk) ==> last == old(last) && log == old(log)
      ensures error != null && note.Some? && allocOk ==>
                log == old(log) + [Annotated(name, Text(note.value), error.code, Text(error.msg))]
      ensures error != null && note.None? ==> log == old(log) + [Plain(error.code, Text(error.msg))]
      ensures error != null && (note.None? || allocOk) ==>
                last == if free && old(last) == error then null else old(last)
      ensures records == old(records)
      ensures size == if error != null && note.Some? then SafePrintBufferLen(name, Text(note.value)) else 0
      ensures error != null && note.Some? && allocOk ==> |log[|log| - 1]| + 1 <= size
    {
      if error == null {
        return 0;
      }
      size := 0;
      match note {
        case Some(text) =>
          size := SafePrintBufferLen(name, Text(text));
          if !allocOk {
            return;
          }
          SafePrintBufferFits(name, Text(text), error.code, error.msg);
          log := log + [Annotated(name, Text(text), error.code, Text(error.msg))];
        case None =>
          log := log + [Plain(error.code, Text(error.msg))];
      }
      if free {
        var local := new ErrorSlot(error);
        Free(local);
      }
    }
  }

  /** The load-time use of the module: a record is created into the
      caller's variable, then printed and freed. The last error is gone, but
      the caller's variable still points at the record, which stays
      allocated. */
  method PrintAndFreeKeepsCallerPointer(reg: ErrorRegistry, code: U32, msg: seq<char>, note: seq<char>)
    returns (caller: ErrorSlot)
    requires reg.Valid()
    modifies reg
    ensures reg.Valid()
    ensures caller.target != null && caller.target in reg.records
    ensures caller.target.code == code && caller.target.msg == StrnCpy(msg, MsgLen)
    ensures reg.last == null
  {
    caller := new ErrorSlot(null);
    var ok := reg.New(caller, code, msg, true);
    ghost var size := reg.Print(caller.target, Some(note), true, true);
  }
}
