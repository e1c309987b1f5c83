/** The kernel GPIO subsystem as the drivers see it: which line numbers are
    valid, which lines are requested, each line's direction and level, which
    lines are exported to user space, and the ordered record of every call the
    drivers make into it (including the delay calls that separate line writes).
    Nothing here models how the kernel implements these calls. */
module Gpio {

  /** Kernel error numbers the drivers compare against (returned negated). */
  const EINVAL: int := 22
  const EBUSY: int := 16
  const ERANGE: int := 34

  datatype Direction = Input | Output

  datatype Option<T> = None | Some(value: T)

  /** One call into the GPIO or delay API, in the order it was made. */
  datatype Call =
    | Request(pin: int)              // gpio_request
    | RequestOneLow(pin: int)        // gpio_request_one(pin, GPIOF_OUT_INIT_LOW, ...)
    | Free(pin: int)                 // gpio_free
    | DirectionIn(pin: int)          // gpio_direction_input
    | DirectionOut(pin: int, high: bool)  // gpio_direction_output
    | Export(pin: int)               // gpio_export
    | Unexport(pin: int)             // gpio_unexport
    | SetValue(pin: int, high: bool) // gpio_set_value
    | SetDebounce(pin: int, ms: nat) // gpio_set_debounce
    | SleepUs(minUs: int, maxUs: int) // usleep_range, arguments as passed
    | SleepMs(ms: nat)               // msleep
    | DelayMs(ms: nat)               // mdelay

  /** Level of a line in a level map; a line never driven reads low. */
  function LevelOf(level: map<int, bool>, pin: int): bool
  {
    pin in level && level[pin]
  }

  /** Result code of a request: -EINVAL for a line number that is not valid,
      -EBUSY for a line already requested, 0 otherwise. */
  function RequestResult(valid: set<int>, requested: set<int>, pin: int): (rc: int)
    ensures rc == 0 <==> pin in valid && pin !in requested
    ensures rc != 0 ==> rc < 0
    ensures pin !in valid ==> rc == -EINVAL
  {
    if pin !in valid then -EINVAL
    else if pin in requested then -EBUSY
    else 0
  }

  class Chip {
    /** gpio_is_valid */
    const valid: set<int>
    /** lines currently requested (by any consumer) */
    var requested: set<int>
    var direction: map<int, Direction>
    var exported: set<int>
    var level: map<int, bool>
    /** every call made so far, oldest first */
    var calls: seq<Call>

    constructor (valid: set<int>, requested: set<int>, level: map<int, bool>)
      ensures this.valid == valid && this.requested == requested && this.level == level
      ensures direction == map[] && exported == {} && calls == []
    {
      this.valid := valid;
      this.requested := requested;
      this.level := level;
      direction := map[];
      exported := {};
      calls := [];
    }

    /** gpio_get_value */
    function Level(pin: int): bool
      reads this
    {
      LevelOf(level, pin)
    }

    /** gpio_request: claims a valid line that nobody holds. */
    method GpioRequest(pin: int) returns (rc: int)
      modifies this
      ensures rc == RequestResult(valid, old(requested), pin)
      ensures requested == if rc == 0 then old(requested) + {pin} else old(requested)
      ensures direction == old(direction) && exported == old(exported) && level == old(level)
      ensures calls == old(calls) + [Request(pin)]
    {
      rc := RequestResult(valid, requested, pin);
      if rc == 0 {
        requested := requested + {pin};
      }
      calls := calls + [Request(pin)];
    }

    /** gpio_request_one with GPIOF_OUT_INIT_LOW: on success the line is also
        made an output driven low. */
    method GpioRequestOneLow(pin: int) returns (rc: int)
      modifies this
      ensures rc == RequestResult(valid, old(requested), pin)
      ensures rc == 0 ==>
                requested == old(requested) + {pin}
                && direction == old(direction)[pin := Output] && level == old(level)[pin := false]
      ensures rc != 0 ==>
                requested == old(requested) && direction == old(direction) && level == old(level)
      ensures exported == old(exported)
      ensures calls == old(calls) + [RequestOneLow(pin)]
    {
      rc := RequestResult(valid, requested, pin);
      if rc == 0 {
        requested := requested + {pin};
        direction := direction[pin := Output];
        level := level[pin := false];
      }
      calls := calls + [RequestOneLow(pin)];
    }

    /** gpio_free: releases the line, whoever requested it. */
    method GpioFree(pin: int)
      modifies this
      ensures requested == old(requested) - {pin}
      ensures direction == old(direction) && exported == old(exported) && level == old(level)
      ensures calls == old(calls) + [Free(pin)]
    {
      requested := requested - {pin};
      calls := calls + [Free(pin)];
    }

    method GpioDirectionInput(pin: int)
      modifies this
      ensures direction == old(direction)[pin := Input]
      ensures requested == old(requested) && exported == old(exported) && level == old(level)
      ensures calls == old(calls) + [DirectionIn(pin)]
    {
      direction := direction[pin := Input];
      calls := calls + [DirectionIn(pin)];
    }

    method GpioDirectionOutput(pin: int, high: bool)
      modifies this
      ensures direction == old(direction)[pin := Output] && level == old(level)[pin := high]
      ensures requested == old(requested) && exported == old(exported)
      ensures calls == old(calls) + [DirectionOut(pin, high)]
    {
      direction := direction[pin := Output];
      level := level[pin := high];
      calls := calls + [DirectionOut(pin, high)];
    }

    method GpioExport(pin: int)
      modifies this
      ensures exported == old(exported) + {pin}
      ensures requested == old(requested) && direction == old(direction) && level == old(level)
      ensures calls == old(calls) + [Export(pin)]
    {
      exported := exported + {pin};
      calls := calls + [Export(pin)];
    }

    method GpioUnexport(pin: int)
      modifies this
      ensures exported == old(exported) - {pin}
      ensures requested == old(requested) && direction == old(direction) && level == old(level)
      ensures calls == old(calls) + [Unexport(pin)]
    {
      exported := exported - {pin};
      calls := calls + [Unexport(pin)];
    }

    method GpioSetValue(pin: int, high: bool)
      modifies this
      ensures level == old(level)[pin := high]
      ensures requested == old(requested) && direction == old(direction) && exported == old(exported)
      ensures calls == old(calls) + [SetValue(pin, high)]
    {
      level := level[pin := high];
      calls := calls + [SetValue(pin, high)];
    }

    /** gpio_set_debounce; whether the hardware accepts the setting is not
        known to the driver, so its result is given as `outcome`. */
    method GpioSetDebounce(pin: int, ms: nat, outcome: int) returns (rc: int)
      modifies this
      ensures rc == outcome
      ensures requested == old(requested) && direction == old(direction)
      ensures exported == old(exported) && level == old(level)
      ensures calls == old(calls) + [SetDebounce(pin, ms)]
    {
      rc := outcome;
      calls := calls + [SetDebounce(pin, ms)];
    }

    /** usleep_range, msleep and mdelay only leave a mark in the call record. */
    method UsleepRange(minUs: int, maxUs: int)
      modifies this
      ensures requested == old(requested) && direction == old(direction)
      ensures exported == old(exported) && level == old(level)
      ensures calls == old(calls) + [SleepUs(minUs, maxUs)]
    {
      calls := calls + [SleepUs(minUs, maxUs)];
    }

    method Msleep(ms: nat)
      modifies this
      ensures requested == old(requested) && direction == old(direction)
      ensures exported == old(exported) && level == old(level)
      ensures calls == old(calls) + [SleepMs(ms)]
    {
      calls := calls + [SleepMs(ms)];
    }

    method Mdelay(ms: nat)
      modifies this
      ensures requested == old(requested) && direction == old(direction)
      ensures exported == old(exported) && level == old(level)
      ensures calls == old(calls) + [DelayMs(ms)]
    {
      calls := calls + [DelayMs(ms)];
    }
  }
}
