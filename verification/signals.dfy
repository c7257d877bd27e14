/**
 * The driver's view of the world, and its elementary bus steps.
 *
 * A `Machine` holds the cursor (`lcd_x`, `lcd_page`), the bus, the trace of
 * register statements executed so far, the controller accesses and the
 * enable pulses the observer has seen in that trace, and the values the
 * data pins will show at the remaining reads. When the driver has to read
 * the pins and no value is left, the machine is `halted`: on hardware a
 * busy-wait that never sees its flag clear loops forever, and nothing after
 * it happens. A halted machine is left unchanged by every operation.
 *
 * Every step is a method from a machine to the next one with a closed-form
 * contract; the driver's transactions are sequences of these steps.
 */
module Signals {
  import opened Bytes
  import opened Sed1520
  import opened Bus
  import opened Protocol

  datatype Machine = Machine(
    at: Cursor,
    wires: Wires,
    trace: seq<Event>,
    log: seq<Access>,
    pulses: seq<Line>,
    pins: seq<byte>,
    halted: bool)
  {
    /** Execute one register statement: the observer updates the bus, the accesses and the pulses. */
    function Emit(v: Variant, e: Event): Machine
    {
      Machine(at, After(v, wires, e), trace + [e], log + Completes(v, wires, e), pulses + Ends(v, wires, e), pins, halted)
    }
  }

  /** The machine with the cursor moved to c. */
  function MoveTo(m: Machine, c: Cursor): Machine
  {
    Machine(c, m.wires, m.trace, m.log, m.pulses, m.pins, m.halted)
  }

  /** The machine stopped: the driver needed a pin value and none was left. */
  function Halt(m: Machine): Machine
  {
    Machine(m.at, m.wires, m.trace, m.log, m.pulses, m.pins, true)
  }

  /** No enable line of the wiring is high. */
  predicate Low(v: Variant, w: Levels)
  {
    if v == ChipSelect then !w.e else !w.e1 && !w.e2
  }

  /** Between transactions: enables low, both chip selects (if any) high, data bus driven. */
  predicate Idle(v: Variant, w: Wires)
  {
    Low(v, w.lines) && Quiet(v, w.lines) && w.output
  }

  /** The bus w with `s` as the value sampled during the current pulse. */
  function WithSeen(w: Wires, s: Option<byte>): Wires
  {
    Wires(w.lines, w.output, w.port, s)
  }

  /** The accesses a pulse on `en` delivers, given the bus as it is when the pulse ends. */
  function Fired(v: Variant, w: Wires, en: Line): seq<Access>
  {
    (if Strobe(v, Left) == en && Selected(v, w.lines, Left) then [AccessOf(w, Left)] else [])
    + (if Strobe(v, Right) == en && Selected(v, w.lines, Right) then [AccessOf(w, Right)] else [])
  }

  /** The level of an enable changes none of what a pulse on it delivers. */
  lemma FiredAcrossPulse(v: Variant, w: Wires, en: Line, h: bool, s: Option<byte>)
    requires IsEnable(v, en)
    ensures Fired(v, Wires(w.lines.Drive(en, h), w.output, w.port, s), en) == Fired(v, WithSeen(w, s), en)
  {
    DriveOthers(w.lines, en, h);
  }

  /** Set or clear a line that is neither an enable of the wiring nor the reset line: no controller notices. */
  method Level(v: Variant, m: Machine, l: Line, h: bool) returns (r: Machine)
    requires !IsEnable(v, l) && l != Res
    ensures r == Machine(m.at, Wires(m.wires.lines.Drive(l, h), m.wires.output, m.wires.port, m.wires.seen),
                         m.trace + [Drive(l, h)], m.log, m.pulses, m.pins, m.halted)
  {
    r := m.Emit(v, Drive(l, h));
  }

  /**
   * Set or clear the reset line (`SED1520_RES`): lowering it from high
   * resets both controllers, raising it or lowering it again resets nothing.
   */
  method ResetLevel(v: Variant, m: Machine, h: bool) returns (r: Machine)
    ensures r.at == m.at && r.pulses == m.pulses && r.pins == m.pins && r.halted == m.halted
    ensures r.wires == Wires(m.wires.lines.Drive(Res, h), m.wires.output, m.wires.port, m.wires.seen)
    ensures r.trace == m.trace + [Drive(Res, h)]
    ensures !h && m.wires.lines.res ==> r.log == m.log + [HardReset(Left), HardReset(Right)]
    ensures h || !m.wires.lines.res ==> r.log == m.log
  {
    r := m.Emit(v, Drive(Res, h));
  }

  /** Write the data port register (`SED1520_DATA_PORT = b`). */
  method Port(v: Variant, m: Machine, b: byte) returns (r: Machine)
    ensures r == Machine(m.at, Wires(m.wires.lines, m.wires.output, b, m.wires.seen),
                         m.trace + [DataPort(b)], m.log, m.pulses, m.pins, m.halted)
  {
    r := m.Emit(v, DataPort(b));
  }

  /** Turn the data bus around (`SED1520_DATA_DDR = 0xFF` or `0x00`). */
  method Direction(v: Variant, m: Machine, output: bool) returns (r: Machine)
    ensures r == Machine(m.at, Wires(m.wires.lines, output, m.wires.port, m.wires.seen),
                         m.trace + [DataDirection(output)], m.log, m.pulses, m.pins, m.halted)
  {
    r := m.Emit(v, DataDirection(output));
  }

  /** Raise enable `en`: a pulse starts, with nothing sampled in it yet. */
  method Raise(v: Variant, m: Machine, en: Line) returns (r: Machine)
    requires IsEnable(v, en)
    ensures r == Machine(m.at, Wires(m.wires.lines.Drive(en, true), m.wires.output, m.wires.port, None),
                         m.trace + [Drive(en, true)], m.log, m.pulses, m.pins, m.halted)
  {
    r := m.Emit(v, Drive(en, true));
  }

  /** Lower the high enable `en`: the controllers it reaches take the access the bus shows. */
  method Fall(v: Variant, m: Machine, en: Line) returns (r: Machine)
    requires IsEnable(v, en) && m.wires.lines.High(en)
    ensures r == Machine(m.at, Wires(m.wires.lines.Drive(en, false), m.wires.output, m.wires.port, None),
                         m.trace + [Drive(en, false)], m.log + Fired(v, m.wires, en), m.pulses + [en], m.pins, m.halted)
  {
    r := m.Emit(v, Drive(en, false));
  }

  /** Read the data pins (`tmp = SED1520_DATA_PIN`), consuming the next value. */
  method Take(v: Variant, m: Machine) returns (r: Machine)
    requires |m.pins| > 0
    ensures r == Machine(m.at, WithSeen(m.wires, Some(m.pins[0])),
                         m.trace + [Sample(m.pins[0])], m.log, m.pulses, m.pins[1..], m.halted)
  {
    r := m.Emit(v, Sample(m.pins[0]));
    r := Machine(r.at, r.wires, r.trace, r.log, r.pulses, m.pins[1..], r.halted);
  }

  /** Two instruction cycles of delay (`asm("nop"); asm("nop");`). */
  method Wait(v: Variant, m: Machine) returns (r: Machine)
    ensures r == Machine(m.at, m.wires, m.trace + [Nop, Nop], m.log, m.pulses, m.pins, m.halted)
  {
    r := m.Emit(v, Nop);
    r := r.Emit(v, Nop);
  }

  /** An event that moves no line and drives nothing new: a delay, or the control port made an output. */
  method Inert(v: Variant, m: Machine, e: Event) returns (r: Machine)
    requires e.DelayMs? || e.ControlOutputs?
    ensures r == Machine(m.at, m.wires, m.trace + [e], m.log, m.pulses, m.pins, m.halted)
  {
    r := m.Emit(v, e);
  }

  /** One instruction cycle of delay. */
  method Wait1(v: Variant, m: Machine) returns (r: Machine)
    ensures r == Machine(m.at, m.wires, m.trace + [Nop], m.log, m.pulses, m.pins, m.halted)
  {
    r := m.Emit(v, Nop);
  }

  /** A write strobe on `en`: high, two instruction cycles, low. */
  method Pulse(v: Variant, m: Machine, en: Line) returns (r: Machine)
    requires IsEnable(v, en)
    ensures r.at == m.at && r.pins == m.pins && r.halted == m.halted
    ensures r.trace == m.trace + [Drive(en, true), Nop, Nop, Drive(en, false)]
    ensures r.wires == Wires(m.wires.lines.Drive(en, false), m.wires.output, m.wires.port, None)
    ensures r.log == m.log + Fired(v, WithSeen(m.wires, None), en)
    ensures r.pulses == m.pulses + [en]
  {
    r := Raise(v, m, en);
    r := Wait(v, r);
    DriveTwice(m.wires.lines, en, true, false);
    FiredAcrossPulse(v, m.wires, en, true, None);
    r := Fall(v, r, en);
  }

  /** A read strobe on `en`: the pins are read while the enable is high. */
  method ReadPulse(v: Variant, m: Machine, en: Line) returns (r: Machine)
    requires IsEnable(v, en) && |m.pins| > 0
    ensures r.at == m.at && r.pins == m.pins[1..] && r.halted == m.halted
    ensures r.trace == m.trace + [Drive(en, true), Nop, Nop, Sample(m.pins[0]), Drive(en, false)]
    ensures r.wires == Wires(m.wires.lines.Drive(en, false), m.wires.output, m.wires.port, None)
    ensures r.log == m.log + Fired(v, WithSeen(m.wires, Some(m.pins[0])), en)
    ensures r.pulses == m.pulses + [en]
  {
    r := Raise(v, m, en);
    r := Wait(v, r);
    r := Take(v, r);
    DriveTwice(m.wires.lines, en, true, false);
    FiredAcrossPulse(v, m.wires, en, true, Some(m.pins[0]));
    r := Fall(v, r, en);
  }

  /** In the chip-select wiring, whether controller c takes part in a strobe gated by `mask`. */
  predicate Gated(w: Levels, mask: byte, c: Ctrl)
  {
    Targets(mask, c) || !w.High(ChipSelectOf(c))
  }

  /** The bus once the chip select of every controller `mask` names is lowered. */
  function Gate(w: Wires, mask: byte): Wires
  {
    var l := w.lines;
    Wires(Levels(l.a0, l.rw, l.res, l.e, l.cs1 && !Targets(mask, Left), l.cs2 && !Targets(mask, Right), l.e1, l.e2),
      w.output, w.port, w.seen)
  }

  /** The bus after a chip-select transaction: E low, both chip selects high, nothing sampled. */
  function Ungate(w: Wires): Wires
  {
    var l := w.lines;
    Wires(Levels(l.a0, l.rw, l.res, false, true, true, l.e1, l.e2), w.output, w.port, None)
  }

  /** The bus after dual-enable pulses on the enables of the controllers `mask` names. */
  function Unstrobe(w: Wires, mask: byte): Wires
  {
    var l := w.lines;
    Wires(Levels(l.a0, l.rw, l.res, l.e, l.cs1, l.cs2, l.e1 && !Targets(mask, Left), l.e2 && !Targets(mask, Right)),
      w.output, w.port, if Targets(mask, Left) || Targets(mask, Right) then None else w.seen)
  }

  /** The accesses of a strobe on E with the chip selects for `mask` lowered, sampling s. */
  function GatedAccesses(w: Wires, mask: byte, s: Option<byte>): seq<Access>
  {
    (if Gated(w.lines, mask, Left) then [AccessOf(WithSeen(w, s), Left)] else [])
    + (if Gated(w.lines, mask, Right) then [AccessOf(WithSeen(w, s), Right)] else [])
  }

  /** A shared E pulse with the chip selects gated by `mask` reaches the masked and the already selected controllers. */
  lemma GatedFired(w: Wires, mask: byte, s: Option<byte>)
    ensures Fired(ChipSelect, WithSeen(Gate(w, mask), s), E) == GatedAccesses(w, mask, s)
  {
  }

  /** Ending the strobe and deselecting both controllers undoes the gating. */
  lemma GateUngate(w: Wires, mask: byte)
    ensures Wires(Gate(w, mask).lines.Drive(E, false).Drive(CS1, true).Drive(CS2, true), w.output, w.port, None) == Ungate(w)
  {
  }

  /** Chip-select wiring: lower the (active-low) chip select of controller c. */
  method Select(m: Machine, c: Ctrl) returns (r: Machine)
    ensures r == Machine(m.at, Wires(m.wires.lines.Drive(ChipSelectOf(c), false), m.wires.output, m.wires.port, m.wires.seen),
                         m.trace + [Drive(ChipSelectOf(c), false)], m.log, m.pulses, m.pins, m.halted)
  {
    r := Level(ChipSelect, m, ChipSelectOf(c), false);
  }

  /** Chip-select wiring: lower the chip select of each controller `mask` names, controller 1 first. */
  method SelectMask(m: Machine, mask: byte) returns (r: Machine)
    ensures r == Machine(m.at, Gate(m.wires, mask),
        m.trace + (if Targets(mask, Left) then [Drive(CS1, false)] else [])
          + (if Targets(mask, Right) then [Drive(CS2, false)] else []),
        m.log, m.pulses, m.pins, m.halted)
  {
    r := m;
    if Targets(mask, Left) {
      r := Select(r, Left);
    }
    if Targets(mask, Right) {
      r := Select(r, Right);
    }
  }

  /** Chip-select wiring: raise both chip selects in one register write. */
  method DeselectBoth(m: Machine) returns (r: Machine)
    ensures r == Machine(m.at, Wires(m.wires.lines.Drive(CS1, true).Drive(CS2, true), m.wires.output, m.wires.port, m.wires.seen),
                         m.trace + [Deselect], m.log, m.pulses, m.pins, m.halted)
  {
    r := m.Emit(ChipSelect, Deselect);
  }

  /**
   * Chip-select wiring, write cycle: lower the chip select of each masked
   * controller, one instruction cycle, one shared E pulse, deselect both.
   */
  method GatedStrobe(m: Machine, mask: byte) returns (r: Machine)
    ensures r.at == m.at && r.pins == m.pins && r.halted == m.halted && m.trace <= r.trace
    ensures r.log == m.log
      + GatedAccesses(m.wires, mask, None)
    ensures r.wires == Ungate(m.wires)
    ensures r.pulses == m.pulses + [E]
  {
    r := SelectMask(m, mask);
    r := Wait1(ChipSelect, r);
    r := Pulse(ChipSelect, r, E);
    GatedFired(m.wires, mask, None);
    GateUngate(m.wires, mask);
    r := DeselectBoth(r);
  }

  /**
   * A read strobe on `en`, optionally preceded by a dummy read: a
   * write-shaped pulse and two instruction cycles.
   */
  method ReadCycle(v: Variant, m: Machine, en: Line, dummy: bool) returns (r: Machine)
    requires IsEnable(v, en) && |m.pins| > 0
    ensures r.at == m.at && r.pins == m.pins[1..] && r.halted == m.halted && m.trace <= r.trace
    ensures r.wires == Wires(m.wires.lines.Drive(en, false), m.wires.output, m.wires.port, None)
    ensures r.log == m.log + (if dummy then Fired(v, WithSeen(m.wires, None), en) else [])
                           + Fired(v, WithSeen(m.wires, Some(m.pins[0])), en)
    ensures r.pulses == m.pulses + (if dummy then [en, en] else [en])
  {
    r := m;
    if dummy {
      r := Pulse(v, r, en);
      r := Wait(v, r);
      FiredAcrossPulse(v, m.wires, en, false, Some(m.pins[0]));
      DriveTwice(m.wires.lines, en, false, false);
    }
    r := ReadPulse(v, r, en);
  }

  /**
   * Chip-select wiring, read cycle: as the write cycle, but the pins are
   * read while E is high, after a dummy read if `dummy`.
   */
  method GatedRead(m: Machine, mask: byte, dummy: bool) returns (r: Machine)
    requires |m.pins| > 0
    ensures r.at == m.at && r.pins == m.pins[1..] && r.halted == m.halted && m.trace <= r.trace
    ensures r.log == m.log
      + (if dummy then GatedAccesses(m.wires, mask, None) else [])
      + GatedAccesses(m.wires, mask, Some(m.pins[0]))
    ensures r.wires == Ungate(m.wires)
    ensures r.pulses == m.pulses + (if dummy then [E, E] else [E])
  {
    r := SelectMask(m, mask);
    r := Wait1(ChipSelect, r);
    r := ReadCycle(ChipSelect, r, E, dummy);
    GatedFired(m.wires, mask, None);
    GatedFired(m.wires, mask, Some(m.pins[0]));
    GateUngate(m.wires, mask);
    r := DeselectBoth(r);
  }

  /** Dual-enable wiring, write cycle: a pulse on E1 if controller 1 is masked, then one on E2 if controller 2 is. */
  method SeparateStrobes(m: Machine, mask: byte) returns (r: Machine)
    ensures r.at == m.at && r.pins == m.pins && r.halted == m.halted && m.trace <= r.trace
    ensures r.log == m.log
      + (if Targets(mask, Left) then [AccessOf(WithSeen(m.wires, None), Left)] else [])
      + (if Targets(mask, Right) then [AccessOf(WithSeen(m.wires, None), Right)] else [])
    ensures r.wires == Unstrobe(m.wires, mask)
    ensures r.pulses == m.pulses + (if Targets(mask, Left) then [E1] else []) + (if Targets(mask, Right) then [E2] else [])
  {
    var r1 := PulseIf(m, Left, Targets(mask, Left));
    r := PulseIf(r1, Right, Targets(mask, Right));
  }

  /** Dual-enable wiring: a write-shaped pulse on controller c's own enable when `on`, nothing otherwise. */
  method PulseIf(m: Machine, c: Ctrl, on: bool) returns (r: Machine)
    ensures r.at == m.at && r.pins == m.pins && r.halted == m.halted && m.trace <= r.trace
    ensures r.log == m.log + (if on then [AccessOf(WithSeen(m.wires, None), c)] else [])
    ensures r.wires == if on then Wires(m.wires.lines.Drive(Strobe(DualEnable, c), false), m.wires.output, m.wires.port, None) else m.wires
    ensures r.pulses == m.pulses + (if on then [Strobe(DualEnable, c)] else [])
  {
    r := m;
    if on {
      r := Pulse(DualEnable, m, Strobe(DualEnable, c));
    }
  }

  /**
   * Dual-enable wiring, read cycle on controller c: the pins are read while
   * its enable is high. With `dummy` a write-shaped pulse and two
   * instruction cycles come first.
   */
  method SeparateRead(m: Machine, c: Ctrl, dummy: bool) returns (r: Machine)
    requires |m.pins| > 0
    ensures r.at == m.at && r.pins == m.pins[1..] && r.halted == m.halted && m.trace <= r.trace
    ensures r.log == m.log + (if dummy then [AccessOf(WithSeen(m.wires, None), c)] else [])
                           + [AccessOf(WithSeen(m.wires, Some(m.pins[0])), c)]
    ensures r.wires == Unstrobe(m.wires, Bit(c))
    ensures r.pulses == m.pulses + (if dummy then [Strobe(DualEnable, c), Strobe(DualEnable, c)] else [Strobe(DualEnable, c)])
  {
    r := ReadCycle(DualEnable, m, Strobe(DualEnable, c), dummy);
  }
}
