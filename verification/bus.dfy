/**
 * The abstract parallel bus between the microcontroller and the two
 * controllers. The driver's register writes become a trace of `Event`s; an
 * observer (`After`, `Completes`, `Ends`) follows the line levels along the trace and reports the
 * `Access` each controller sees whenever its enable line falls, and a
 * hardware reset of both whenever the reset line is asserted. The observer
 * is the meaning of a trace: it knows the wiring of the two build variants
 * but nothing about the driver.
 */
module Bus {
  import opened Bytes
  import opened Sed1520

  datatype Option<T> = None | Some(value: T)

  /**
   * The two display wirings: shared enable E with chip selects CS1/CS2
   * (the driver built with HAS_CS_LINES), or one enable per controller
   * E1/E2 and no chip selects.
   */
  datatype Variant = ChipSelect | DualEnable

  /** Control lines; the data bus is separate. Lines are distinct pins. */
  datatype Line = A0 | RW | Res | E | CS1 | CS2 | E1 | E2

  /** Whether l is an enable line of the wiring. */
  predicate IsEnable(v: Variant, l: Line)
  {
    if v == ChipSelect then l == E else l == E1 || l == E2
  }

  /** The control lines a variant configures as outputs. */
  function ControlLines(v: Variant): set<Line>
  {
    match v
    case ChipSelect => {CS1, CS2, E, RW, A0, Res}
    case DualEnable => {E1, E2, RW, A0, Res}
  }

  /** The enable line whose pulse reaches controller c. */
  function Strobe(v: Variant, c: Ctrl): Line
  {
    match v
    case ChipSelect => E
    case DualEnable => if c == Left then E1 else E2
  }

  /** The (active-low) chip select of controller c. */
  function ChipSelectOf(c: Ctrl): Line
  {
    if c == Left then CS1 else CS2
  }

  /** One register write or read of the driver, or one delay. */
  datatype Event =
    | ControlOutputs(lines: set<Line>)     // control lines become outputs
    | DataDirection(output: bool)          // data bus: all outputs or all inputs
    | Drive(line: Line, high: bool)        // set or clear one control line
    | Deselect                             // raise both chip selects in one write
    | DataPort(value: byte)                // data port register: driven byte, or pull-ups on input
    | Sample(value: byte)                  // the data pins are read, showing `value`
    | Nop                                  // one instruction cycle
    | DelayMs(ms: nat)                     // a busy delay of `ms` milliseconds

  /** The level of each control line. */
  datatype Levels = Levels(a0: bool, rw: bool, res: bool, e: bool, cs1: bool, cs2: bool, e1: bool, e2: bool)
  {
    /** Whether line l is high. */
    predicate High(l: Line)
    {
      match l
      case A0 => a0
      case RW => rw
      case Res => res
      case E => e
      case CS1 => cs1
      case CS2 => cs2
      case E1 => e1
      case E2 => e2
    }

    /** Drive line l to level h; every other line keeps its level. */
    function Drive(l: Line, h: bool): Levels
    {
      Levels(
        if l == A0 then h else a0, if l == RW then h else rw,
        if l == Res then h else res, if l == E then h else e,
        if l == CS1 then h else cs1, if l == CS2 then h else cs2,
        if l == E1 then h else e1, if l == E2 then h else e2)
    }
  }

  /** Driving a line twice leaves the second level. */
  lemma DriveTwice(w: Levels, l: Line, h: bool, h': bool)
    ensures w.Drive(l, h).Drive(l, h') == w.Drive(l, h')
  {
  }

  /** Driving one line leaves the level of every other line alone. */
  lemma DriveOthers(w: Levels, l: Line, h: bool)
    ensures w.Drive(l, h).High(l) == h
    ensures forall k :: k != l ==> w.Drive(l, h).High(k) == w.High(k)
  {
  }

  /**
   * Electrical state seen by the controllers: the control line levels, the
   * data bus direction, the data port register, and the value the driver
   * sampled during the current enable pulse.
   */
  datatype Wires = Wires(lines: Levels, output: bool, port: byte, seen: Option<byte>)

  /**
   * One bus cycle as a controller experiences it, by A0 (command/status vs
   * display data) and R/W. A read carries the value the driver sampled
   * while the enable was high, if it sampled at all.
   */
  datatype Access =
    | Command(ctrl: Ctrl, code: byte)
    | WriteData(ctrl: Ctrl, value: byte)
    | ReadStatus(ctrl: Ctrl, sampled: Option<byte>)
    | ReadData(ctrl: Ctrl, sampled: Option<byte>)
    | HardReset(ctrl: Ctrl)

  /** Between transactions in the chip-select wiring both chip selects are high (deselected). */
  predicate Quiet(v: Variant, w: Levels)
  {
    v == ChipSelect ==> w.cs1 && w.cs2
  }

  /** Whether controller c listens to the bus at the moment. */
  predicate Selected(v: Variant, w: Levels, c: Ctrl)
  {
    v == DualEnable || !w.High(ChipSelectOf(c))
  }

  /**
   * What the driver got from a read: the value it sampled, but only while
   * the data bus is an input; with the port driving the bus the pins show
   * the port, not the controller.
   */
  function Sampled(w: Wires): Option<byte>
  {
    if w.output then None else w.seen
  }

  /** The access controller c sees when its enable falls with the bus in state w. */
  function AccessOf(w: Wires, c: Ctrl): Access
  {
    if w.lines.rw then
      (if w.lines.a0 then ReadData(c, Sampled(w)) else ReadStatus(c, Sampled(w)))
    else
      (if w.lines.a0 then WriteData(c, w.port) else Command(c, w.port))
  }

  /** The access of controller c, if lowering l ends a pulse on its enable. */
  function Strobed(v: Variant, w: Wires, l: Line, c: Ctrl): seq<Access>
  {
    if l == Strobe(v, c) && w.lines.High(l) && Selected(v, w.lines, c) then [AccessOf(w, c)] else []
  }

  /** The enable pulse that lowering l ends, if l is a high enable line. */
  function Falls(v: Variant, w: Levels, l: Line): seq<Line>
  {
    if IsEnable(v, l) && w.High(l) then [l] else []
  }

  /** The bus after event e. Raising an enable starts a pulse in which nothing is sampled yet. */
  function After(v: Variant, w: Wires, e: Event): Wires
  {
    match e
    case Drive(l, h) => Wires(w.lines.Drive(l, h), w.output, w.port, if IsEnable(v, l) then None else w.seen)
    case Deselect => Wires(w.lines.Drive(CS1, true).Drive(CS2, true), w.output, w.port, w.seen)
    case DataDirection(out) => Wires(w.lines, out, w.port, w.seen)
    case DataPort(b) => Wires(w.lines, w.output, b, w.seen)
    case Sample(b) => Wires(w.lines, w.output, w.port, Some(b))
    case _ => w
  }

  /** Lowering l asserts the (active-low) reset input of both controllers if l is the reset line and it was high. */
  function Resets(w: Levels, l: Line): seq<Access>
  {
    if l == Res && w.res then [HardReset(Left), HardReset(Right)] else []
  }

  /**
   * The accesses event e completes: those of the controllers whose enable
   * it lowers, and a hardware reset of both when it asserts the reset line.
   */
  function Completes(v: Variant, w: Wires, e: Event): seq<Access>
  {
    if e.Drive? && !e.high then Strobed(v, w, e.line, Left) + Strobed(v, w, e.line, Right) + Resets(w.lines, e.line) else []
  }

  /** The enable pulse event e ends, if any. */
  function Ends(v: Variant, w: Wires, e: Event): seq<Line>
  {
    if e.Drive? && !e.high then Falls(v, w.lines, e.line) else []
  }

  /** The accesses that change the controllers: everything but status reads. */
  function Effects(s: seq<Access>): seq<Access>
  {
    if s == [] then []
    else if s[|s| - 1].ReadStatus? then Effects(s[..|s| - 1])
    else Effects(s[..|s| - 1]) + [s[|s| - 1]]
  }

  /** Filtering distributes over concatenation. */
  lemma {:induction false} EffectsAppend(a: seq<Access>, b: seq<Access>)
    ensures Effects(a + b) == Effects(a) + Effects(b)
    decreases |b|
  {
    if b == [] {
      assert a + b == a;
    } else {
      var b' := b[..|b| - 1];
      assert (a + b)[..|a + b| - 1] == a + b';
      EffectsAppend(a, b');
    }
  }

  /** True when no access of s is a status read. */
  predicate NoStatus(s: seq<Access>)
  {
    forall i :: 0 <= i < |s| ==> !s[i].ReadStatus?
  }

  lemma {:induction false} EffectsKeep(s: seq<Access>)
    requires NoStatus(s)
    ensures Effects(s) == s
    decreases |s|
  {
    if s != [] {
      EffectsKeep(s[..|s| - 1]);
    }
  }

  lemma {:induction false} EffectsDrop(s: seq<Access>)
    requires AllStatus(s)
    ensures Effects(s) == []
    decreases |s|
  {
    if s != [] {
      EffectsDrop(s[..|s| - 1]);
    }
  }

  /** True when every access of s is a status read. */
  predicate AllStatus(s: seq<Access>)
  {
    forall i :: 0 <= i < |s| ==> s[i].ReadStatus?
  }

  /** Appending accesses that are not status reads appends them to the effects. */
  lemma EffectsPlus(a: seq<Access>, b: seq<Access>)
    requires NoStatus(b)
    ensures Effects(a + b) == Effects(a) + b
  {
    EffectsAppend(a, b);
    EffectsKeep(b);
  }

  /** Appending status reads leaves the effects alone. */
  lemma EffectsPlusStatus(a: seq<Access>, b: seq<Access>)
    requires AllStatus(b)
    ensures Effects(a + b) == Effects(a)
  {
    EffectsAppend(a, b);
    EffectsDrop(b);
    assert Effects(a) + [] == Effects(a);
  }
}
