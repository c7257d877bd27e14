/**
 * The driver's public operations over the cursor state `lcd_x`/`lcd_page`:
 * `glcdCommandWrite`, `glcdSetAddress`, `glcdDataWrite`, `glcdDataRead`,
 * `glcdClearScreen` and `glcdInit`, in both wirings and with or without the
 * busy check compiled in.
 *
 * Each operation is stated against the `Protocol` definition of what the
 * controllers should experience. Without the busy check the accesses are
 * exactly those; with it they are those up to status reads (`Visible`),
 * and the machine may halt when a busy flag never clears within the
 * supplied pin values.
 */
module Driver {
  import opened Bytes
  import opened Sed1520
  import opened Bus
  import opened Protocol
  import opened Signals
  import opened Transactions

  /** The build options: the wiring (`HAS_CS_LINES`) and whether `BUSYCHECK` is defined. */
  datatype Config = Config(variant: Variant, busyCheck: bool)

  /**
   * The accesses of a log that matter for the controllers' contents: all of
   * them without the busy check, all but status reads with it.
   */
  function Visible(cfg: Config, log: seq<Access>): seq<Access>
  {
    if cfg.busyCheck then Effects(log) else log
  }

  /** Appending accesses that are not status reads appends them to what is visible. */
  lemma VisibleAccesses(cfg: Config, a: seq<Access>, b: seq<Access>)
    requires NoStatus(b)
    ensures Visible(cfg, a + b) == Visible(cfg, a) + b
  {
    if cfg.busyCheck {
      EffectsPlus(a, b);
    }
  }

  /** Two runs of status reads in a row are a run of status reads. */
  lemma StatusChain(a: seq<Access>, b: seq<Access>, c: seq<Access>)
    requires a <= b && AllStatus(b[|a|..]) && b <= c && AllStatus(c[|b|..])
    ensures a <= c && AllStatus(c[|a|..])
  {
    assert c[|a|..] == b[|a|..] + c[|b|..];
  }

  /** Status reads appended with the busy check compiled in change nothing visible. */
  lemma VisibleStatus(cfg: Config, a: seq<Access>, b: seq<Access>)
    requires cfg.busyCheck && a <= b && AllStatus(b[|a|..])
    ensures Visible(cfg, b) == Visible(cfg, a)
  {
    assert b == a + b[|a|..];
    EffectsPlusStatus(a, b[|a|..]);
  }

  /** `rest` is what is left of `pins` after some values were read from the front. */
  predicate Consumed(pins: seq<byte>, rest: seq<byte>)
  {
    |rest| <= |pins| && rest == pins[|pins| - |rest|..]
  }

  lemma ConsumedTrans(a: seq<byte>, b: seq<byte>, c: seq<byte>)
    requires Consumed(a, b) && Consumed(b, c)
    ensures Consumed(a, c)
  {
    assert b[|b| - |c|..] == a[|a| - |c|..];
  }

  /**
   * The bus facts every operation keeps: deselected stays deselected, low
   * enables stay low, a driven data bus stays driven, reset stays put.
   */
  predicate Preserves(v: Variant, w: Wires, w': Wires)
  {
    && (Quiet(v, w.lines) ==> Quiet(v, w'.lines))
    && (Low(v, w.lines) ==> Low(v, w'.lines))
    && (w.output ==> w'.output)
    && w'.lines.res == w.lines.res
  }

  /**
   * What holds of every driver operation from m to r: a halted machine stays
   * as it is, the trace only grows, the pin values are read from the front,
   * the machine halts only once they are used up, and the bus facts are kept.
   */
  predicate Step(cfg: Config, m: Machine, r: Machine)
  {
    && (m.halted ==> r == m)
    && m.trace <= r.trace
    && Consumed(m.pins, r.pins)
    && (!m.halted && r.halted ==> r.pins == [])
    && (!r.halted ==> Preserves(cfg.variant, m.wires, r.wires))
  }

  lemma StepTrans(cfg: Config, a: Machine, b: Machine, c: Machine)
    requires Step(cfg, a, b) && Step(cfg, b, c)
    ensures Step(cfg, a, c)
  {
    ConsumedTrans(a.pins, b.pins, c.pins);
  }

  /** A transaction that ends with a strobe is a step. */
  lemma SettledStep(cfg: Config, a: Machine, b: Machine)
    requires !a.halted && !b.halted && a.trace <= b.trace && Consumed(a.pins, b.pins) && Settled(cfg.variant, a.wires, b.wires)
    ensures Step(cfg, a, b)
  {
  }

  /** If r is still running, going from m to r added `acc` to what the controllers saw. */
  predicate Delivered(cfg: Config, m: Machine, r: Machine, acc: seq<Access>)
  {
    !r.halted ==> Visible(cfg, r.log) == Visible(cfg, m.log) + acc
  }

  lemma DeliveredTrans(cfg: Config, a: Machine, b: Machine, c: Machine, x: seq<Access>, y: seq<Access>)
    requires Step(cfg, b, c) && Delivered(cfg, a, b, x) && Delivered(cfg, b, c, y)
    ensures Delivered(cfg, a, c, x + y)
  {
  }

  /**
   * The busy waits in front of a transaction for the controllers in `mask`:
   * `glcdBusyWait(STATUS_BUSY, mask & CTRL1)`, then the same for `CTRL2`.
   * Nothing happens without the busy check.
   */
  method WaitReady(cfg: Config, m: Machine, mask: byte) returns (r: Machine)
    ensures Step(cfg, m, r) && r.at == m.at
    ensures !cfg.busyCheck ==> r == m
    ensures m.log <= r.log && AllStatus(r.log[|m.log|..])
    ensures Visible(cfg, r.log) == Visible(cfg, m.log)
  {
    r := m;
    if cfg.busyCheck {
      var n1, n2;
      r, n1 := BusyWait(cfg.variant, r, StatusBusy, BitAnd(mask, Ctrl1));
      var r1 := r;
      r, n2 := BusyWait(cfg.variant, r, StatusBusy, BitAnd(mask, Ctrl2));
      StatusChain(m.log, r1.log, r.log);
      VisibleStatus(cfg, m.log, r.log);
      ConsumedTrans(m.pins, r1.pins, r.pins);
    }
  }

  /**
   * `glcdCommandWrite(cmd, controller)`: the busy waits, then the command
   * cycle. The command reaches exactly the controllers in `controller` when
   * the bus is deselected beforehand or the mask names both.
   */
  method CommandWrite(cfg: Config, m: Machine, cmd: byte, controller: byte) returns (r: Machine)
    ensures Step(cfg, m, r) && r.at == m.at
    ensures Ready(cfg.variant, m.wires.lines, controller) ==> Delivered(cfg, m, r, CommandFor(cmd, controller))
    ensures !cfg.busyCheck && !m.halted ==>
      !r.halted && r.pins == m.pins && r.log == m.log + Commands(cfg.variant, m.wires.lines, cmd, controller)
    ensures !r.halted ==> Quiet(cfg.variant, r.wires.lines)
    ensures !r.halted && Targets(controller, Left) && Targets(controller, Right) ==> Low(cfg.variant, r.wires.lines)
  {
    r := WaitReady(cfg, m, controller);
    if r.halted {
      return;
    }
    var r1 := r;
    r := CommandCycle(cfg.variant, r, cmd, controller);
    SettledStep(cfg, r1, r);
    StepTrans(cfg, m, r1, r);
    if Ready(cfg.variant, m.wires.lines, controller) {
      VisibleAccesses(cfg, r1.log, CommandFor(cmd, controller));
    }
  }

  /** `CTRL1` and `CTRL2` each address their own controller only. */
  lemma SingleMasks()
    ensures Targets(Ctrl1, Left) && !Targets(Ctrl1, Right)
    ensures !Targets(Ctrl2, Left) && Targets(Ctrl2, Right)
    ensures Targets(Both(), Left) && Targets(Both(), Right)
  {
    BitTargets(Left, Right);
    BitTargets(Right, Left);
    BitTargets(Left, Left);
    BitTargets(Right, Right);
  }

  /** `glcdCommandWrite(cmd, CTRL1)` or `(cmd, CTRL2)`: the command for controller c alone. */
  method CommandOne(cfg: Config, m: Machine, cmd: byte, c: Ctrl) returns (r: Machine)
    ensures Step(cfg, m, r) && r.at == m.at
    ensures Quiet(cfg.variant, m.wires.lines) ==> Delivered(cfg, m, r, [Command(c, cmd)])
    ensures !cfg.busyCheck && !m.halted ==> !r.halted && r.pins == m.pins
    ensures !r.halted ==> Quiet(cfg.variant, r.wires.lines)
  {
    SingleMasks();
    assert CommandFor(cmd, Bit(c)) == [Command(c, cmd)];
    r := CommandWrite(cfg, m, cmd, Bit(c));
  }

  /** Two steps in a row are a step, and deliver what each delivered, in order. */
  lemma Then(cfg: Config, a: Machine, b: Machine, c: Machine, x: seq<Access>, y: seq<Access>, z: seq<Access>)
    requires Step(cfg, a, b) && Step(cfg, b, c) && Delivered(cfg, a, b, x) && Delivered(cfg, b, c, y) && z == x + y
    ensures Step(cfg, a, c) && Delivered(cfg, a, c, z)
  {
    StepTrans(cfg, a, b, c);
  }

  /** The column commands of `glcdSetAddress` from the left half: column x on controller 1, column 0 on controller 2. */
  method ColumnsLeft(cfg: Config, m: Machine, x: byte) returns (r: Machine)
    requires x < Half
    ensures Step(cfg, m, r) && r.at == m.at
    ensures Quiet(cfg.variant, m.wires.lines) ==>
      Delivered(cfg, m, r, [Command(Left, ColumnCommand(x)), Command(Right, ColumnCommand(0))])
    ensures !cfg.busyCheck && !m.halted ==> !r.halted && r.pins == m.pins
    ensures !r.halted ==> Quiet(cfg.variant, r.wires.lines)
  {
    var r1 := CommandOne(cfg, m, ColumnCommand(x), Left);
    r := CommandOne(cfg, r1, ColumnCommand(0), Right);
    if Quiet(cfg.variant, m.wires.lines) {
      Then(cfg, m, r1, r, [Command(Left, ColumnCommand(x))], [Command(Right, ColumnCommand(0))],
        [Command(Left, ColumnCommand(x)), Command(Right, ColumnCommand(0))]);
    } else {
      StepTrans(cfg, m, r1, r);
    }
  }

  /** `glcdSetAddress` from the left half: the column commands, then page p on both controllers. */
  method AddressLeft(cfg: Config, m: Machine, x: byte, p: byte) returns (r: Machine)
    requires x < Half
    ensures Step(cfg, m, r) && r.at == m.at
    ensures Quiet(cfg.variant, m.wires.lines) ==> Delivered(cfg, m, r, AddressFor(x, p))
    ensures !cfg.busyCheck && !m.halted ==> !r.halted && r.pins == m.pins
    ensures !r.halted ==> Quiet(cfg.variant, r.wires.lines)
  {
    var r2 := ColumnsLeft(cfg, m, x);
    r := CommandBoth(cfg, r2, PageCommand(p));
    if Quiet(cfg.variant, m.wires.lines) {
      Then(cfg, m, r2, r, [Command(Left, ColumnCommand(x)), Command(Right, ColumnCommand(0))],
        [Command(Left, PageCommand(p)), Command(Right, PageCommand(p))], AddressFor(x, p));
    } else {
      StepTrans(cfg, m, r2, r);
    }
  }

  /** `glcdSetAddress` from the right half: column x - 61 and page p, both on controller 2 only. */
  method AddressRight(cfg: Config, m: Machine, x: byte, p: byte) returns (r: Machine)
    requires x >= Half
    ensures Step(cfg, m, r) && r.at == m.at
    ensures Quiet(cfg.variant, m.wires.lines) ==> Delivered(cfg, m, r, AddressFor(x, p))
    ensures !cfg.busyCheck && !m.halted ==> !r.halted && r.pins == m.pins
    ensures !r.halted ==> Quiet(cfg.variant, r.wires.lines)
  {
    var r1 := CommandOne(cfg, m, ColumnCommand(x - Half), Right);
    r := CommandOne(cfg, r1, PageCommand(p), Right);
    if Quiet(cfg.variant, m.wires.lines) {
      Then(cfg, m, r1, r, [Command(Right, ColumnCommand(x - Half))], [Command(Right, PageCommand(p))], AddressFor(x, p));
    } else {
      StepTrans(cfg, m, r1, r);
    }
  }

  /**
   * `glcdSetAddress(x, p)`: remember the cursor, then position the
   * controllers as `AddressFor` says.
   */
  method SetAddress(cfg: Config, m: Machine, x: byte, p: byte) returns (r: Machine)
    ensures Step(cfg, m, r)
    ensures !m.halted ==> r.at == Cursor(x, p)
    ensures Quiet(cfg.variant, m.wires.lines) ==> Delivered(cfg, m, r, AddressFor(x, p))
    ensures !cfg.busyCheck && !m.halted ==> !r.halted && r.pins == m.pins
    ensures !r.halted ==> Quiet(cfg.variant, r.wires.lines)
  {
    if m.halted {
      r := m;
      return;
    }
    var r0 := MoveTo(m, Cursor(x, p));
    if x < Half {
      r := AddressLeft(cfg, r0, x, p);
    } else {
      r := AddressRight(cfg, r0, x, p);
    }
  }

  /**
   * The cursor update after a data transfer: `lcd_x++` (as an `unsigned
   * char`), and at the right edge `glcdSetAddress(0, lcd_page + 1)`.
   */
  method Advance(cfg: Config, m: Machine) returns (r: Machine)
    ensures Step(cfg, m, r)
    ensures !r.halted ==> r.at == Next(m.at)
    ensures Quiet(cfg.variant, m.wires.lines) ==> Delivered(cfg, m, r, WrapFor(m.at))
    ensures !cfg.busyCheck && !m.halted ==> !r.halted && r.pins == m.pins
    ensures !m.halted && !Wraps(m.at) ==> r == MoveTo(m, Next(m.at))
  {
    if m.halted {
      r := m;
      return;
    }
    var x := Truncate(m.at.x + 1);
    r := MoveTo(m, Cursor(x, m.at.page));
    if x >= XPixels {
      var r0 := r;
      r := SetAddress(cfg, r, 0, Truncate(m.at.page + 1));
      StepTrans(cfg, m, r0, r);
    }
  }

  /**
   * `glcdDataWrite(b)`: the busy waits on both controllers, the write cycle
   * on the controller owning `lcd_x`, then the cursor update.
   */
  method DataWrite(cfg: Config, m: Machine, b: byte) returns (r: Machine)
    ensures Step(cfg, m, r)
    ensures !r.halted ==> r.at == Next(m.at) && Quiet(cfg.variant, r.wires.lines)
    ensures Quiet(cfg.variant, m.wires.lines) ==>
      Delivered(cfg, m, r, [WriteData(Owner(m.at.x), b)] + WrapFor(m.at))
    ensures !cfg.busyCheck && !m.halted ==> !r.halted && r.pins == m.pins
    ensures !cfg.busyCheck && !m.halted && !Wraps(m.at) ==>
      r.pulses == m.pulses + [Strobe(cfg.variant, Owner(m.at.x))]
  {
    if m.halted {
      r := m;
      return;
    }
    r := WaitReady(cfg, m, Both());
    if r.halted {
      return;
    }
    var r1 := r;
    r := DataWriteCycle(cfg.variant, r, b, Owner(m.at.x));
    var r2 := r;
    SettledStep(cfg, r1, r2);
    StepTrans(cfg, m, r1, r2);
    r := Advance(cfg, r);
    StepTrans(cfg, m, r2, r);
    if Quiet(cfg.variant, m.wires.lines) {
      VisibleAccesses(cfg, r1.log, [WriteData(Owner(m.at.x), b)]);
      DeliveredTrans(cfg, m, r1, r2, [], [WriteData(Owner(m.at.x), b)]);
      DeliveredTrans(cfg, m, r2, r, [WriteData(Owner(m.at.x), b)], WrapFor(m.at));
    }
  }

  /**
   * The state of `glcdClearScreen` within page j after i of its writes:
   * from m the controllers have seen the page's addressing and i zero
   * writes, and the cursor has made i transfers from column 0 of page j.
   */
  predicate RowTracked(cfg: Config, m: Machine, r: Machine, j: byte, i: nat)
    requires i <= XPixels
  {
    && Step(cfg, m, r)
    && (Quiet(cfg.variant, m.wires.lines) ==> Delivered(cfg, m, r, RowSoFar(j, i)))
    && (!r.halted ==> r.at == Run(Cursor(0, j), i) && Quiet(cfg.variant, r.wires.lines))
    && (!cfg.busyCheck && !m.halted ==> !r.halted && r.pins == m.pins)
  }

  /** One `glcdDataWrite(0)` of the clearing's inner loop. */
  method ClearStep(cfg: Config, m: Machine, r: Machine, j: byte, i: nat) returns (r': Machine)
    requires i < XPixels && RowTracked(cfg, m, r, j, i)
    ensures RowTracked(cfg, m, r', j, i + 1)
  {
    RunAcrossPage(j, i);
    RowSoFarSnoc(j, i);
    r' := DataWrite(cfg, r, 0);
    if Quiet(cfg.variant, m.wires.lines) && !r.halted {
      Then(cfg, m, r, r', RowSoFar(j, i), [WriteData(Owner(i), 0)] + WrapFor(Cursor(i, j)), RowSoFar(j, i + 1));
    } else {
      StepTrans(cfg, m, r, r');
    }
  }

  /**
   * One page of `glcdClearScreen`: `glcdSetAddress(0, j)`, then 122 writes
   * of 0, the last of which wraps the cursor to column 0 of page j + 1.
   */
  method ClearPage(cfg: Config, m: Machine, j: byte) returns (r: Machine)
    ensures Step(cfg, m, r)
    ensures Quiet(cfg.variant, m.wires.lines) ==> Delivered(cfg, m, r, PageFor(j))
    ensures !r.halted ==> r.at == Cursor(0, Truncate(j + 1)) && Quiet(cfg.variant, r.wires.lines)
    ensures !cfg.busyCheck && !m.halted ==> !r.halted && r.pins == m.pins
  {
    RowSoFarSnoc(j, 0);
    var r0 := SetAddress(cfg, m, 0, j);
    r := ClearRow(cfg, m, r0, j);
    RunAcrossPage(j, XPixels);
  }

  /** The inner loop of `glcdClearScreen`: 122 writes of 0 across page j. */
  method ClearRow(cfg: Config, m: Machine, r0: Machine, j: byte) returns (r: Machine)
    requires RowTracked(cfg, m, r0, j, 0)
    ensures RowTracked(cfg, m, r, j, XPixels)
  {
    r := r0;
    var i := 0;
    while i < XPixels
      invariant i <= XPixels && RowTracked(cfg, m, r, j, i)
    {
      r := ClearStep(cfg, m, r, j, i);
      i := i + 1;
    }
  }

  /** The state of `glcdClearScreen` after its first n pages. */
  predicate PagesTracked(cfg: Config, m: Machine, r: Machine, n: nat)
    requires n <= Pages
  {
    && Step(cfg, m, r)
    && (Quiet(cfg.variant, m.wires.lines) ==> Delivered(cfg, m, r, PagesFor(n)))
    && (!r.halted && n > 0 ==> r.at == Cursor(0, n) && Quiet(cfg.variant, r.wires.lines))
    && (!cfg.busyCheck && !m.halted ==> !r.halted && r.pins == m.pins)
  }

  /** One round of the clearing's outer loop. */
  method ClearRound(cfg: Config, m: Machine, r: Machine, n: nat) returns (r': Machine)
    requires n < Pages && PagesTracked(cfg, m, r, n)
    ensures PagesTracked(cfg, m, r', n + 1)
  {
    r' := ClearPage(cfg, r, n);
    if Quiet(cfg.variant, m.wires.lines) && !r.halted {
      Then(cfg, m, r, r', PagesFor(n), PageFor(n), PagesFor(n + 1));
    } else {
      StepTrans(cfg, m, r, r');
    }
  }

  /** The outer loop of `glcdClearScreen`: the pages cleared one by one. */
  method ClearPages(cfg: Config, m: Machine) returns (r: Machine)
    ensures PagesTracked(cfg, m, r, Pages)
  {
    r := m;
    var n := 0;
    while n < Pages
      invariant n <= Pages && PagesTracked(cfg, m, r, n)
    {
      r := ClearRound(cfg, m, r, n);
      n := n + 1;
    }
  }

  /**
   * `glcdClearScreen`: every page cleared by 122 zero writes from its column
   * 0, then `glcdSetAddress(0, 0)`.
   */
  method ClearScreen(cfg: Config, m: Machine) returns (r: Machine)
    ensures Step(cfg, m, r)
    ensures Quiet(cfg.variant, m.wires.lines) ==> Delivered(cfg, m, r, ClearFor())
    ensures !r.halted ==> r.at == Cursor(0, 0) && Quiet(cfg.variant, r.wires.lines)
    ensures !cfg.busyCheck && !m.halted ==> !r.halted && r.pins == m.pins
  {
    var r0 := ClearPages(cfg, m);
    r := SetAddress(cfg, r0, 0, 0);
    if Quiet(cfg.variant, m.wires.lines) && !r0.halted {
      Then(cfg, m, r0, r, PagesFor(Pages), AddressFor(0, 0), ClearFor());
    } else {
      StepTrans(cfg, m, r0, r);
    }
  }

  /**
   * The bus work of `glcdDataRead` between the busy waits and the cursor
   * update: the read set-up, a dummy read and the real read on the
   * controller owning `lcd_x`, then the data bus driven again. It halts when
   * there is no pin value to read.
   */
  method ReadTransfer(cfg: Config, m: Machine) returns (r: Machine, value: byte)
    requires !m.halted
    ensures Step(cfg, m, r) && r.at == m.at
    ensures r.halted <==> m.pins == []
    ensures Quiet(cfg.variant, m.wires.lines) ==>
      Delivered(cfg, m, r, ReadFor(Owner(m.at.x), value))
    ensures m.pins != [] ==> value == m.pins[0] && r.pins == m.pins[1..]
    ensures m.pins != [] ==> r.pulses == m.pulses + [Strobe(cfg.variant, Owner(m.at.x)), Strobe(cfg.variant, Owner(m.at.x))]
    ensures !r.halted ==> r.wires.output && Quiet(cfg.variant, r.wires.lines) && r.wires.port == 0xFF
  {
    value := 0;
    var v := cfg.variant;
    var o := Owner(m.at.x);
    r := ReadSetup(v, m, true);
    if |r.pins| == 0 {
      r := Halt(r);
      return;
    }
    value := r.pins[0];
    var w := r.wires;
    r := DataReadCycle(v, r, o);
    AfterReadFacts(v, w, o);
    r := Direction(v, r, true);
    if Quiet(v, m.wires.lines) {
      VisibleAccesses(cfg, m.log, ReadFor(o, value));
    }
  }

  /** The busy waits on both controllers, then the read transfer: `glcdDataRead` up to the cursor update. */
  method ReadAt(cfg: Config, m: Machine) returns (r: Machine, value: byte)
    ensures Step(cfg, m, r) && r.at == m.at
    ensures Quiet(cfg.variant, m.wires.lines) ==> Delivered(cfg, m, r, ReadFor(Owner(m.at.x), value))
    ensures !cfg.busyCheck && !m.halted ==> (r.halted <==> m.pins == [])
    ensures !cfg.busyCheck && !m.halted && m.pins != [] ==>
      value == m.pins[0] && r.pins == m.pins[1..]
      && r.pulses == m.pulses + [Strobe(cfg.variant, Owner(m.at.x)), Strobe(cfg.variant, Owner(m.at.x))]
    ensures !r.halted ==> Quiet(cfg.variant, r.wires.lines) && r.wires.port == 0xFF
  {
    value := 0;
    if m.halted {
      r := m;
      return;
    }
    var r1 := WaitReady(cfg, m, Both());
    if r1.halted {
      r := r1;
      return;
    }
    r, value := ReadTransfer(cfg, r1);
    if Quiet(cfg.variant, m.wires.lines) {
      Then(cfg, m, r1, r, [], ReadFor(Owner(m.at.x), value), ReadFor(Owner(m.at.x), value));
    } else {
      StepTrans(cfg, m, r1, r);
    }
  }

  /**
   * `glcdDataRead()`: the busy waits on both controllers, the read
   * transfer on the controller owning `lcd_x`, then the cursor update. The
   * value returned is the one sampled during the real read.
   */
  method DataRead(cfg: Config, m: Machine) returns (r: Machine, value: byte)
    ensures Step(cfg, m, r)
    ensures !r.halted ==> r.at == Next(m.at) && Quiet(cfg.variant, r.wires.lines)
    ensures Quiet(cfg.variant, m.wires.lines) ==> Delivered(cfg, m, r, ReadFor(Owner(m.at.x), value) + WrapFor(m.at))
    ensures !cfg.busyCheck && !m.halted ==> (r.halted <==> m.pins == [])
    ensures !cfg.busyCheck && !m.halted && m.pins != [] ==> value == m.pins[0] && r.pins == m.pins[1..]
    ensures !cfg.busyCheck && !m.halted && m.pins != [] && !Wraps(m.at) ==>
      r.pulses == m.pulses + [Strobe(cfg.variant, Owner(m.at.x)), Strobe(cfg.variant, Owner(m.at.x))]
  {
    var r1;
    r1, value := ReadAt(cfg, m);
    r := Advance(cfg, r1);
    if Quiet(cfg.variant, m.wires.lines) {
      Then(cfg, m, r1, r, ReadFor(Owner(m.at.x), value), WrapFor(m.at), ReadFor(Owner(m.at.x), value) + WrapFor(m.at));
    } else {
      StepTrans(cfg, m, r1, r);
    }
  }

  /** The statements of `glcdInitHW`: ports set up, then a 2 ms low pulse on the reset line, which ends high. */
  function ResetSequence(v: Variant): seq<Event>
  {
    [DataDirection(true), ControlOutputs(ControlLines(v)), Nop,
     Drive(Res, true), DelayMs(2), Drive(Res, false), DelayMs(2), Drive(Res, true)]
  }

  /** The port set-up of `glcdInitHW`: data bus and control lines made outputs, then one cycle's wait. */
  method PortsUp(v: Variant, m: Machine) returns (r: Machine)
    ensures r == Machine(m.at, Wires(m.wires.lines, true, m.wires.port, m.wires.seen),
                         m.trace + [DataDirection(true), ControlOutputs(ControlLines(v)), Nop],
                         m.log, m.pulses, m.pins, m.halted)
  {
    r := Direction(v, m, true);
    r := Inert(v, r, ControlOutputs(ControlLines(v)));
    r := Wait1(v, r);
  }

  /**
   * The reset pulse of `glcdInitHW`: reset high, 2 ms, low, 2 ms, high
   * again. Whatever level the reset line had before, both controllers are
   * reset exactly once, and nothing else reaches them.
   */
  method ResetPulse(v: Variant, m: Machine) returns (r: Machine)
    ensures r == Machine(m.at, Wires(m.wires.lines.Drive(Res, true), m.wires.output, m.wires.port, m.wires.seen),
                         m.trace + [Drive(Res, true), DelayMs(2), Drive(Res, false), DelayMs(2), Drive(Res, true)],
                         m.log + HardResets(), m.pulses, m.pins, m.halted)
  {
    r := ResetLevel(v, m, true);
    r := Inert(v, r, DelayMs(2));
    r := ResetLevel(v, r, false);
    r := Inert(v, r, DelayMs(2));
    r := ResetLevel(v, r, true);
    DriveTwice(m.wires.lines, Res, true, false);
    DriveTwice(m.wires.lines, Res, false, true);
  }

  /**
   * `glcdInitHW()`: the data bus and the control lines become outputs and
   * the controllers get a reset pulse. The hardware reset of each is the
   * only thing they see and no enable moves; the reset line ends high and
   * the data bus driven.
   */
  method InitHW(v: Variant, m: Machine) returns (r: Machine)
    ensures r.at == m.at && r.pins == m.pins && r.halted == m.halted
    ensures r.trace == m.trace + ResetSequence(v)
    ensures r.log == m.log + HardResets() && r.pulses == m.pulses
    ensures r.wires == Wires(m.wires.lines.Drive(Res, true), true, m.wires.port, m.wires.seen)
  {
    r := PortsUp(v, m);
    r := ResetPulse(v, r);
    assert ResetSequence(v) == [DataDirection(true), ControlOutputs(ControlLines(v)), Nop]
      + [Drive(Res, true), DelayMs(2), Drive(Res, false), DelayMs(2), Drive(Res, true)];
  }

  /** A command to both controllers (`CTRL1 + CTRL2`): it reaches both from any bus state and leaves every enable low. */
  method CommandBoth(cfg: Config, m: Machine, cmd: byte) returns (r: Machine)
    ensures Step(cfg, m, r) && r.at == m.at
    ensures Delivered(cfg, m, r, [Command(Left, cmd), Command(Right, cmd)])
    ensures !cfg.busyCheck && !m.halted ==> !r.halted && r.pins == m.pins
    ensures !r.halted ==> Quiet(cfg.variant, r.wires.lines) && Low(cfg.variant, r.wires.lines)
  {
    SingleMasks();
    r := CommandWrite(cfg, m, cmd, Both());
  }

  /** `glcdBusyWait(STATUS_RESET, CTRL1 + CTRL2)` when the busy check is compiled in, nothing otherwise. */
  method ResetWait(cfg: Config, m: Machine) returns (r: Machine)
    ensures Step(cfg, m, r) && r.at == m.at
    ensures Delivered(cfg, m, r, [])
    ensures !cfg.busyCheck ==> r == m
  {
    r := m;
    if cfg.busyCheck {
      var n;
      r, n := BusyWait(cfg.variant, m, StatusReset, Both());
      VisibleStatus(cfg, m.log, r.log);
    }
  }

  /** The reset command to both controllers, and the wait for their reset flag when the busy check is compiled in. */
  method ResetBoth(cfg: Config, m: Machine) returns (r: Machine)
    ensures Step(cfg, m, r) && r.at == m.at
    ensures Delivered(cfg, m, r, [Command(Left, Reset), Command(Right, Reset)])
    ensures !cfg.busyCheck && !m.halted ==> !r.halted && r.pins == m.pins
  {
    var r1 := CommandBoth(cfg, m, Reset);
    r := ResetWait(cfg, r1);
    Then(cfg, m, r1, r, [Command(Left, Reset), Command(Right, Reset)], [], [Command(Left, Reset), Command(Right, Reset)]);
  }

  /** Display on, then display start line 0, to both controllers. */
  method DisplayUp(cfg: Config, m: Machine) returns (r: Machine)
    ensures Step(cfg, m, r) && r.at == m.at
    ensures Delivered(cfg, m, r, [Command(Left, DisplayOn), Command(Right, DisplayOn),
                                  Command(Left, DisplayStartLine), Command(Right, DisplayStartLine)])
    ensures !cfg.busyCheck && !m.halted ==> !r.halted && r.pins == m.pins
    ensures !r.halted ==> Quiet(cfg.variant, r.wires.lines) && Low(cfg.variant, r.wires.lines)
  {
    // The source sends `DISPLAY_START_LINE | 0`, which StartLineZero shows is DisplayStartLine.
    var r1 := CommandBoth(cfg, m, DisplayOn);
    r := CommandBoth(cfg, r1, DisplayStartLine);
    Then(cfg, m, r1, r, [Command(Left, DisplayOn), Command(Right, DisplayOn)],
      [Command(Left, DisplayStartLine), Command(Right, DisplayStartLine)],
      [Command(Left, DisplayOn), Command(Right, DisplayOn), Command(Left, DisplayStartLine), Command(Right, DisplayStartLine)]);
  }

  /**
   * The commands of `glcdInit`: reset, the wait for the reset flag when the
   * busy check is compiled in, display on, start line 0, all to both
   * controllers.
   */
  method InitCommands(cfg: Config, m: Machine) returns (r: Machine)
    ensures Step(cfg, m, r) && r.at == m.at
    ensures Delivered(cfg, m, r, InitFor())
    ensures !cfg.busyCheck && !m.halted ==> !r.halted && r.pins == m.pins
    ensures !r.halted ==> Quiet(cfg.variant, r.wires.lines) && Low(cfg.variant, r.wires.lines)
  {
    var r1 := ResetBoth(cfg, m);
    r := DisplayUp(cfg, r1);
    Then(cfg, m, r1, r, [Command(Left, Reset), Command(Right, Reset)],
      [Command(Left, DisplayOn), Command(Right, DisplayOn), Command(Left, DisplayStartLine), Command(Right, DisplayStartLine)],
      InitFor());
  }

  /**
   * `glcdInit()`: the hardware set-up, then the initialisation commands.
   * The trace goes on with the port set-up and reset pulse of
   * `glcdInitHW`. From any bus state it delivers the hardware resets and
   * `InitFor` and leaves the bus idle with the reset line high.
   */
  method Init(cfg: Config, m: Machine) returns (r: Machine)
    ensures m.halted ==> r == m
    ensures !m.halted ==> m.trace + ResetSequence(cfg.variant) <= r.trace
    ensures r.at == m.at && Consumed(m.pins, r.pins)
    ensures !m.halted && r.halted ==> r.pins == []
    ensures Delivered(cfg, m, r, HardResets() + InitFor())
    ensures !r.halted ==> Idle(cfg.variant, r.wires) && r.wires.lines.res
    ensures !cfg.busyCheck && !m.halted ==> !r.halted && r.pins == m.pins
  {
    if m.halted {
      r := m;
      return;
    }
    var r0 := InitHW(cfg.variant, m);
    VisibleAccesses(cfg, m.log, HardResets());
    r := InitCommands(cfg, r0);
    DeliveredTrans(cfg, m, r0, r, HardResets(), InitFor());
  }

  /**
   * The machine at power-up: every port bit low and the data bus an input,
   * so no enable is high but both chip selects are active and reset is
   * asserted; the cursor at `lcd_x = lcd_page = 0`; nothing executed yet.
   */
  function PowerUp(pins: seq<byte>): (m: Machine)
    ensures m.at == Cursor(0, 0) && !m.halted && m.pins == pins
    ensures m.trace == [] && m.log == [] && m.pulses == []
    ensures forall v: Variant :: Low(v, m.wires.lines)
    ensures !Quiet(ChipSelect, m.wires.lines) && !m.wires.lines.res && !m.wires.output
  {
    Machine(Cursor(0, 0), Wires(Levels(false, false, false, false, false, false, false, false), false, 0, None),
      [], [], [], pins, false)
  }

  /**
   * `glcdInit()` right after power-up: the controllers see exactly one
   * hardware reset each, then the initialisation commands (up to status
   * reads with the busy check), and the bus is left idle with the cursor
   * at the top left.
   */
  method Start(cfg: Config, pins: seq<byte>) returns (r: Machine)
    ensures r.at == Cursor(0, 0) && Consumed(pins, r.pins)
    ensures ResetSequence(cfg.variant) <= r.trace
    ensures !r.halted ==> Visible(cfg, r.log) == HardResets() + InitFor() && Idle(cfg.variant, r.wires) && r.wires.lines.res
    ensures !cfg.busyCheck ==> !r.halted && r.log == HardResets() + InitFor() && r.pins == pins
  {
    var m := PowerUp(pins);
    r := Init(cfg, m);
    FreshLog(cfg, m, r, HardResets() + InitFor());
  }

  /**
   * With chip-select lines and the busy check, nothing raises CS1 or CS2
   * before the first status poll of `glcdInit`: both are low from power-up,
   * so the poll meant for controller 1 alone (after `glcdInitHW` and the read
   * set-up) reads the status of both controllers at once. From a deselected
   * bus the same poll reads controller 1 only.
   */
  lemma PowerUpPollReachesBoth(pins: seq<byte>, s: byte)
    ensures var l := PowerUp(pins).wires.lines.Drive(Res, true).Drive(A0, false).Drive(RW, true);
      !Quiet(ChipSelect, l) && Polled(ChipSelect, l, Ctrl1, s) == [ReadStatus(Left, Some(s)), ReadStatus(Right, Some(s))]
    ensures forall l: Levels :: Quiet(ChipSelect, l) ==> Polled(ChipSelect, l, Ctrl1, s) == [ReadStatus(Left, Some(s))]
  {
    SingleMasks();
  }

  /** What a machine with an empty log has delivered is all it has logged, up to status reads. */
  lemma FreshLog(cfg: Config, m: Machine, r: Machine, acc: seq<Access>)
    requires m.log == [] && Delivered(cfg, m, r, acc)
    ensures !r.halted ==> Visible(cfg, r.log) == acc
    ensures !r.halted && !cfg.busyCheck ==> r.log == acc
  {
    assert Effects([]) == [];
  }
}
