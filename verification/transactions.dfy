/**
 * The driver's bus transactions: the command cycle, the write strobe of
 * either wiring, and the status polling of `glcdBusyWait`.
 *
 * Contracts speak about the controller accesses the observer saw. Status
 * reads change nothing in a controller, so where the busy check is
 * compiled in the accesses are stated up to status reads (`Effects`).
 */
module Transactions {
  import opened Bytes
  import opened Sed1520
  import opened Bus
  import opened Protocol
  import opened Signals

  /** Whether controller c takes part in a write strobe for `mask`, with the control lines at l. */
  predicate Reached(v: Variant, l: Levels, mask: byte, c: Ctrl)
  {
    if v == ChipSelect then Gated(l, mask, c) else Targets(mask, c)
  }

  /** A strobe for `mask` reaches exactly the masked controllers: both chip selects are high, or the mask names both. */
  predicate Ready(v: Variant, l: Levels, mask: byte)
  {
    Quiet(v, l) || (Targets(mask, Left) && Targets(mask, Right))
  }

  /** The accesses of a write strobe for `mask` on the bus w. */
  function Deliver(v: Variant, w: Wires, mask: byte): seq<Access>
  {
    (if Reached(v, w.lines, mask, Left) then [AccessOf(w, Left)] else [])
    + (if Reached(v, w.lines, mask, Right) then [AccessOf(w, Right)] else [])
  }

  /** The bus after a write strobe for `mask`. */
  function Settle(v: Variant, w: Wires, mask: byte): Wires
  {
    if v == ChipSelect then Ungate(w) else Unstrobe(w, mask)
  }

  /** The enable pulses of a write strobe for `mask`: one shared E, or E1 and E2 for the masked controllers. */
  function StrobeLines(v: Variant, mask: byte): seq<Line>
  {
    if v == ChipSelect then [E]
    else (if Targets(mask, Left) then [E1] else []) + (if Targets(mask, Right) then [E2] else [])
  }

  /**
   * What a transaction leaves behind: both chip selects high, enables that
   * were low still low, a driven data bus still driven, and the reset line
   * untouched.
   */
  predicate Settled(v: Variant, w: Wires, w': Wires)
  {
    && Quiet(v, w'.lines)
    && (Low(v, w.lines) ==> Low(v, w'.lines))
    && (w.output ==> w'.output)
    && w'.lines.res == w.lines.res
  }

  /** The write strobe of either wiring for the controllers in `mask`. */
  method Strobes(v: Variant, m: Machine, mask: byte) returns (r: Machine)
    ensures r.at == m.at && r.pins == m.pins && r.halted == m.halted && m.trace <= r.trace
    ensures r.log == m.log + Deliver(v, WithSeen(m.wires, None), mask)
    ensures r.pulses == m.pulses + StrobeLines(v, mask)
    ensures r.wires == Settle(v, m.wires, mask)
  {
    if v == ChipSelect {
      r := GatedStrobe(m, mask);
    } else {
      r := SeparateStrobes(m, mask);
    }
  }

  /** A write strobe leaves both chip selects high and every enable it pulsed low, and A0, R/W and the port alone. */
  lemma SettleFacts(v: Variant, w: Wires, mask: byte)
    ensures Settled(v, w, Settle(v, w, mask))
    ensures Targets(mask, Left) && Targets(mask, Right) ==> Low(v, Settle(v, w, mask).lines)
    ensures Settle(v, w, mask).lines.a0 == w.lines.a0 && Settle(v, w, mask).lines.rw == w.lines.rw
    ensures Settle(v, w, mask).port == w.port
    ensures v == ChipSelect ==> !Settle(v, w, mask).lines.e
    ensures v == DualEnable && Targets(mask, Left) ==> !Settle(v, w, mask).lines.e1
    ensures v == DualEnable && Targets(mask, Right) ==> !Settle(v, w, mask).lines.e2
  {
  }

  /** The commands a command strobe with `mask` delivers while the control lines are at l. */
  function Commands(v: Variant, l: Levels, cmd: byte, mask: byte): seq<Access>
  {
    (if Reached(v, l, mask, Left) then [Command(Left, cmd)] else [])
    + (if Reached(v, l, mask, Right) then [Command(Right, cmd)] else [])
  }

  /** When the strobe reaches exactly the masked controllers, the commands are the ones the mask asks for. */
  lemma CommandsReady(v: Variant, l: Levels, cmd: byte, mask: byte)
    requires Ready(v, l, mask)
    ensures Commands(v, l, cmd, mask) == CommandFor(cmd, mask)
  {
  }

  /**
   * The set-up of a write cycle: A0 to `a0`, R/W low, b on the data port.
   * No chip select, enable or reset line moves.
   */
  method WriteSetup(v: Variant, m: Machine, a0: bool, b: byte) returns (r: Machine)
    ensures r == Machine(m.at, Wires(m.wires.lines.Drive(A0, a0).Drive(RW, false), m.wires.output, b, m.wires.seen),
                         m.trace + [Drive(A0, a0), Drive(RW, false), DataPort(b)], m.log, m.pulses, m.pins, m.halted)
    ensures Quiet(v, r.wires.lines) == Quiet(v, m.wires.lines) && Low(v, r.wires.lines) == Low(v, m.wires.lines)
    ensures r.wires.lines.res == m.wires.lines.res
    ensures forall mask, c :: Reached(v, r.wires.lines, mask, c) == Reached(v, m.wires.lines, mask, c)
  {
    r := Level(v, m, A0, a0);
    r := Level(v, r, RW, false);
    r := Port(v, r, b);
  }

  /**
   * The bus cycle of `glcdCommandWrite`: A0 and R/W low, the command on the
   * data port, then the write strobe for `mask`.
   */
  method CommandCycle(v: Variant, m: Machine, cmd: byte, mask: byte) returns (r: Machine)
    ensures r.at == m.at && r.pins == m.pins && r.halted == m.halted && m.trace <= r.trace
    ensures r.log == m.log + Commands(v, m.wires.lines, cmd, mask)
    ensures Ready(v, m.wires.lines, mask) ==> r.log == m.log + CommandFor(cmd, mask)
    ensures r.pulses == m.pulses + StrobeLines(v, mask)
    ensures Settled(v, m.wires, r.wires)
    ensures Targets(mask, Left) && Targets(mask, Right) ==> Low(v, r.wires.lines)
    ensures !r.wires.lines.a0 && !r.wires.lines.rw && r.wires.port == cmd
  {
    r := WriteSetup(v, m, false, cmd);
    var w := r.wires;
    r := Strobes(v, r, mask);
    SettleFacts(v, w, mask);
    if Ready(v, m.wires.lines, mask) {
      CommandsReady(v, m.wires.lines, cmd, mask);
    }
  }

  /** `tmp & statusbit`: the flag is still set in the sampled status byte. */
  predicate Busy(s: byte, statusbit: byte)
  {
    BitAnd(s, statusbit) != 0
  }

  /** Every value in `pins` has the flag set: a poll over them never ends. */
  predicate AllBusy(pins: seq<byte>, statusbit: byte)
  {
    forall i :: 0 <= i < |pins| ==> Busy(pins[i], statusbit)
  }

  /** The n-th value of `pins` is the first with the flag clear. */
  predicate FirstReady(pins: seq<byte>, statusbit: byte, n: nat)
  {
    && 1 <= n <= |pins|
    && !Busy(pins[n - 1], statusbit)
    && forall i :: 0 <= i < n - 1 ==> Busy(pins[i], statusbit)
  }

  /** The controller a dual-enable poll strobes: controller 1 if its bit is set, controller 2 otherwise. */
  function PollCtrl(controller: byte): Ctrl
  {
    if Targets(controller, Left) then Left else Right
  }

  /** The status reads one poll delivers while the control lines are at l, all seeing s. */
  function Polled(v: Variant, l: Levels, controller: byte, s: byte): seq<Access>
  {
    match v
    case ChipSelect =>
      (if Gated(l, controller, Left) then [ReadStatus(Left, Some(s))] else [])
      + (if Gated(l, controller, Right) then [ReadStatus(Right, Some(s))] else [])
    case DualEnable => [ReadStatus(PollCtrl(controller), Some(s))]
  }

  /** With both chip selects high a poll reads exactly the controllers `PollTargets` names. */
  lemma PolledQuiet(v: Variant, l: Levels, controller: byte, s: byte)
    requires Quiet(v, l)
    ensures Polled(v, l, controller, s) == StatusEach(PollTargets(v, controller), s)
  {
    var ts := PollTargets(v, controller);
    if |ts| == 2 {
      assert StatusEach(ts, s) == [ReadStatus(ts[0], Some(s))] + StatusEach([ts[1]], s);
      assert StatusEach([ts[1]], s) == [ReadStatus(ts[1], Some(s))] + StatusEach([], s);
    } else if |ts| == 1 {
      assert StatusEach(ts, s) == [ReadStatus(ts[0], Some(s))] + StatusEach([], s);
    }
  }

  /** Every access one poll delivers is a status read. */
  lemma PolledStatus(v: Variant, l: Levels, controller: byte, s: byte)
    ensures AllStatus(Polled(v, l, controller, s))
  {
  }

  /** The enable line a poll pulses. */
  function PollLine(v: Variant, controller: byte): Line
  {
    Strobe(v, PollCtrl(controller))
  }

  /** The bus after one poll. */
  function AfterPoll(v: Variant, w: Wires, controller: byte): Wires
  {
    if v == ChipSelect then Ungate(w) else Unstrobe(w, Bit(PollCtrl(controller)))
  }

  /**
   * One iteration of the polling loop of `glcdBusyWait`: a read strobe on
   * the polled controller(s), reading the status byte from the pins.
   */
  method Poll(v: Variant, m: Machine, controller: byte) returns (r: Machine)
    requires |m.pins| > 0 && m.wires.lines.rw && !m.wires.lines.a0 && !m.wires.output
    ensures r.at == m.at && r.pins == m.pins[1..] && r.halted == m.halted && m.trace <= r.trace
    ensures r.log == m.log + Polled(v, m.wires.lines, controller, m.pins[0])
    ensures r.pulses == m.pulses + [PollLine(v, controller)]
    ensures r.wires == AfterPoll(v, m.wires, controller)
  {
    if v == ChipSelect {
      r := GatedRead(m, controller, false);
    } else {
      r := SeparateRead(m, PollCtrl(controller), false);
      BitTargets(PollCtrl(controller), Left);
      BitTargets(PollCtrl(controller), Right);
    }
  }

  /** A poll keeps the read set-up and leaves both chip selects high and the polled enable low. */
  lemma AfterPollFacts(v: Variant, w: Wires, controller: byte)
    ensures var w' := AfterPoll(v, w, controller);
      && Quiet(v, w'.lines) && (Low(v, w.lines) ==> Low(v, w'.lines))
      && w'.lines.rw == w.lines.rw && w'.lines.a0 == w.lines.a0 && w'.lines.res == w.lines.res
      && w'.output == w.output && w'.port == w.port
  {
  }

  /** `n` copies of line l. */
  function Repeat(l: Line, n: nat): seq<Line>
  {
    seq(n, _ => l)
  }

  /** Appending status reads to a log whose extension over `base` is all status reads keeps it so. */
  lemma StatusAppend(base: seq<Access>, log: seq<Access>, more: seq<Access>)
    requires base <= log && AllStatus(log[|base|..]) && AllStatus(more)
    ensures base <= log + more && AllStatus((log + more)[|base|..])
  {
    assert (log + more)[|base|..] == log[|base|..] + more;
  }

  /**
   * Prepare a read: A0 to `a0`, R/W high, the data bus turned to input with
   * the pull-ups on (`SED1520_DATA_PORT = 0xFF`).
   */
  method ReadSetup(v: Variant, m: Machine, a0: bool) returns (r: Machine)
    ensures r == Machine(m.at, Wires(m.wires.lines.Drive(A0, a0).Drive(RW, true), false, 0xFF, m.wires.seen),
      m.trace + [Drive(A0, a0), Drive(RW, true), DataDirection(false), DataPort(0xFF)],
      m.log, m.pulses, m.pins, m.halted)
  {
    r := Level(v, m, A0, a0);
    r := Level(v, r, RW, true);
    r := Direction(v, r, false);
    r := Port(v, r, 0xFF);
  }

  /**
   * What the polling loop keeps after `polls` polls from m: the pin values
   * consumed, the status reads and enable pulses recorded, and the read set-up
   * of the bus kept.
   */
  predicate Tracked(v: Variant, m: Machine, r: Machine, controller: byte, polls: nat)
  {
    && polls <= |m.pins| && r.pins == m.pins[polls..] && r.at == m.at && !r.halted && m.trace <= r.trace
    && r.wires.lines.rw && !r.wires.lines.a0
    && !m.wires.output && r.wires.output == m.wires.output && r.wires.port == m.wires.port && r.wires.lines.res == m.wires.lines.res
    && (Quiet(v, m.wires.lines) || polls > 0 ==> Quiet(v, r.wires.lines))
    && (Low(v, m.wires.lines) ==> Low(v, r.wires.lines))
    && (Quiet(v, m.wires.lines) ==> r.log == m.log + StatusReads(PollTargets(v, controller), m.pins[..polls]))
    && m.log <= r.log && AllStatus(r.log[|m.log|..])
    && r.pulses == m.pulses + Repeat(PollLine(v, controller), polls)
  }

  /** One more poll extends what the loop has tracked by one pin value. */
  method PollStep(v: Variant, m: Machine, r: Machine, controller: byte, polls: nat) returns (r': Machine)
    requires Tracked(v, m, r, controller, polls) && |r.pins| > 0
    ensures Tracked(v, m, r', controller, polls + 1)
  {
    var s := r.pins[0];
    r' := Poll(v, r, controller);
    AfterPollFacts(v, r.wires, controller);
    PollLogged(v, m, r, r', controller, polls, s);
    RepeatSnoc(PollLine(v, controller), polls);
    assert m.pins[polls + 1..] == r.pins[1..];
  }

  /** The log after one more poll: the status reads of one more sample, and still nothing but status reads. */
  lemma PollLogged(v: Variant, m: Machine, r: Machine, r': Machine, controller: byte, polls: nat, s: byte)
    requires polls < |m.pins| && s == m.pins[polls]
    requires Quiet(v, m.wires.lines) ==> Quiet(v, r.wires.lines)
    requires Quiet(v, m.wires.lines) ==> r.log == m.log + StatusReads(PollTargets(v, controller), m.pins[..polls])
    requires m.log <= r.log && AllStatus(r.log[|m.log|..])
    requires r'.log == r.log + Polled(v, r.wires.lines, controller, s)
    ensures Quiet(v, m.wires.lines) ==> r'.log == m.log + StatusReads(PollTargets(v, controller), m.pins[..polls + 1])
    ensures m.log <= r'.log && AllStatus(r'.log[|m.log|..])
  {
    PolledStatus(v, r.wires.lines, controller, s);
    if Quiet(v, m.wires.lines) {
      PolledQuiet(v, r.wires.lines, controller, s);
      assert m.pins[..polls + 1] == m.pins[..polls] + [s];
      StatusReadsSnoc(PollTargets(v, controller), m.pins[..polls], s);
    }
    StatusAppend(m.log, r.log, Polled(v, r.wires.lines, controller, s));
  }

  lemma RepeatSnoc(l: Line, n: nat)
    ensures Repeat(l, n + 1) == Repeat(l, n) + [l]
  {
    assert forall i :: 0 <= i < n + 1 ==> Repeat(l, n + 1)[i] == (Repeat(l, n) + [l])[i];
  }

  /**
   * The polls of `glcdBusyWait` over the supplied pin values: they stop at
   * the first status byte with `statusbit` clear, or once every value has
   * been read with the flag set.
   */
  method PollRun(v: Variant, m: Machine, statusbit: byte, controller: byte) returns (r: Machine, polls: nat)
    requires !m.halted && m.wires.lines.rw && !m.wires.lines.a0 && !m.wires.output
    ensures Tracked(v, m, r, controller, polls)
    ensures FirstReady(m.pins, statusbit, polls) || (polls == |m.pins| && AllBusy(m.pins, statusbit))
  {
    r := m;
    polls := 0;
    assert m.pins[..0] == [];
    while true
      invariant Tracked(v, m, r, controller, polls)
      invariant forall i :: 0 <= i < polls ==> Busy(m.pins[i], statusbit)
      decreases |r.pins|
    {
      if |r.pins| == 0 {
        return;
      }
      var s := r.pins[0];
      assert s == m.pins[polls];
      r := PollStep(v, m, r, controller, polls);
      polls := polls + 1;
      if !Busy(s, statusbit) {
        return;
      }
    }
  }

  /**
   * The polling loop of `glcdBusyWait`: poll until a status byte has
   * `statusbit` clear, or halt when the pin values run out first.
   */
  method PollLoop(v: Variant, m: Machine, statusbit: byte, controller: byte) returns (r: Machine, polls: nat)
    requires !m.halted && m.wires.lines.rw && !m.wires.lines.a0 && !m.wires.output
    ensures polls <= |m.pins| && r.pins == m.pins[polls..] && r.at == m.at && m.trace <= r.trace
    ensures r.halted <==> AllBusy(m.pins, statusbit)
    ensures r.halted ==> polls == |m.pins|
    ensures !r.halted ==> FirstReady(m.pins, statusbit, polls)
    ensures Quiet(v, m.wires.lines) ==> r.log == m.log + StatusReads(PollTargets(v, controller), m.pins[..polls])
    ensures m.log <= r.log && AllStatus(r.log[|m.log|..])
    ensures r.pulses == m.pulses + Repeat(PollLine(v, controller), polls)
    ensures Quiet(v, m.wires.lines) || polls > 0 ==> Quiet(v, r.wires.lines)
    ensures Low(v, m.wires.lines) ==> Low(v, r.wires.lines)
    ensures r.wires.lines.res == m.wires.lines.res && r.wires.output == m.wires.output && r.wires.port == m.wires.port
    ensures r.wires.lines.rw && !r.wires.lines.a0
  {
    r, polls := PollRun(v, m, statusbit, controller);
    if !FirstReady(m.pins, statusbit, polls) {
      r := Halt(r);
    }
  }

  /**
   * `glcdBusyWait(statusbit, controller)`: poll until `statusbit` is clear.
   * `polls` is how many pin values it read. With controller 0 nothing
   * happens at all. The machine halts when the pin values run out while the
   * flag is still set.
   */
  method BusyWait(v: Variant, m: Machine, statusbit: byte, controller: byte) returns (r: Machine, polls: nat)
    ensures m.halted || controller == 0 ==> r == m && polls == 0
    ensures polls <= |m.pins| && r.pins == m.pins[polls..] && r.at == m.at && m.trace <= r.trace
    ensures !m.halted && controller != 0 ==> (r.halted <==> AllBusy(m.pins, statusbit))
    ensures !m.halted && r.halted ==> r.pins == []
    ensures !m.halted && controller != 0 && !r.halted ==> FirstReady(m.pins, statusbit, polls)
    ensures Quiet(v, m.wires.lines) ==> r.log == m.log + StatusReads(PollTargets(v, controller), m.pins[..polls])
    ensures m.log <= r.log && AllStatus(r.log[|m.log|..])
    ensures r.pulses == m.pulses + Repeat(PollLine(v, controller), polls)
    ensures Quiet(v, m.wires.lines) || polls > 0 ==> Quiet(v, r.wires.lines)
    ensures Low(v, m.wires.lines) ==> Low(v, r.wires.lines)
    ensures r.wires.lines.res == m.wires.lines.res
    ensures !m.halted && controller != 0 && !r.halted ==> r.wires.output && r.wires.lines.rw && !r.wires.lines.a0
    ensures !m.halted && controller != 0 && !r.halted ==> r.wires.port == 0xFF
  {
    r := m;
    polls := 0;
    if m.halted || controller == 0 {
      return;
    }
    r, polls := PollStatus(v, m, statusbit, controller);
  }

  /**
   * The body of `glcdBusyWait` for a running machine and a nonzero mask:
   * the status-read set-up, the polls, and the data bus driven again if
   * the flag cleared.
   */
  method PollStatus(v: Variant, m: Machine, statusbit: byte, controller: byte) returns (r: Machine, polls: nat)
    requires !m.halted && controller != 0
    ensures polls <= |m.pins| && r.pins == m.pins[polls..] && r.at == m.at && m.trace <= r.trace
    ensures r.halted <==> AllBusy(m.pins, statusbit)
    ensures r.halted ==> r.pins == []
    ensures !r.halted ==> FirstReady(m.pins, statusbit, polls)
    ensures Quiet(v, m.wires.lines) ==> r.log == m.log + StatusReads(PollTargets(v, controller), m.pins[..polls])
    ensures m.log <= r.log && AllStatus(r.log[|m.log|..])
    ensures r.pulses == m.pulses + Repeat(PollLine(v, controller), polls)
    ensures Quiet(v, m.wires.lines) || polls > 0 ==> Quiet(v, r.wires.lines)
    ensures Low(v, m.wires.lines) ==> Low(v, r.wires.lines)
    ensures r.wires.lines.res == m.wires.lines.res
    ensures !r.halted ==> r.wires.output && r.wires.lines.rw && !r.wires.lines.a0 && r.wires.port == 0xFF
  {
    r := ReadSetup(v, m, false);
    r, polls := PollLoop(v, r, statusbit, controller);
    if !r.halted {
      r := Direction(v, r, true);
    }
  }

  /**
   * The bus cycle of `glcdDataWrite` for the controller c owning the column:
   * A0 high, R/W low, the byte on the data port, one write strobe for c.
   */
  method DataWriteCycle(v: Variant, m: Machine, b: byte, c: Ctrl) returns (r: Machine)
    ensures r.at == m.at && r.pins == m.pins && r.halted == m.halted && m.trace <= r.trace
    ensures Quiet(v, m.wires.lines) ==> r.log == m.log + [WriteData(c, b)]
    ensures r.pulses == m.pulses + [Strobe(v, c)]
    ensures Settled(v, m.wires, r.wires)
  {
    r := WriteSetup(v, m, true, b);
    var w := r.wires;
    r := Strobes(v, r, Bit(c));
    SettleFacts(v, w, Bit(c));
    DeliverOne(v, WithSeen(w, None), c);
  }

  /** A strobe for one controller's bit on a quiet bus reaches that controller alone, with one pulse on its enable. */
  lemma DeliverOne(v: Variant, w: Wires, c: Ctrl)
    ensures Quiet(v, w.lines) ==> Deliver(v, w, Bit(c)) == [AccessOf(w, c)]
    ensures StrobeLines(v, Bit(c)) == [Strobe(v, c)]
  {
    BitTargets(c, Left);
    BitTargets(c, Right);
  }

  /** The bus after the read strobes of `glcdDataRead` on controller c. */
  function AfterRead(v: Variant, w: Wires, c: Ctrl): Wires
  {
    if v == ChipSelect then Ungate(w) else Unstrobe(w, Bit(c))
  }

  /**
   * The read strobes of `glcdDataRead` for the controller c owning the
   * column, with A0 and R/W already high: a dummy read, then the real read
   * that samples the pins.
   */
  method DataReadCycle(v: Variant, m: Machine, c: Ctrl) returns (r: Machine)
    requires |m.pins| > 0 && m.wires.lines.rw && m.wires.lines.a0 && !m.wires.output
    ensures r.at == m.at && r.pins == m.pins[1..] && r.halted == m.halted && m.trace <= r.trace
    ensures Quiet(v, m.wires.lines) ==> r.log == m.log + [ReadData(c, None), ReadData(c, Some(m.pins[0]))]
    ensures r.pulses == m.pulses + [Strobe(v, c), Strobe(v, c)]
    ensures r.wires == AfterRead(v, m.wires, c)
  {
    BitTargets(c, Left);
    BitTargets(c, Right);
    if v == ChipSelect {
      r := GatedRead(m, Bit(c), true);
    } else {
      r := SeparateRead(m, c, true);
    }
  }

  /** The read strobes leave both chip selects high, the enables low if they were, and the reset line alone. */
  lemma AfterReadFacts(v: Variant, w: Wires, c: Ctrl)
    ensures var w' := AfterRead(v, w, c);
      && Quiet(v, w'.lines) && (Low(v, w.lines) ==> Low(v, w'.lines)) && w'.lines.res == w.lines.res
      && w'.port == w.port
  {
  }
}
