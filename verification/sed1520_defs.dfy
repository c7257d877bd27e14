/**
 * The SED1520 command set, status flags, controller mask bits and display
 * geometry, together with the command bytes the driver composes from them
 * and the routing of a logical column to one of the two controllers.
 */
module Sed1520 {
  import opened Bytes

  // Command set of the controller.
  const DisplayOn: byte := 0xAF
  const DisplayOff: byte := 0xAE
  const DisplayStartLine: byte := 0xC0
  const SetPageAddress: byte := 0xB8
  const SetColumnAddress: byte := 0x00
  const AdcForward: byte := 0xA0
  const AdcReverse: byte := 0xA1
  const StaticDriveOn: byte := 0xA5
  const StaticDriveOff: byte := 0xA4
  const DutyRatio16: byte := 0xA8
  const DutyRatio32: byte := 0xA9
  const ReadModifyWrite: byte := 0xE0
  const EndReadModify: byte := 0xEE
  const Reset: byte := 0xE2

  // Status flags of the status byte.
  const StatusBusy: byte := 0x80
  const StatusReset: byte := 0x10

  // Controller mask bits: controller 1 drives the left half, controller 2 the right half.
  const Ctrl1: byte := 0x01
  const Ctrl2: byte := 0x02

  // Display size in pixels.
  const XPixels: nat := 122
  const YPixels: nat := 32

  /** Columns owned by each controller. */
  const Half: nat := XPixels / 2

  /** Number of 8-pixel pages. */
  const Pages: nat := YPixels / 8

  /** One of the two physical controllers. */
  datatype Ctrl = Left | Right

  /** The mask bit that selects a controller. */
  function Bit(c: Ctrl): byte
  {
    match c
    case Left => Ctrl1
    case Right => Ctrl2
  }

  /** The mask `CTRL1 + CTRL2` that addresses both controllers. */
  function Both(): byte
  {
    Ctrl1 + Ctrl2
  }

  /** The two controller bits are disjoint, so their sum is their union and keeps each bit. */
  lemma BothIsUnion()
    ensures Both() == BitOr(Ctrl1, Ctrl2)
    ensures BitAnd(Both(), Ctrl1) == Ctrl1 && BitAnd(Both(), Ctrl2) == Ctrl2
    ensures BitAnd(Ctrl1, Ctrl2) == 0
  {
  }

  /** True when `mask` has controller c's bit set (`mask & CTRLn` in the driver). */
  predicate Targets(mask: byte, c: Ctrl)
  {
    BitAnd(mask, Bit(c)) != 0
  }

  /** The two mask bits test independently of each other. */
  lemma MaskBitsIndependent(mask: byte)
    ensures Targets(mask, Left) <==> mask % 2 == 1
    ensures Targets(mask, Right) <==> (mask / 2) % 2 == 1
    ensures Targets(BitAnd(mask, Ctrl1), Left) == Targets(mask, Left)
    ensures !Targets(BitAnd(mask, Ctrl1), Right)
    ensures Targets(BitAnd(mask, Ctrl2), Right) == Targets(mask, Right)
    ensures !Targets(BitAnd(mask, Ctrl2), Left)
    ensures BitAnd(mask, Ctrl1) == 0 <==> !Targets(mask, Left)
    ensures BitAnd(mask, Ctrl2) == 0 <==> !Targets(mask, Right)
  {
  }

  /** Each controller's own bit selects it and only it; `CTRL1 + CTRL2` selects both. */
  lemma BitTargets(c: Ctrl, d: Ctrl)
    ensures Targets(Bit(c), d) <==> c == d
    ensures Targets(Both(), d)
  {
  }

  /** `SET_COLUMN_ADDRESS | col`. The opcode is zero, so adding the column to it is the same. */
  function ColumnCommand(col: byte): byte
  {
    SetColumnAddress + col
  }

  /**
   * The column command is the bitwise or of the driver's expression for
   * every column byte; for a column of one controller (0..60) it stays
   * below 0x40, clear of the opcode bits of the other commands.
   */
  lemma ColumnIsOr(col: byte)
    ensures ColumnCommand(col) == BitOr(SetColumnAddress, col)
    ensures col < Half ==> ColumnCommand(col) < 0x40
  {
    Geometry();
    if col < 0x40 {
    } else if col < 0x80 {
    } else if col < 0xC0 {
    } else {
    }
  }

  /**
   * `SET_PAGE_ADDRESS | page`. The opcode's low three bits are clear, so a
   * page below 8 is simply added to it.
   */
  function PageCommand(page: byte): byte
  {
    if page < 8 then SetPageAddress + page else BitOr(SetPageAddress, page)
  }

  /** The page command is the bitwise or of the driver's expression for every page byte. */
  lemma PageIsOr(page: byte)
    ensures PageCommand(page) == BitOr(SetPageAddress, page)
  {
  }

  /**
   * `DISPLAY_START_LINE | line`. The opcode's low six bits are clear, so a
   * line below 64 is simply added to it.
   */
  function StartLineCommand(line: byte): byte
  {
    if line < 0x40 then DisplayStartLine + line else BitOr(DisplayStartLine, line)
  }

  /** The start-line command is the bitwise or of the driver's expression for every line byte. */
  lemma StartLineIsOr(line: byte)
    ensures StartLineCommand(line) == BitOr(DisplayStartLine, line)
  {
  }

  /** `DISPLAY_START_LINE | 0` is the start-line command itself. */
  lemma StartLineZero()
    ensures StartLineCommand(0) == DisplayStartLine
  {
  }

  /** The geometry splits into two equal halves and four pages. */
  lemma Geometry()
    ensures Half + Half == XPixels && Half == 61
    ensures Pages == 4 && Pages * 8 == YPixels
  {
  }

  /**
   * The two status flags are distinct single bits: `s & STATUS_BUSY` tests
   * bit 7 of a status byte s and `s & STATUS_RESET` tests bit 4.
   */
  lemma StatusFlags(s: byte)
    ensures BitAnd(StatusBusy, StatusReset) == 0
    ensures BitAnd(s, StatusBusy) != 0 <==> s >= 0x80
    ensures BitAnd(s, StatusReset) != 0 <==> (s / 0x10) % 2 == 1
  {
  }

  /** The controller owning logical column x. */
  function Owner(x: byte): Ctrl
  {
    if x < Half then Left else Right
  }

  /** The column of x on its owning controller. */
  function Local(x: byte): int
  {
    if x < Half then x else x - Half
  }

  /** The logical column of local column k on controller c. */
  function Global(c: Ctrl, k: int): byte
    requires 0 <= k < Half
  {
    if c == Left then k else k + Half
  }

  /**
   * Routing is a bijection between the display's columns 0..121 and the
   * pairs (controller, local column 0..60): `Global` inverts it both ways.
   */
  lemma RouteRoundTrip()
    ensures forall x: byte :: x < XPixels ==> 0 <= Local(x) < Half && Global(Owner(x), Local(x)) == x
    ensures forall c: Ctrl, k: int :: 0 <= k < Half ==> Global(c, k) < XPixels && Owner(Global(c, k)) == c && Local(Global(c, k)) == k
  {
  }
}
