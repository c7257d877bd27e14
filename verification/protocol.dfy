/**
 * What the two controllers should experience, stated independently of the
 * driver's bus traffic: the commands and data each transaction delivers,
 * and where the driver's cursor goes. The driver's operations are proved
 * to produce exactly these accesses.
 */
module Protocol {
  import opened Bytes
  import opened Sed1520
  import opened Bus

  /** The driver's addressing state: logical column `lcd_x` and page `lcd_page`. */
  datatype Cursor = Cursor(x: byte, page: byte)

  /** A command delivered to every controller whose bit is in `mask`, controller 1 first. */
  function CommandFor(cmd: byte, mask: byte): seq<Access>
  {
    (if Targets(mask, Left) then [Command(Left, cmd)] else [])
    + (if Targets(mask, Right) then [Command(Right, cmd)] else [])
  }

  /**
   * Positioning both controllers for a run of writes starting at logical
   * column x of page p. From the left half the right controller is parked
   * at its column 0 so that a run crossing the middle continues there; from
   * the right half the left controller is not told anything.
   */
  function AddressFor(x: byte, p: byte): seq<Access>
  {
    if x < Half then
      [Command(Left, ColumnCommand(x)), Command(Right, ColumnCommand(0)),
       Command(Left, PageCommand(p)), Command(Right, PageCommand(p))]
    else
      [Command(Right, ColumnCommand(x - Half)), Command(Right, PageCommand(p))]
  }

  /** The reset pulse of the hardware set-up as the controllers see it: a hardware reset of each. */
  function HardResets(): seq<Access>
  {
    [HardReset(Left), HardReset(Right)]
  }

  /** The power-up sequence: reset, display on, start line 0, each to both controllers. */
  function InitFor(): seq<Access>
  {
    [Command(Left, Reset), Command(Right, Reset),
     Command(Left, DisplayOn), Command(Right, DisplayOn),
     Command(Left, DisplayStartLine), Command(Right, DisplayStartLine)]
  }

  /** A display-data read of controller c: a dummy read that samples nothing, then the read returning `value`. */
  function ReadFor(c: Ctrl, value: byte): seq<Access>
  {
    [ReadData(c, None), ReadData(c, Some(value))]
  }

  /** Whether the data transfer at cursor c runs off the right edge of the display. */
  predicate Wraps(c: Cursor)
  {
    Truncate(c.x + 1) >= XPixels
  }

  /** The cursor after one data transfer at c. */
  function Next(c: Cursor): Cursor
  {
    if Wraps(c) then Cursor(0, Truncate(c.page + 1)) else Cursor(Truncate(c.x + 1), c.page)
  }

  /** The addressing the driver re-issues after the transfer at c, if it wraps. */
  function WrapFor(c: Cursor): seq<Access>
  {
    if Wraps(c) then AddressFor(0, Truncate(c.page + 1)) else []
  }

  /** The controllers the status poll of `controller` strobes in each wiring. */
  function PollTargets(v: Variant, controller: byte): seq<Ctrl>
  {
    match v
    case ChipSelect =>
      (if Targets(controller, Left) then [Left] else []) + (if Targets(controller, Right) then [Right] else [])
    case DualEnable =>
      if Targets(controller, Left) then [Left] else [Right]
  }

  /** One status read of each of `ts`, all seeing sample s. */
  function StatusEach(ts: seq<Ctrl>, s: byte): seq<Access>
  {
    if ts == [] then [] else [ReadStatus(ts[0], Some(s))] + StatusEach(ts[1..], s)
  }

  /** The status reads of a poll that saw `samples` in turn. */
  function StatusReads(ts: seq<Ctrl>, samples: seq<byte>): seq<Access>
  {
    if samples == [] then [] else StatusEach(ts, samples[0]) + StatusReads(ts, samples[1..])
  }

  /** Reading one more sample adds that sample's status reads at the end. */
  lemma {:induction false} StatusReadsSnoc(ts: seq<Ctrl>, samples: seq<byte>, s: byte)
    ensures StatusReads(ts, samples + [s]) == StatusReads(ts, samples) + StatusEach(ts, s)
    decreases |samples|
  {
    if samples == [] {
      assert StatusReads(ts, [s]) == StatusEach(ts, s) + StatusReads(ts, []);
    } else {
      assert (samples + [s])[1..] == samples[1..] + [s];
      StatusReadsSnoc(ts, samples[1..], s);
    }
  }

  /** The data writes of one run over columns 0..n-1, each to the controller owning the column. */
  function RowFor(b: byte, n: nat): seq<Access>
    requires n <= XPixels
  {
    seq(n, i requires 0 <= i < n => WriteData(Owner(i), b))
  }

  /** One page of the clearing: address it, 122 zero writes, and the wrap to the next page. */
  function PageFor(j: byte): seq<Access>
  {
    AddressFor(0, j) + RowFor(0, XPixels) + AddressFor(0, Truncate(j + 1))
  }

  /** Page j of the clearing after i of its 122 writes: the addressing, the writes so far, and the wrap once all are done. */
  function RowSoFar(j: byte, i: nat): seq<Access>
    requires i <= XPixels
  {
    AddressFor(0, j) + RowFor(0, i) + (if i == XPixels then AddressFor(0, Truncate(j + 1)) else [])
  }

  /** The first n pages of the clearing. */
  function PagesFor(n: nat): seq<Access>
    requires n <= Pages
  {
    if n == 0 then [] else PagesFor(n - 1) + PageFor(n - 1)
  }

  /** Clearing the screen: every page in turn, then the cursor back to the top left. */
  function ClearFor(): seq<Access>
  {
    PagesFor(Pages) + AddressFor(0, 0)
  }

  /** The display data written by a sequence of accesses, per controller. */
  function Written(s: seq<Access>, c: Ctrl): seq<byte>
  {
    if s == [] then []
    else Written(s[..|s| - 1], c) + (if s[|s| - 1].WriteData? && s[|s| - 1].ctrl == c then [s[|s| - 1].value] else [])
  }

  /** A run over one more column adds that column's write at the end. */
  lemma RowSnoc(b: byte, n: nat)
    requires n < XPixels
    ensures RowFor(b, n + 1) == RowFor(b, n) + [WriteData(Owner(n), b)]
  {
    assert forall i :: 0 <= i < n + 1 ==> RowFor(b, n + 1)[i] == (RowFor(b, n) + [WriteData(Owner(n), b)])[i];
  }

  /** What a concatenation writes is what each part writes, in order. */
  lemma {:induction false} WrittenAppend(a: seq<Access>, b: seq<Access>, c: Ctrl)
    ensures Written(a + b, c) == Written(a, c) + Written(b, c)
    decreases |b|
  {
    if b == [] {
      assert a + b == a;
    } else {
      var b' := b[..|b| - 1];
      assert (a + b)[..|a + b| - 1] == a + b';
      WrittenAppend(a, b', c);
    }
  }

  /** Accesses that are not data writes write nothing. */
  lemma {:induction false} WrittenNone(s: seq<Access>, c: Ctrl)
    requires forall i :: 0 <= i < |s| ==> !s[i].WriteData?
    ensures Written(s, c) == []
    decreases |s|
  {
    if s != [] {
      WrittenNone(s[..|s| - 1], c);
    }
  }

  /** n copies of byte b. */
  function Fill(n: nat, b: byte): seq<byte>
  {
    seq(n, _ => b)
  }

  /** n zero bytes. */
  function Zeros(n: nat): seq<byte>
  {
    Fill(n, 0)
  }

  lemma ZerosAppend(a: nat, b: nat)
    ensures Zeros(a) + Zeros(b) == Zeros(a + b)
  {
    assert forall i :: 0 <= i < a + b ==> (Zeros(a) + Zeros(b))[i] == Zeros(a + b)[i];
  }

  /**
   * A run over columns 0..n-1 writes the first min(n, 61) bytes to the left
   * controller and the rest to the right one.
   */
  lemma {:induction false} RowWritten(b: byte, n: nat)
    requires n <= XPixels
    ensures Written(RowFor(b, n), Left) == Fill(if n < Half then n else Half, b)
    ensures Written(RowFor(b, n), Right) == Fill(if n < Half then 0 else n - Half, b)
    decreases n
  {
    if n > 0 {
      RowWritten(b, n - 1);
      RowSnoc(b, n - 1);
      var s := RowFor(b, n);
      assert s[..|s| - 1] == RowFor(b, n - 1);
    }
  }

  /** Addressing writes no display data. */
  lemma AddressWritesNothing(x: byte, p: byte, c: Ctrl)
    ensures Written(AddressFor(x, p), c) == []
  {
    WrittenNone(AddressFor(x, p), c);
  }

  /** Each page of the clearing writes 61 zero bytes to each controller. */
  lemma PageWritten(j: byte, c: Ctrl)
    ensures Written(PageFor(j), c) == Zeros(Half)
  {
    var before, row, after := AddressFor(0, j), RowFor(0, XPixels), AddressFor(0, Truncate(j + 1));
    assert PageFor(j) == before + row + after;
    AddressWritesNothing(0, j, c);
    AddressWritesNothing(0, Truncate(j + 1), c);
    WrittenAround(before, row, after, c);
    FullRowWritten(c);
  }

  /** A full run of zeros over the 122 columns writes 61 zero bytes to each controller. */
  lemma FullRowWritten(c: Ctrl)
    ensures Written(RowFor(0, XPixels), c) == Zeros(Half)
  {
    RowWritten(0, XPixels);
    Geometry();
  }

  /** Accesses that write nothing to c around a run leave what c is written unchanged. */
  lemma WrittenAround(before: seq<Access>, run: seq<Access>, after: seq<Access>, c: Ctrl)
    requires Written(before, c) == [] && Written(after, c) == []
    ensures Written(before + run + after, c) == Written(run, c)
  {
    WrittenAppend(before, run, c);
    WrittenAppend(before + run, after, c);
  }

  /** Zero runs of length k and 61 written one after the other make a zero run of length k + 61. */
  lemma ZerosConcat(a: seq<Access>, b: seq<Access>, c: Ctrl, k: nat)
    requires Written(a, c) == Zeros(k) && Written(b, c) == Zeros(Half)
    ensures Written(a + b, c) == Zeros(k + Half)
  {
    WrittenAppend(a, b, c);
    ZerosAppend(k, Half);
  }

  lemma PageCount(n: nat)
    requires 0 < n
    ensures 0 <= (n - 1) * Half && (n - 1) * Half + Half == n * Half
  {
  }

  /** The first n pages of the clearing write 61 zero bytes per page to each controller. */
  lemma {:induction false} PagesWritten(n: nat, c: Ctrl)
    requires n <= Pages
    ensures Written(PagesFor(n), c) == Zeros(n * Half)
    decreases n
  {
    if n == 0 {
      assert Zeros(0) == [];
    } else {
      PageCount(n);
      PagesWritten(n - 1, c);
      PageWritten(n - 1, c);
      ZerosConcat(PagesFor(n - 1), PageFor(n - 1), c, (n - 1) * Half);
    }
  }

  /**
   * Clearing the screen writes exactly 4 x 61 = 244 zero bytes to each
   * controller, 488 data writes in all.
   */
  lemma ClearWritten(c: Ctrl)
    ensures Written(ClearFor(), c) == Zeros(Pages * Half)
    ensures |Written(ClearFor(), c)| == 244
  {
    var pages := PagesFor(Pages);
    PagesWritten(Pages, c);
    AddressWritesNothing(0, 0, c);
    WrittenAppend(pages, AddressFor(0, 0), c);
    assert Written(ClearFor(), c) == Written(pages, c) + [];
    Geometry();
  }

  /** The position of cursor c in raster order, page by page. */
  function Linear(c: Cursor): int
  {
    c.page * XPixels + c.x
  }

  /**
   * On the display, with a page below 255, a transfer moves the cursor to
   * the next position in raster order and keeps it on the display's columns.
   */
  lemma NextIsRaster(c: Cursor)
    requires c.x < XPixels && c.page < 255
    ensures Linear(Next(c)) == Linear(c) + 1
    ensures Next(c).x < XPixels
    ensures Wraps(c) <==> c.x == XPixels - 1
  {
  }

  /** The cursor after n transfers from c. */
  function Run(c: Cursor, n: nat): Cursor
  {
    if n == 0 then c else Next(Run(c, n - 1))
  }

  /**
   * 122 transfers from column 0 of page p wrap exactly once: before the last
   * one the cursor is still on page p, after it at column 0 of page p + 1.
   */
  lemma {:induction false} RunAcrossPage(p: byte, n: nat)
    requires n <= XPixels
    ensures Run(Cursor(0, p), n) == if n < XPixels then Cursor(n, p) else Cursor(0, Truncate(p + 1))
    ensures forall k :: 0 <= k < n ==> !Wraps(Run(Cursor(0, p), k)) || k == XPixels - 1
    decreases n
  {
    if n > 0 {
      RunAcrossPage(p, n - 1);
    }
  }

  /**
   * Each write of page j's run adds its own write, and the last one also the
   * wrap to the next page: what the cursor update after the write at
   * column i re-issues.
   */
  lemma RowSoFarSnoc(j: byte, i: nat)
    requires i < XPixels
    ensures RowSoFar(j, i + 1) == RowSoFar(j, i) + [WriteData(Owner(i), 0)] + WrapFor(Cursor(i, j))
    ensures RowSoFar(j, 0) == AddressFor(0, j)
    ensures RowSoFar(j, XPixels) == PageFor(j)
  {
    RowSnoc(0, i);
    assert RowFor(0, 0) == [];
  }
}
