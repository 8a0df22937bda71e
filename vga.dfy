/**
 * The 80x25 colour text-mode screen driver of ArchaOS.
 *
 * The memory-mapped buffer at 0xB8000 is an array of 2000 sixteen-bit cells
 * (attribute byte high, character byte low); the software cursor is a pair of
 * integers; every `outb` to the CRT controller is appended to a ghost log.
 * Strings are C strings: a sequence of characters holding a NUL terminator,
 * whose text is everything before the first NUL.
 */
module Vga {

  newtype uint8 = x: int | 0 <= x < 0x100
  newtype uint16 = x: int | 0 <= x < 0x1_0000

  const Width: int := 80
  const Height: int := 25
  const CellCount: int := Width * Height

  /** Light grey on black, the attribute of every cell the driver writes. */
  const Attribute: int := 0x07

  /** CRT controller index and data ports, and the cursor location registers. */
  const CrtcIndex: uint16 := 0x3D4
  const CrtcData: uint16 := 0x3D5
  const CursorLowRegister: uint8 := 0x0F
  const CursorHighRegister: uint8 := 0x0E

  const Nul: char := '\0'

  /** One byte written to one I/O port. */
  datatype PortWrite = PortWrite(port: uint16, value: uint8)

  // ---------------------------------------------------------------- strings

  /** The driver only handles 7-bit characters. */
  predicate Ascii7(t: seq<char>) {
    forall i :: 0 <= i < |t| ==> t[i] as int < 0x80
  }

  /** The text of a C string: the characters before its first NUL. */
  function Text(str: seq<char>): (t: seq<char>)
    requires Nul in str
    ensures |t| < |str| && str[|t|] == Nul
    ensures t == str[..|t|] && Nul !in t
  {
    if str[0] == Nul then [] else
      assert str == [str[0]] + str[1..];
      [str[0]] + Text(str[1..])
  }

  /** A C string the driver may print: terminated, and 7-bit before the terminator. */
  predicate IsCString(str: seq<char>) {
    Nul in str && Ascii7(Text(str))
  }

  /** A literal followed by its terminator is a C string whose text is the literal. */
  lemma {:induction false} TextOfTerminated(t: seq<char>)
    requires Nul !in t
    ensures Nul in t + [Nul] && Text(t + [Nul]) == t
  {
    assert (t + [Nul])[|t|] == Nul;
    if t != [] {
      assert (t + [Nul])[1..] == t[1..] + [Nul];
      TextOfTerminated(t[1..]);
    }
  }

  /** The length-counting loop of vga_print_center: `while (*s++) len++;`. */
  method Length(str: seq<char>) returns (len: nat)
    requires Nul in str
    ensures len < |str| && str[len] == Nul && Nul !in str[..len]
    ensures len == |Text(str)|
  {
    len := 0;
    while str[len] != Nul
      invariant len <= |Text(str)|
      decreases |str| - len
    {
      len := len + 1;
    }
  }

  // ------------------------------------------------------------------ cells

  /** The cell `(0x07 << 8) | c` that putchar_at stores for a 7-bit character. */
  function Cell(c: char): (v: uint16)
    requires c as int < 0x80
    ensures v as int / 0x100 == Attribute
    ensures v as int % 0x100 == c as int
  {
    (Attribute * 0x100 + c as int) as uint16
  }

  /** The cell vga_clear stores everywhere: a space on the default attribute (0x0720). */
  const Blank: uint16 := Cell(' ')

  /** The linear cell index of column x on row y; an on-screen column lies in row y's block of 80 cells. */
  function Linear(x: int, y: int): (k: int)
    ensures 0 <= x < Width ==> y * Width <= k < (y + 1) * Width
  {
    y * Width + x
  }

  /**
   * The buffer after the characters of t are stored, one after another, from
   * linear cell `start` on (the text must fit when it is not empty).
   */
  function WriteText(cells: seq<uint16>, start: int, t: seq<char>): (r: seq<uint16>)
    requires Ascii7(t)
    requires t == [] || (0 <= start && start + |t| <= |cells|)
    ensures |r| == |cells|
    decreases |t|
  {
    if t == [] then cells
    else WriteText(cells[start := Cell(t[0])], start + 1, t[1..])
  }

  /** Writing a text changes exactly the cells it covers: cell start+i holds t[i], the others keep their value. */
  lemma {:induction false} WriteTextAt(cells: seq<uint16>, start: int, t: seq<char>, k: int)
    requires Ascii7(t)
    requires t == [] || (0 <= start && start + |t| <= |cells|)
    requires 0 <= k < |cells|
    ensures WriteText(cells, start, t)[k] ==
      if start <= k < start + |t| then Cell(t[k - start]) else cells[k]
    decreases |t|
  {
    if t != [] {
      WriteTextAt(cells[start := Cell(t[0])], start + 1, t[1..], k);
    }
  }

  /** Writing one more character is one more cell update, at the cell after the text. */
  lemma {:induction false} WriteTextSnoc(cells: seq<uint16>, start: int, t: seq<char>, c: char)
    requires Ascii7(t) && c as int < 0x80
    requires 0 <= start && start + |t| < |cells|
    ensures Ascii7(t + [c])
    ensures WriteText(cells, start, t + [c]) == WriteText(cells, start, t)[start + |t| := Cell(c)]
    decreases |t|
  {
    if t == [] {
      assert ([] + [c])[1..] == [];
    } else {
      assert (t + [c])[1..] == t[1..] + [c];
      WriteTextSnoc(cells[start := Cell(t[0])], start + 1, t[1..], c);
    }
  }

  // ----------------------------------------------------------------- cursor

  /** One step of vga_print's cursor: the next column, wrapping to the next row at column 80. */
  function Step(x: int, y: int): (r: (int, int))
    ensures x < Width ==> Linear(r.0, r.1) == Linear(x, y) + 1 && r.0 < Width
    ensures x < Width && 0 <= x ==> 0 <= r.0
  {
    if x + 1 >= Width then (0, y + 1) else (x + 1, y)
  }

  /** The cursor after n steps. */
  function CursorAfter(x: int, y: int, n: nat): (r: (int, int))
    ensures x < Width ==> Linear(r.0, r.1) == Linear(x, y) + n && r.0 < Width
    ensures x < Width && 0 <= x ==> 0 <= r.0
  {
    if n == 0 then (x, y) else
      var p := CursorAfter(x, y, n - 1);
      Step(p.0, p.1)
  }

  /**
   * Closed form of the cursor after printing n characters: the column moves
   * right while it stays on the row; once it has wrapped, the cursor is the
   * column and row of the new linear position.
   */
  lemma {:induction false} CursorAfterClosedForm(x: int, y: int, n: nat)
    requires x < Width && 0 <= Linear(x, y)
    ensures CursorAfter(x, y, n) ==
      if x + n < Width then (x + n, y)
      else ((Linear(x, y) + n) % Width, (Linear(x, y) + n) / Width)
  {
    if n > 0 {
      CursorAfterClosedForm(x, y, n - 1);
      var p := CursorAfter(x, y, n - 1);
      var q := CursorAfter(x, y, n);
      if x + n >= Width {
        assert 0 <= q.0 < Width by {
          if x + n - 1 >= Width {
            assert 0 <= p.0;
          } else {
            assert p.0 == Width - 1;
          }
        }
        assert Linear(q.0, q.1) == Linear(x, y) + n;
      }
    }
  }

  /**
   * The four port writes of vga_set_cursor: select register 0x0F and send the
   * low byte of the position, select register 0x0E and send the high byte.
   * The position is `y*80+x` converted to unsigned short.
   */
  function CursorWrites(x: int, y: int): (w: seq<PortWrite>)
    ensures |w| == 4
    ensures w[0] == PortWrite(CrtcIndex, CursorLowRegister)
    ensures w[2] == PortWrite(CrtcIndex, CursorHighRegister)
    ensures w[1].port == CrtcData && w[3].port == CrtcData
    ensures w[1].value as int + 0x100 * w[3].value as int == Linear(x, y) % 0x1_0000
    ensures 0 <= Linear(x, y) < 0x1_0000 ==>
      w[1].value as int + 0x100 * w[3].value as int == Linear(x, y)
  {
    var pos := Linear(x, y) % 0x1_0000;
    // pos & 0xFF and (pos >> 8) & 0xFF on a non-negative 16-bit value
    [PortWrite(CrtcIndex, CursorLowRegister), PortWrite(CrtcData, (pos % 0x100) as uint8),
     PortWrite(CrtcIndex, CursorHighRegister), PortWrite(CrtcData, (pos / 0x100 % 0x100) as uint8)]
  }

  // -------------------------------------------------------------- centring

  /** C's integer division, which truncates toward zero. */
  function TruncDiv(a: int, b: int): (q: int)
    requires b > 0
    ensures a >= 0 ==> 0 <= a - q * b < b
    ensures a < 0 ==> -b < a - q * b <= 0
  {
    if a >= 0 then a / b else -((-a) / b)
  }

  /**
   * The first column of a centred line of len characters, `(80 - len) / 2`.
   * A line that fits has a left margin no wider than its right margin, and
   * the right margin is at most one wider.
   */
  function CenterColumn(len: int): (x: int)
    ensures 0 <= len <= Width ==> 0 <= x && x + len <= Width
    ensures 0 <= len <= Width ==> x <= Width - len - x <= x + 1
    ensures len > Width ==> x <= 0
  {
    TruncDiv(Width - len, 2)
  }

  /** The row of a centred line, `VGA_HEIGHT / 2 + y_offset`; without an offset as many rows lie above it as below. */
  function CenterRow(yOffset: int): (y: int)
    ensures y - yOffset == Height - 1 - (y - yOffset)
  {
    Height / 2 + yOffset
  }

  // ----------------------------------------------------------------- screen

  /** The two C-string literals of vga_show_welcome. */
  const WelcomeString: seq<char> := "Welcome to ArchaOS\0"
  const VersionString: seq<char> := "V0.1 \"Choatic\"\0"

  /** The welcome line is a printable C string of 18 characters, centred at column 31. */
  lemma WelcomeStringIsCString()
    ensures IsCString(WelcomeString) && |Text(WelcomeString)| == 18
    ensures CenterColumn(18) == 31
  {
    var welcome := "Welcome to ArchaOS";
    assert WelcomeString == welcome + [Nul] && Ascii7(welcome);
    TextOfTerminated(welcome);
  }

  /** The version line is a printable C string of 14 characters, centred at column 33. */
  lemma VersionStringIsCString()
    ensures IsCString(VersionString) && |Text(VersionString)| == 14
    ensures CenterColumn(14) == 33
  {
    var version := "V0.1 \"Choatic\"";
    assert VersionString == version + [Nul] && Ascii7(version);
    TextOfTerminated(version);
  }

  /** The screen: the cell buffer, the software cursor and the port-write log. */
  class Screen {
    const cells: array<uint16>
    var cursorX: int
    var cursorY: int
    ghost var ports: seq<PortWrite>

    ghost predicate Valid() {
      cells.Length == CellCount
    }

    /** Power-on state: whatever the buffer holds, the cursor globals at (0,0), no port writes yet. */
    constructor (initial: seq<uint16>)
      requires |initial| == CellCount
      ensures Valid() && fresh(cells)
      ensures cells[..] == initial
      ensures cursorX == 0 && cursorY == 0 && ports == []
    {
      cells := new uint16[CellCount](i => if 0 <= i < |initial| then initial[i] else 0);
      cursorX, cursorY := 0, 0;
      ports := [];
    }

    /** putchar_at: store one character cell; no other cell changes. */
    method PutCharAt(c: char, x: int, y: int)
      requires Valid() && c as int < 0x80
      requires 0 <= Linear(x, y) < CellCount
      modifies cells
      ensures cells[..] == old(cells[..])[Linear(x, y) := Cell(c)]
    {
      cells[Linear(x, y)] := Cell(c);
    }

    /** outb: one byte to one port, recorded in the log. */
    method Outb(port: uint16, value: uint8)
      modifies this`ports
      ensures ports == old(ports) + [PortWrite(port, value)]
    {
      ports := ports + [PortWrite(port, value)];
    }

    /** vga_set_cursor: record the cursor and program the CRT controller. */
    method SetCursor(x: int, y: int)
      modifies this`cursorX, this`cursorY, this`ports
      ensures cursorX == x && cursorY == y
      ensures ports == old(ports) + CursorWrites(x, y)
    {
      cursorX := x;
      cursorY := y;
      var pos := Linear(x, y) % 0x1_0000;
      Outb(CrtcIndex, CursorLowRegister);
      Outb(CrtcData, (pos % 0x100) as uint8);
      Outb(CrtcIndex, CursorHighRegister);
      Outb(CrtcData, (pos / 0x100 % 0x100) as uint8);
    }

    /** vga_clear: blank every cell, then home the cursor. */
    method Clear()
      requires Valid()
      modifies cells, this`cursorX, this`cursorY, this`ports
      ensures Valid()
      ensures forall k :: 0 <= k < CellCount ==> cells[k] == Blank
      ensures cursorX == 0 && cursorY == 0
      ensures ports == old(ports) + CursorWrites(0, 0)
    {
      for y := 0 to Height
        invariant forall k :: 0 <= k < Linear(0, y) ==> cells[k] == Blank
        invariant ports == old(ports)
      {
        for x := 0 to Width
          invariant forall k :: 0 <= k < Linear(x, y) ==> cells[k] == Blank
          invariant ports == old(ports)
        {
          PutCharAt(' ', x, y);
        }
      }
      cursorX := 0;
      cursorY := 0;
      SetCursor(cursorX, cursorY);
    }

    /**
     * vga_print: store the text of str from the cursor on, advancing the
     * cursor one cell per character (with wrap at column 80 and no scrolling),
     * then program the hardware cursor.
     */
    method Print(str: seq<char>)
      requires Valid() && IsCString(str)
      requires Text(str) != [] ==>
        cursorX < Width && 0 <= Linear(cursorX, cursorY) &&
        Linear(cursorX, cursorY) + |Text(str)| <= CellCount
      modifies cells, this`cursorX, this`cursorY, this`ports
      ensures Valid()
      ensures cells[..] == WriteText(old(cells[..]), old(Linear(cursorX, cursorY)), Text(str))
      ensures (cursorX, cursorY) == CursorAfter(old(cursorX), old(cursorY), |Text(str)|)
      ensures ports == old(ports) + CursorWrites(cursorX, cursorY)
    {
      ghost var t := Text(str);
      ghost var start := Linear(cursorX, cursorY);
      ghost var x0, y0 := cursorX, cursorY;
      var i := 0;
      while str[i] != Nul
        invariant 0 <= i <= |t|
        invariant (cursorX, cursorY) == CursorAfter(x0, y0, i)
        invariant cells[..] == WriteText(old(cells[..]), start, t[..i])
        invariant ports == old(ports)
        decreases |t| - i
      {
        assert str[i] == t[i] && t[..i + 1] == t[..i] + [t[i]];
        assert Linear(cursorX, cursorY) == start + i;
        WriteTextSnoc(old(cells[..]), start, t[..i], t[i]);
        PutCharAt(str[i], cursorX, cursorY);
        ghost var before := (cursorX, cursorY);
        cursorX := cursorX + 1;
        if cursorX >= Width {
          cursorX := 0;
          cursorY := cursorY + 1;
        }
        assert (cursorX, cursorY) == Step(before.0, before.1);
        i := i + 1;
      }
      assert t[..i] == t;
      SetCursor(cursorX, cursorY);
    }

    /**
     * vga_print_center: store the text of str on row 12 + yOffset from the
     * centring column on; the cursor and the hardware cursor are untouched.
     */
    method PrintCenter(str: seq<char>, yOffset: int)
      requires Valid() && IsCString(str)
      requires Text(str) != [] ==>
        0 <= Linear(CenterColumn(|Text(str)|), CenterRow(yOffset)) &&
        Linear(CenterColumn(|Text(str)|), CenterRow(yOffset)) + |Text(str)| <= CellCount
      modifies cells
      ensures cells[..] == WriteText(old(cells[..]),
        Linear(CenterColumn(|Text(str)|), CenterRow(yOffset)), Text(str))
    {
      var len := Length(str);
      ghost var t := Text(str);
      var x := TruncDiv(Width - len, 2);
      var y := Height / 2 + yOffset;
      for i := 0 to len
        invariant cells[..] == WriteText(old(cells[..]), Linear(x, y), t[..i])
      {
        assert str[i] == t[i] && t[..i + 1] == t[..i] + [t[i]];
        WriteTextSnoc(old(cells[..]), Linear(x, y), t[..i], t[i]);
        PutCharAt(str[i], x + i, y);
      }
      assert t[..len] == t;
    }

    /**
     * vga_show_welcome: clear, draw the two centred welcome lines, wait,
     * clear again and home the cursor. Nothing of the welcome lines survives.
     */
    method ShowWelcome()
      requires Valid()
      modifies cells, this`cursorX, this`cursorY, this`ports
      ensures Valid()
      ensures forall k :: 0 <= k < CellCount ==> cells[k] == Blank
      ensures cursorX == 0 && cursorY == 0
      ensures ports == old(ports) + CursorWrites(0, 0) + CursorWrites(0, 0) + CursorWrites(0, 0)
    {
      Clear();
      WelcomeStringIsCString();
      PrintCenter(WelcomeString, -1);
      VersionStringIsCString();
      PrintCenter(VersionString, 1);
      // delay(500000000) has no observable effect on this state
      Clear();
      cursorX := 0;
      cursorY := 0;
      SetCursor(cursorX, cursorY);
    }
  }
}
