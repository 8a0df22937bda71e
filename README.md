# ArchaOS text-mode screen driver, modelled in Dafny

ArchaOS boots into an 80×25 colour text screen. Its driver (`vga.c`) owns the
memory-mapped buffer of 2000 sixteen-bit cells and a software cursor
`(cursor_x, cursor_y)`. It can:

- store one character cell;
- blank the screen;
- program the hardware cursor through the CRT controller ports 0x3D4/0x3D5;
- print a C string at the cursor, wrapping at column 80;
- print a C string centred on a row;
- show a welcome screen.

The boot routine (`kernel.c`) shows the welcome screen, homes the cursor and
prints the prompt `Arc/>`.

The model has two modules:

- `Vga` (`vga.dfy`). A `Screen` class holds the cell buffer as a fixed
  `array<uint16>`, the cursor as two integer fields, and a ghost log of
  `PortWrite(port, value)` standing in for every `outb`. Each driver routine
  is a method with the source's loops. Its `ensures` ties the new buffer,
  cursor and port log to specification functions:
  - `WriteText`: a text stored from a linear cell on;
  - `CursorAfter`: the cursor after n steps of column advance with wrap;
  - `CursorWrites`: the four port writes for a cursor position;
  - `CenterColumn`: the centring column, using C's truncating division.

  Lemmas state what those functions mean: which cells change, the closed form
  of the cursor, how the two port bytes encode the position, and the margins
  of a centred line.
- `Kernel` (`kernel.dfy`). `KernelMain` runs the boot sequence on a screen in
  any state. Its postcondition fixes the whole final screen, the cursor and
  the port log. None of them depends on the initial buffer or cursor.

Strings are C strings: a `seq<char>` that holds a NUL. `Text(str)` is the part
before the first NUL. Only 7-bit characters are allowed before the terminator.
The cell stored for character `c` is `(0x07 << 8) | c`, which is `0x0700 + c`
for these characters.

## Model

| member | source | states |
|---|---|---|
| `Vga.Text` | vga.c:53 | the text of a C string is the prefix before its first NUL: it is shorter than the string, contains no NUL, and the string holds a NUL right after it |
| `Vga.TextOfTerminated` | vga.c:82-83 | a NUL-free literal followed by a NUL is a C string whose text is exactly the literal |
| `Vga.WelcomeStringIsCString` | vga.c:82 | "Welcome to ArchaOS" is a printable C string of 18 characters, and its centring column is 31 |
| `Vga.VersionStringIsCString` | vga.c:83 | the version line is a printable C string of 14 characters, and its centring column is 33 |
| `Vga.Length` | vga.c:67-69 | the counting loop returns the index of the first NUL (no NUL before it), which is the length of the text |
| `Vga.Cell` | vga.c:20 | the stored cell has attribute byte 0x07 in the high byte and the character code in the low byte |
| `Vga.Linear` | vga.c:20 | the linear cell index `y*80+x`; for a column in [0,80) it lies in row y's block of cells `[80y, 80y+80)` |
| `Vga.WriteText` | vga.c:53-60 | storing a text from a linear cell on keeps the buffer's size |
| `Vga.WriteTextAt` | vga.c:74-76 | after storing text t from cell `start`, cell `start+i` holds the cell of `t[i]` and every cell outside `[start, start+\|t\|)` keeps its old value |
| `Vga.WriteTextSnoc` | vga.c:53-54 | storing one more character is a single update of the cell right after the text already stored |
| `Vga.Step` | vga.c:55-59 | one cursor step from a column below 80 advances the linear position by exactly one and keeps the column below 80 (and non-negative if it was) |
| `Vga.CursorAfter` | vga.c:53-60 | n cursor steps from a column below 80 advance the linear position by exactly n and keep the column below 80 (and non-negative if it was) |
| `Vga.CursorAfterClosedForm` | vga.c:55-59 | from a column below 80 and a non-negative position, n steps give `(x+n, y)` while that stays on the row, and otherwise the column and row of the new linear position (column 0 of the next row when column 80 is reached) |
| `Vga.CursorWrites` | vga.c:43-48 | exactly four writes in order: 0x3D4←0x0F, 0x3D5←low, 0x3D4←0x0E, 0x3D5←high, with `low + 256*high` equal to `y*80+x` modulo 2^16, and to `y*80+x` itself when that fits in 16 bits |
| `Vga.TruncDiv` | vga.c:71 | C division by a positive divisor: the remainder is below the divisor in magnitude and has the sign of the dividend |
| `Vga.CenterColumn` | vga.c:71 | for a line of at most 80 characters the column is at least 0, the line ends by column 80, and the left margin is at most the right margin, which is at most one more than the left |
| `Vga.CenterRow` | vga.c:72 | the centred row `25/2 + yOffset`; with no offset it is row 12, which has 12 rows above and 12 below |
| `Vga.Screen.constructor` | vga.c:7 | a screen starts with arbitrary buffer contents, the cursor globals at (0,0) and no port writes |
| `Vga.Screen.PutCharAt` | vga.c:18-21 | only cell `y*80+x` changes, and it becomes the cell of `c` |
| `Vga.Screen.Outb` | vga.c:36-38 | one port write is appended to the log |
| `Vga.Screen.SetCursor` | vga.c:40-49 | the cursor becomes (x,y) and exactly the four writes of `CursorWrites(x,y)` are appended to the log; the buffer is untouched |
| `Vga.Screen.Clear` | vga.c:24-33 | every one of the 2000 cells becomes 0x0720, the cursor is (0,0), and the log grows by the writes for position 0 |
| `Vga.Screen.Print` | vga.c:52-62 | the buffer becomes `WriteText` of the old buffer from the old linear cursor position, so only the printed cells change. The cursor becomes `CursorAfter(old cursor, \|text\|)`. The log grows by the writes for the new cursor. An empty string therefore changes no cell and no cursor coordinate and only re-issues the cursor writes |
| `Vga.Screen.PrintCenter` | vga.c:66-77 | the buffer becomes the old buffer with the text stored on row `12+yOffset` from column `(80-len)/2`; the cursor and the port log do not change |
| `Vga.Screen.ShowWelcome` | vga.c:80-91 | every cell ends 0x0720 (the centred lines drawn at rows 11 and 13 do not survive), the cursor ends at (0,0), and the log grows by three sets of writes for position 0 |
| `Kernel.PromptIsCString` | kernel.c:7 | the prompt literal is a printable C string whose text is `Arc/>` |
| `Kernel.PromptOnBlankScreen` | kernel.c:5-7 | storing `Arc/>` from cell 0 of a blank screen gives cells 0x0741 0x0772 0x0763 0x072F 0x073E and leaves every other cell 0x0720 |
| `Kernel.KernelMain` | kernel.c:4-8 | from any buffer and cursor: cells 0..4 hold `A r c / >` with attribute 0x07 and every other cell is 0x0720. The cursor is (5,0). The log ends with the writes for (0,0) four times, then those for (5,0), so the last two writes to 0x3D5 are 5 and then 0 |

## Left out

- The keyboard input pipeline (scancode decoding, the editable line buffer, the protected prompt anchor and the polling loop) has no code in vga.c or kernel.c, so it is not modelled.
- `delay` (vga.c:10-14) is a busy loop of `nop` instructions. It changes no state the model holds, so `ShowWelcome` skips it.
- The hardware is not modelled. The `outb` instruction (vga.c:36-38) becomes an entry in the ghost port log. The volatile buffer at 0xB8000 (vga.c:3, vga.c:19) becomes the `cells` array.
- Vga.Screen.PutCharAt: requires a 7-bit character. The sign extension of a signed `char` at or above 0x80 in `(0x07 << 8) | c` is not modelled.
- Vga.Screen.Print: a non-empty text requires the cursor to start below column 80 and the text to fit in the buffer. There is no scrolling or bounds check, so writes past cell 1999 are out of scope. So is the jump made when printing starts at column 80 or beyond.
- Vga.Screen.PrintCenter: a non-empty text requires every write to land inside the buffer. Within that bound, any length and any row offset are modelled, with C's truncating division.
- The cursor globals are 32-bit `int`s in the source. The model uses unbounded integers, so signed overflow of `y*80+x` for huge arguments to `vga_set_cursor` is not modelled. The conversion to `unsigned short` is modelled as reduction modulo 2^16.
- vga.h holds declarations only. It declares `vga_print_center` with one parameter, which disagrees with the two-parameter definition (vga.h:7, vga.c:66). It also declares `vga_print_char`, `vga_prompt`, `kernel_execute_command` and `beep`, which have no body in the files modelled here (vga.h:9-12). kernel.h is not part of this model.
