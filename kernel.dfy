/**
 * The ArchaOS boot routine: show the welcome screen, home the cursor and
 * print the prompt.
 */
module Kernel {
  import opened Vga

  /** The prompt literal printed by kernel_main. */
  const PromptString: seq<char> := "Arc/>\0"

  /** The prompt is a printable C string of 5 characters. */
  lemma PromptIsCString()
    ensures IsCString(PromptString) && Text(PromptString) == "Arc/>"
  {
    var prompt := "Arc/>";
    assert PromptString == prompt + [Nul];
    TextOfTerminated(prompt);
  }

  /** The prompt written from cell 0 onto a blank screen: five prompt cells, then blanks. */
  lemma PromptOnBlankScreen(blank: seq<uint16>)
    requires |blank| == CellCount
    requires forall k :: 0 <= k < CellCount ==> blank[k] == Blank
    ensures var screen := WriteText(blank, 0, "Arc/>");
      screen[..5] == [0x0741, 0x0772, 0x0763, 0x072F, 0x073E] &&
      forall k :: 5 <= k < CellCount ==> screen[k] == Blank
  {
    var screen := WriteText(blank, 0, "Arc/>");
    forall k | 0 <= k < CellCount
      ensures screen[k] == if k < 5 then Cell("Arc/>"[k]) else Blank
    {
      WriteTextAt(blank, 0, "Arc/>", k);
    }
  }

  /**
   * kernel_main. Whatever the buffer held and wherever the cursor was, the
   * screen ends blank except for the prompt in the first five cells of
   * row 0, with the cursor just after it.
   */
  method KernelMain(screen: Screen)
    requires screen.Valid()
    modifies screen.cells, screen`cursorX, screen`cursorY, screen`ports
    ensures screen.Valid()
    ensures screen.cells[..5] == [0x0741, 0x0772, 0x0763, 0x072F, 0x073E]
    ensures forall k :: 5 <= k < CellCount ==> screen.cells[k] == Blank
    ensures screen.cursorX == 5 && screen.cursorY == 0
    ensures screen.ports == old(screen.ports) + CursorWrites(0, 0) + CursorWrites(0, 0)
      + CursorWrites(0, 0) + CursorWrites(0, 0) + CursorWrites(5, 0)
    ensures var n := |screen.ports|;
      screen.ports[n - 3] == PortWrite(CrtcData, 5) && screen.ports[n - 1] == PortWrite(CrtcData, 0)
  {
    screen.ShowWelcome();
    screen.SetCursor(0, 0);
    ghost var blank := screen.cells[..];
    PromptIsCString();
    screen.Print(PromptString);
    CursorAfterClosedForm(0, 0, 5);
    PromptOnBlankScreen(blank);
  }
}
