/** The code editor's line buffer: a list of lines and a cursor (column
    `cx`, line `cy`) edited one key press at a time. */
module Editor {

  datatype Key = Up | Down | Left | Right | Return | Backspace | Tab | Other

  /** A key press: the key, and the text it types (empty for keys such as
      Shift that type nothing). */
  datatype KeyEvent = KeyDown(key: Key, text: string)

  datatype Buffer = Buffer(lines: seq<string>, cx: int, cy: int)

  /** At least one line, and the cursor inside the current line. */
  predicate Valid(b: Buffer)
  {
    |b.lines| > 0 && 0 <= b.cy < |b.lines| && 0 <= b.cx <= |b.lines[b.cy]|
  }

  /** Printable text; the empty text counts as printable. Only the ASCII
      range is modelled. */
  predicate IsPrintable(t: string)
  {
    forall i :: 0 <= i < |t| ==> ' ' <= t[i] <= '~'
  }

  const Indent := "    "

  function Min(a: int, b: int): int { if a <= b then a else b }

  function Max(a: int, b: int): int { if a >= b then a else b }

  /** The buffer a new editor window starts with. */
  function Initial(): (b: Buffer)
    ensures Valid(b)
  {
    Buffer(["print('Hello, Nexus OS!')", "for i in range(3):", "    print(f'Loop {i}')", ""], 0, 0)
  }

  /** Splices `t` into the current line at the cursor and moves the cursor
      `advance` places right. */
  function Insert(b: Buffer, t: string, advance: nat): Buffer
    requires Valid(b)
  {
    var line := b.lines[b.cy];
    b.(lines := b.lines[b.cy := line[..b.cx] + t + line[b.cx..]], cx := b.cx + advance)
  }

  /** Enter: the current line is cut at the cursor and the cursor moves to
      the start of the new second half. */
  function SplitLine(b: Buffer): Buffer
    requires Valid(b)
  {
    var line := b.lines[b.cy];
    Buffer(b.lines[..b.cy] + [line[..b.cx], line[b.cx..]] + b.lines[b.cy + 1..], 0, b.cy + 1)
  }

  /** Backspace at the start of a line: the line is appended to the one
      above, and the cursor lands at the seam. */
  function JoinLine(b: Buffer): Buffer
    requires Valid(b) && b.cy > 0
  {
    var above := b.lines[b.cy - 1];
    Buffer(b.lines[..b.cy - 1] + [above + b.lines[b.cy]] + b.lines[b.cy + 1..], |above|, b.cy - 1)
  }

  /** Backspace inside a line: the character left of the cursor goes. */
  function DeleteChar(b: Buffer): Buffer
    requires Valid(b) && b.cx > 0
  {
    var line := b.lines[b.cy];
    b.(lines := b.lines[b.cy := line[..b.cx - 1] + line[b.cx..]], cx := b.cx - 1)
  }

  /** Whether a key outside the named ones types its text. The source also
      lets empty text through; see `EditAsWritten`. */
  predicate TypesText(ev: KeyEvent)
  {
    ev.text != [] && IsPrintable(ev.text) && ev.key != Tab
  }

  /** One key press. Every edit keeps the cursor inside the buffer. */
  function Edit(b: Buffer, ev: KeyEvent): (r: Buffer)
    requires Valid(b)
    ensures Valid(r)
  {
    match ev.key
    case Up =>
      var cy := Max(0, b.cy - 1);
      b.(cy := cy, cx := Min(b.cx, |b.lines[cy]|))
    case Down =>
      var cy := Min(|b.lines| - 1, b.cy + 1);
      b.(cy := cy, cx := Min(b.cx, |b.lines[cy]|))
    case Left =>
      if b.cx > 0 then b.(cx := b.cx - 1)
      else if b.cy > 0 then b.(cy := b.cy - 1, cx := |b.lines[b.cy - 1]|)
      else b
    case Right =>
      if b.cx < |b.lines[b.cy]| then b.(cx := b.cx + 1)
      else if b.cy < |b.lines| - 1 then b.(cy := b.cy + 1, cx := 0)
      else b
    case Return => SplitLine(b)
    case Backspace =>
      if b.cx > 0 then DeleteChar(b)
      else if b.cy > 0 then JoinLine(b)
      else b
    case _ =>
      if TypesText(ev) then Insert(b, ev.text, 1)
      else if ev.key == Tab then Insert(b, Indent, 4)
      else b
  }

  /** The typing branch exactly as the source guards it: empty text passes
      the printable test, so a key that types nothing still moves the cursor
      one place right. */
  function EditAsWritten(b: Buffer, ev: KeyEvent): (r: Buffer)
    requires Valid(b)
    ensures !Valid(r) ==> ev.key == Other && ev.text == []
    ensures ev.key == Other && ev.text == [] ==> r.lines == b.lines && r.cy == b.cy && r.cx == b.cx + 1
  {
    if ev.key != Tab && ev.key != Other then Edit(b, ev)
    else if IsPrintable(ev.text) && ev.key != Tab then
      var line := b.lines[b.cy];
      assert line[..b.cx] + [] + line[b.cx..] == line;
      Insert(b, ev.text, 1)
    else if ev.key == Tab then Insert(b, Indent, 4)
    else b
  }

  /** As written, a key that types nothing at the end of a line pushes the
      cursor past the end of the line. */
  lemma EmptyTextOverrunsLine(b: Buffer)
    requires Valid(b) && b.cx == |b.lines[b.cy]|
    ensures var r := EditAsWritten(b, KeyDown(Other, ""));
      r.lines == b.lines && r.cx == b.cx + 1 && !Valid(r)
  {
    var line := b.lines[b.cy];
    assert line[..b.cx] + "" + line[b.cx..] == line;
  }

  /** The corrected edit ignores a key that types nothing, and agrees with
      the source on every other key press. */
  lemma EmptyTextIgnored(b: Buffer, ev: KeyEvent)
    requires Valid(b)
    ensures ev.key != Other || ev.text != [] ==> Edit(b, ev) == EditAsWritten(b, ev)
    ensures ev.text == [] && ev.key == Other ==> Edit(b, ev) == b
  {
  }

  /** Enter followed by Backspace restores the buffer and the cursor. */
  lemma EnterThenBackspace(b: Buffer, t1: string, t2: string)
    requires Valid(b)
    ensures Edit(Edit(b, KeyDown(Return, t1)), KeyDown(Backspace, t2)) == b
  {
    var line := b.lines[b.cy];
    var s := SplitLine(b);
    assert s.lines[s.cy - 1] == line[..b.cx] && s.lines[s.cy] == line[b.cx..];
    var j := JoinLine(s);
    assert line[..b.cx] + line[b.cx..] == line;
    assert j.lines == b.lines;
  }

  /** Typing a printable character and then Backspace restores the buffer. */
  lemma TypeThenBackspace(b: Buffer, c: char, t: string)
    requires Valid(b) && ' ' <= c <= '~'
    ensures Edit(Edit(b, KeyDown(Other, [c])), KeyDown(Backspace, t)) == b
  {
    var line := b.lines[b.cy];
    var typed := line[..b.cx] + [c] + line[b.cx..];
    assert typed[..b.cx] == line[..b.cx];
    assert typed[b.cx + 1..] == line[b.cx..];
    assert typed[..b.cx] + typed[b.cx + 1..] == line;
  }

  /** Right then Left returns the cursor, except at the very end of the
      buffer; Left then Right likewise, except at its very start. */
  lemma RightLeftInverse(b: Buffer, t1: string, t2: string)
    requires Valid(b)
    ensures b.cx < |b.lines[b.cy]| || b.cy < |b.lines| - 1 ==>
      Edit(Edit(b, KeyDown(Right, t1)), KeyDown(Left, t2)) == b
    ensures b.cx > 0 || b.cy > 0 ==>
      Edit(Edit(b, KeyDown(Left, t1)), KeyDown(Right, t2)) == b
  {
  }

  /** The editor window's buffer, edited in place. */
  class CodeEditor {
    var lines: seq<string>
    var cx: int
    var cy: int

    function Snapshot(): Buffer
      reads this
    {
      Buffer(lines, cx, cy)
    }

    constructor ()
      ensures Snapshot() == Initial()
    {
      lines := ["print('Hello, Nexus OS!')", "for i in range(3):", "    print(f'Loop {i}')", ""];
      cx, cy := 0, 0;
    }

    method HandleKey(ev: KeyEvent)
      requires Valid(Snapshot())
      modifies this
      ensures Valid(Snapshot())
      ensures Snapshot() == Edit(old(Snapshot()), ev)
    {
      if ev.key == Up {
        cy := Max(0, cy - 1);
        cx := Min(cx, |lines[cy]|);
      } else if ev.key == Down {
        cy := Min(|lines| - 1, cy + 1);
        cx := Min(cx, |lines[cy]|);
      } else if ev.key == Left {
        if cx > 0 {
          cx := cx - 1;
        } else if cy > 0 {
          cy := cy - 1;
          cx := |lines[cy]|;
        }
      } else if ev.key == Right {
        if cx < |lines[cy]| {
          cx := cx + 1;
        } else if cy < |lines| - 1 {
          cy := cy + 1;
          cx := 0;
        }
      } else if ev.key == Return {
        NewLine();
      } else if ev.key == Backspace {
        DeleteBack();
      } else if TypesText(ev) {
        Type(ev.text, 1);
      } else if ev.key == Tab {
        Type(Indent, 4);
      }
    }

    /** Enter: cut the current line at the cursor. */
    method NewLine()
      requires Valid(Snapshot())
      modifies this
      ensures Snapshot() == SplitLine(old(Snapshot()))
    {
      var curr := lines[cy];
      lines := lines[cy := curr[..cx]];
      lines := lines[..cy + 1] + [curr[cx..]] + lines[cy + 1..];
      cy := cy + 1;
      cx := 0;
    }

    /** Backspace: delete left of the cursor, or join with the line above. */
    method DeleteBack()
      requires Valid(Snapshot())
      modifies this
      ensures Snapshot() == if old(cx) > 0 then DeleteChar(old(Snapshot()))
                           else if old(cy) > 0 then JoinLine(old(Snapshot()))
                           else old(Snapshot())
    {
      if cx > 0 {
        var curr := lines[cy];
        lines := lines[cy := curr[..cx - 1] + curr[cx..]];
        cx := cx - 1;
      } else if cy > 0 {
        var curr := lines[cy];
        lines := lines[..cy] + lines[cy + 1..];
        cy := cy - 1;
        cx := |lines[cy]|;
        lines := lines[cy := lines[cy] + curr];
      }
    }

    /** Splice `t` in at the cursor and move the cursor `advance` places. */
    method Type(t: string, advance: nat)
      requires Valid(Snapshot())
      modifies this
      ensures Snapshot() == Insert(old(Snapshot()), t, advance)
    {
      var curr := lines[cy];
      lines := lines[cy := curr[..cx] + t + curr[cx..]];
      cx := cx + advance;
    }
  }
}
