/** The terminal the console imitates: what each thing Bazel prints does to the lines on
    show, said without the parser (src/bes/console.rs). */
module Terminals {
  import opened Prelude
  import opened Consoles

  /** The pieces terminal output is made of. */
  datatype Piece =
    | Words(text: string)
    | Return
    | Break
    /** Cursor up by a number of rows. */
    | Up(rows: nat)
    /** Cursor up whose parameters are no number. */
    | UpOnce(params: string)
    | Erase(params: string, final: char)
    /** Colours, cursor visibility and the like. */
    | Style(params: string, final: char)
    /** An escape character that begins no control sequence. */
    | Stray(text: string)

  predicate NoLetters(params: string) {
    forall i :: 0 <= i < |params| ==> !IsLetter(params[i])
  }

  ghost predicate NoNumber(params: string) {
    params == "" || exists i :: 0 <= i < |params| && params[i] != '+' && !('0' <= params[i] <= '9')
  }

  ghost predicate Valid(p: Piece) {
    match p
    case Words(text) => Plain(text)
    case Return => true
    case Break => true
    case Up(rows) => rows <= USIZE_MAX
    case UpOnce(params) => NoLetters(params) && NoNumber(params)
    case Erase(params, final) => NoLetters(params) && (final == 'K' || final == 'J')
    case Style(params, final) => NoLetters(params) && IsLetter(final) && final != 'A' && final != 'K' && final != 'J'
    case Stray(text) => Plain(text) && text != "" && text[0] != '['
  }

  function Printed(p: Piece): string {
    match p
    case Words(text) => text
    case Return => "\r"
    case Break => "\n"
    case Up(rows) => Csi(Digits(rows), 'A')
    case UpOnce(params) => Csi(params, 'A')
    case Erase(params, final) => Csi(params, final)
    case Style(params, final) => Csi(params, final)
    case Stray(text) => [ESC] + text
  }

  /** The cursor goes up, but not above the first line, and what it passes is gone. */
  function Raised(lines: seq<string>, rows: nat): seq<string>
    requires lines != []
  {
    lines[..if rows < |lines| then |lines| - rows - 1 else 0] + [""]
  }

  /** The lines on show after `p`; the cursor is on the last one. */
  function Shown(lines: seq<string>, p: Piece): (r: seq<string>)
    requires lines != []
    ensures r != []
  {
    var above, last := lines[..|lines| - 1], lines[|lines| - 1];
    match p
    case Words(text) => above + [last + text]
    case Return => above + [""]
    case Break => lines + [""]
    case Up(rows) => Raised(lines, Max(rows, 1))
    case UpOnce(_) => Raised(lines, 1)
    case Erase(_, _) => above + [""]
    case Style(_, _) => lines
    case Stray(text) => above + [last + text]
  }

  /** The first line that `p` touches. */
  function Touched(lines: seq<string>, p: Piece): Option<nat>
    requires lines != []
  {
    match p
    case Words(text) => if text == "" then None else Some(|lines| - 1)
    case Up(_) => Some(|Shown(lines, p)| - 1)
    case UpOnce(_) => Some(|Shown(lines, p)| - 1)
    case Style(_, _) => None
    case _ => Some(|lines| - 1)
  }

  function Lower(a: Option<nat>, b: Option<nat>): Option<nat> {
    if a.None? then b else if b.None? then a else Some(Min(a.value, b.value))
  }

  // ----- One piece -----

  /** `t` is the screen `s` after `p`. */
  ghost predicate After(s: Screen, p: Piece, t: Screen)
    requires s.lines != []
  {
    t.lines == Shown(s.lines, p) && t.dirty == Lower(s.dirty, Touched(s.lines, p))
  }

  lemma WordsShown(s: Screen, text: string, rest: string)
    requires s.lines != [] && Plain(text)
    ensures After(s, Words(text), Typed(s, text)) && Run(s, text + rest) == Run(Typed(s, text), rest)
  {
    TextIsKept(s, text, rest);
    if text == "" {
      var last := s.lines[|s.lines| - 1];
      assert last + text == last;
      assert s.lines == s.lines[..|s.lines| - 1] + [last];
    }
  }

  lemma ReturnShown(s: Screen, rest: string)
    requires s.lines != []
    ensures After(s, Return, ClearCurrent(s)) && Run(s, "\r" + rest) == Run(ClearCurrent(s), rest)
  {
    ConcatTail("\r", rest);
  }

  lemma BreakShown(s: Screen, rest: string)
    requires s.lines != []
    ensures After(s, Break, NewLine(s)) && Run(s, "\n" + rest) == Run(NewLine(s), rest)
  {
    ConcatTail("\n", rest);
  }

  lemma StrayShown(s: Screen, text: string, rest: string)
    requires s.lines != [] && Plain(text) && text != "" && text[0] != '['
    ensures After(s, Stray(text), Typed(s, text)) && Run(s, [ESC] + text + rest) == Run(Typed(s, text), rest)
  {
    var input := [ESC] + text + rest;
    assert input[1] == text[0] && input[1..] == text + rest;
    WordsShown(s, text, rest);
  }

  lemma RaisedShown(s: Screen, params: string, rows: nat)
    requires s.lines != [] && Rows(params) == rows >= 1
    ensures var t := ApplyCsi(s, params, 'A');
            t.lines == Raised(s.lines, rows) && t.dirty == Lower(s.dirty, Some(|Raised(s.lines, rows)| - 1))
  {
    var popped := Popped(s.lines, rows);
    assert popped[..|popped| - 1] == s.lines[..|popped| - 1];
  }

  lemma RowsAre(rows: nat)
    requires rows <= USIZE_MAX
    ensures Rows(Digits(rows)) == Max(rows, 1)
  {
    DecimalDigits(rows);
    assert IsDigit(Digits(rows)[0]);
  }

  lemma NoNumberIsOne(params: string)
    requires NoNumber(params)
    ensures Rows(params) == 1
  {
    if params != "" {
      var i :| 0 <= i < |params| && params[i] != '+' && !('0' <= params[i] <= '9');
      var digits := if params[0] == '+' then params[1..] else params;
      assert digits[if params[0] == '+' then i - 1 else i] == params[i];
      assert !AllDigits(digits);
    }
  }

  lemma DigitsAreNoLetters(rows: nat)
    ensures NoLetters(Digits(rows))
  {
    assert AllDigits(Digits(rows));
  }

  lemma SequenceShown(s: Screen, p: Piece, rest: string) returns (t: Screen)
    requires s.lines != [] && Valid(p) && (p.Up? || p.UpOnce? || p.Erase? || p.Style?)
    ensures After(s, p, t) && Run(s, Printed(p) + rest) == Run(t, rest)
  {
    match p
    case Up(rows) =>
      DigitsAreNoLetters(rows);
      CsiIsApplied(s, Digits(rows), 'A', rest);
      RowsAre(rows);
      RaisedShown(s, Digits(rows), Max(rows, 1));
      t := ApplyCsi(s, Digits(rows), 'A');
    case UpOnce(params) =>
      CsiIsApplied(s, params, 'A', rest);
      NoNumberIsOne(params);
      RaisedShown(s, params, 1);
      t := ApplyCsi(s, params, 'A');
    case Erase(params, final) =>
      CsiIsApplied(s, params, final, rest);
      t := ClearCurrent(s);
    case Style(params, final) =>
      CsiIsApplied(s, params, final, rest);
      t := s;
  }

  /** A piece does what a terminal does, and the rest of the output is read after it. */
  lemma PieceShown(s: Screen, p: Piece, rest: string) returns (t: Screen)
    requires s.lines != [] && Valid(p)
    ensures After(s, p, t) && Run(s, Printed(p) + rest) == Run(t, rest)
  {
    match p
    case Words(text) =>
      WordsShown(s, text, rest);
      t := Typed(s, text);
    case Return =>
      ReturnShown(s, rest);
      t := ClearCurrent(s);
    case Break =>
      BreakShown(s, rest);
      t := NewLine(s);
    case Stray(text) =>
      StrayShown(s, text, rest);
      t := Typed(s, text);
    case _ =>
      t := SequenceShown(s, p, rest);
  }

  /** Text after a carriage return, or after an erase, takes the place of the current line. */
  lemma LineIsRewritten(s: Screen, above: seq<string>, last: string, params: string, final: char, text: string)
    requires s.lines == above + [last] && Plain(text) && NoLetters(params) && (final == 'K' || final == 'J')
    ensures Run(s, "\r" + text).screen.lines == above + [text]
    ensures Run(s, Csi(params, final) + text).screen.lines == above + [text]
  {
    var t := SequenceShown(s, Erase(params, final), text);
    WordsShown(t, text, "");
    ReturnShown(s, text);
    WordsShown(ClearCurrent(s), text, "");
    assert text + "" == text && "" + text == text;
  }

  /** Any other sequence, and an escape character that begins none, changes nothing. */
  lemma OthersAreDropped(s: Screen, params: string, final: char, c: char, rest: string)
    requires NoLetters(params) && IsLetter(final) && final !in "AKJ" && c != '['
    ensures Run(s, Csi(params, final) + rest) == Run(s, rest)
    ensures Run(s, [ESC, c] + rest) == Run(s, [c] + rest)
  {
    CsiIsApplied(s, params, final, rest);
    StrayIsDropped(s, c, rest);
  }

  lemma StrayIsDropped(s: Screen, c: char, rest: string)
    requires c != '['
    ensures Run(s, [ESC, c] + rest) == Run(s, [c] + rest)
  {
    var input := [ESC, c] + rest;
    assert input[1] == c && input[1..] == [c] + rest;
    assert First(s, input) == (s, 1);
  }

  /** Cursor-up goes up one line, and stays on the first. */
  lemma UpGoesUp(s: Screen, above: seq<string>, left: string, last: string)
    requires s.lines == above + [left, last] || (above == [] && s.lines == [last])
    ensures Run(s, Csi("", 'A')).screen.lines == above + [""]
  {
    var t := SequenceShown(s, UpOnce(""), "");
    assert Printed(UpOnce("")) + "" == Csi("", 'A');
  }

  // ----- Whole outputs -----

  function PrintedAll(ps: seq<Piece>): string {
    if ps == [] then "" else Printed(ps[0]) + PrintedAll(ps[1..])
  }

  function ShownAll(lines: seq<string>, ps: seq<Piece>): seq<string>
    requires lines != []
    decreases |ps|
  {
    if ps == [] then lines else ShownAll(Shown(lines, ps[0]), ps[1..])
  }

  /** The first line touched by any of `ps`. */
  function FirstTouched(lines: seq<string>, ps: seq<Piece>): Option<nat>
    requires lines != []
    decreases |ps|
  {
    if ps == [] then None else Lower(Touched(lines, ps[0]), FirstTouched(Shown(lines, ps[0]), ps[1..]))
  }

  ghost predicate AllValid(ps: seq<Piece>) {
    forall i :: 0 <= i < |ps| ==> Valid(ps[i])
  }

  lemma LowerThen(a: Option<nat>, b: Option<nat>, c: Option<nat>)
    ensures Lower(Lower(a, b), c) == Lower(a, Lower(b, c))
  {
  }

  /** The screen after `ps`. */
  function ScreenAfter(s: Screen, ps: seq<Piece>): Screen
    requires s.lines != []
  {
    Screen(ShownAll(s.lines, ps), Lower(s.dirty, FirstTouched(s.lines, ps)))
  }

  lemma ScreenThen(s: Screen, ps: seq<Piece>, t: Screen)
    requires s.lines != [] && ps != [] && After(s, ps[0], t)
    ensures ScreenAfter(s, ps) == ScreenAfter(t, ps[1..])
  {
    LowerThen(s.dirty, Touched(s.lines, ps[0]), FirstTouched(t.lines, ps[1..]));
  }

  lemma {:induction false} RunShows(s: Screen, ps: seq<Piece>)
    requires s.lines != [] && AllValid(ps)
    ensures Run(s, PrintedAll(ps)) == State(ScreenAfter(s, ps), "")
    decreases |ps|
  {
    if ps != [] {
      var t := PieceShown(s, ps[0], PrintedAll(ps[1..]));
      RunShows(t, ps[1..]);
      ScreenThen(s, ps, t);
    }
  }

  /** Whatever is printed, and however it is cut into chunks, the console shows what a
      terminal would, and the next delta starts at the first line touched since the last. */
  lemma ConsoleIsATerminal(s: State, ps: seq<Piece>, chunks: seq<string>)
    requires s.pending == "" && AllValid(ps) && chunks != [] && Join(chunks) == PrintedAll(ps)
    ensures var lines := if s.screen.lines == [] then [""] else s.screen.lines;
            var t := FeedAll(s, chunks);
            && t.screen.lines == ShownAll(lines, ps) && t.pending == ""
            && t.screen.dirty == Lower(s.screen.dirty, FirstTouched(lines, ps))
  {
    AnyChunking(s, chunks);
    RunShows(Started(s.screen), ps);
    ConcatNone(PrintedAll(ps));
  }
}
