/** The lines a terminal would show (src/bes/console.rs). */
module Consoles {
  import opened Prelude

  const ESC: char := '\U{1B}'

  /** Largest `usize`. */
  const USIZE_MAX: nat := 0xFFFF_FFFF_FFFF_FFFF

  /** The lines, and the first one changed since the last delta. */
  datatype Screen = Screen(lines: seq<string>, dirty: Option<nat>)

  /** The value of a console: its screen and an unfinished escape sequence. */
  datatype State = State(screen: Screen, pending: string)

  const BLANK: State := State(Screen([], None), "")

  predicate IsLetter(c: char) {
    'a' <= c <= 'z' || 'A' <= c <= 'Z'
  }

  predicate IsDigit(c: char) {
    '0' <= c <= '9'
  }

  function DigitValue(c: char): nat
    requires IsDigit(c)
  {
    (c - '0') as nat
  }

  predicate AllDigits(s: string) {
    forall i :: 0 <= i < |s| ==> IsDigit(s[i])
  }

  function Decimal(s: string): nat
    requires AllDigits(s)
  {
    if s == "" then 0 else 10 * Decimal(s[..|s| - 1]) + DigitValue(s[|s| - 1])
  }

  /** `str::parse::<usize>`: digits, after an optional plus, that fit the type. */
  function ParseUsize(s: string): Option<nat> {
    var digits := if s != "" && s[0] == '+' then s[1..] else s;
    if digits == "" || !AllDigits(digits) || Decimal(digits) > USIZE_MAX then None else Some(Decimal(digits))
  }

  function Rows(params: string): nat {
    var n := ParseUsize(params);
    Max(if n.Some? then n.value else 1, 1)
  }

  function Marked(s: Screen): Screen {
    var current := if s.lines == [] then 0 else |s.lines| - 1;
    s.(dirty := Some(if s.dirty.Some? then Min(s.dirty.value, current) else current))
  }

  function WithLast(lines: seq<string>, last: string): seq<string> {
    if lines == [] then [] else lines[..|lines| - 1] + [last]
  }

  function ClearCurrent(s: Screen): Screen {
    var t := Marked(s);
    t.(lines := WithLast(t.lines, ""))
  }

  function NewLine(s: Screen): Screen {
    var t := Marked(s);
    t.(lines := t.lines + [""])
  }

  function Print(s: Screen, c: char): Screen {
    var t := Marked(s);
    t.(lines := if t.lines == [] then [] else WithLast(t.lines, t.lines[|t.lines| - 1] + [c]))
  }

  /** Cursor-up pops rows, but never the first line. */
  function Popped(lines: seq<string>, rows: nat): seq<string> {
    if |lines| <= 1 then lines else if rows >= |lines| then lines[..1] else lines[..|lines| - rows]
  }

  function ApplyCsi(s: Screen, params: string, final: char): Screen {
    if final == 'A' then
      ClearCurrent(Marked(s.(lines := Popped(s.lines, Rows(params)))))
    else if final == 'K' || final == 'J' then
      ClearCurrent(s)
    else
      s
  }

  /** How many characters before the first letter. */
  function ParamsLength(s: string): (n: nat)
    ensures n <= |s|
    ensures forall i :: 0 <= i < n ==> !IsLetter(s[i])
    ensures n < |s| ==> IsLetter(s[n])
  {
    if s == "" || IsLetter(s[0]) then 0 else 1 + ParamsLength(s[1..])
  }

  /** The input begins with an escape sequence that has not ended. */
  predicate Unfinished(input: string) {
    && input != "" && input[0] == ESC
    && (|input| == 1 || (input[1] == '[' && ParamsLength(input[2..]) == |input| - 2))
  }

  /** One character, or one complete sequence: the screen after it and its length. */
  function First(s: Screen, input: string): (r: (Screen, nat))
    requires input != "" && !Unfinished(input)
    ensures 0 < r.1 <= |input|
  {
    var c := input[0];
    if c == ESC then
      if input[1] != '[' then (s, 1)
      else
        var n := ParamsLength(input[2..]);
        (ApplyCsi(s, input[2..2 + n], input[2 + n]), n + 3)
    else if c == '\r' then (ClearCurrent(s), 1)
    else if c == '\n' then (NewLine(s), 1)
    else (Print(s, c), 1)
  }

  function Run(s: Screen, input: string): State
    decreases |input|
  {
    if input == "" || Unfinished(input) then State(s, input)
    else
      var (t, n) := First(s, input);
      Run(t, input[n..])
  }

  function Started(s: Screen): Screen {
    if s.lines == [] then s.(lines := [""]) else s
  }

  function Feed(s: State, chunk: string): State {
    Run(Started(s.screen), s.pending + chunk)
  }

  // ----- Chunks do not matter -----

  lemma {:induction false} ParamsAppend(a: string, b: string)
    ensures ParamsLength(a) < |a| ==> ParamsLength(a + b) == ParamsLength(a)
  {
    if a != "" && !IsLetter(a[0]) {
      ConcatTail(a, b);
      ParamsAppend(a[1..], b);
    }
  }

  /** What is complete stays complete, and does the same, when more input follows. */
  lemma FirstAppend(s: Screen, a: string, b: string)
    requires a != "" && !Unfinished(a)
    ensures !Unfinished(a + b) && First(s, a + b) == First(s, a)
  {
    if a[0] == ESC && a[1] == '[' {
      ParamsAppend(a[2..], b);
      assert (a + b)[2..] == a[2..] + b;
      var n := ParamsLength(a[2..]);
      assert (a + b)[2..2 + n] == a[2..2 + n];
    }
  }

  lemma {:induction false} RunAppend(s: Screen, a: string, b: string)
    ensures Run(s, a + b) == Run(Run(s, a).screen, Run(s, a).pending + b)
    decreases |a|
  {
    if a == "" {
      assert a + b == b;
    } else if !Unfinished(a) {
      FirstAppend(s, a, b);
      var (t, n) := First(s, a);
      assert (a + b)[n..] == a[n..] + b;
      RunAppend(t, a[n..], b);
    }
  }

  /** The lines are never empty again once there is one. */
  lemma {:induction false} RunKeepsALine(s: Screen, input: string)
    requires s.lines != []
    ensures Run(s, input).screen.lines != []
    decreases |input|
  {
    if input != "" && !Unfinished(input) {
      var (t, n) := First(s, input);
      RunKeepsALine(t, input[n..]);
    }
  }

  /** However the output is cut into chunks, inside an escape sequence or not, the lines,
      the pending tail and the dirty mark come out the same. */
  lemma ChunksDoNotMatter(s: State, a: string, b: string)
    ensures Feed(Feed(s, a), b) == Feed(s, a + b)
  {
    var start, input := Started(s.screen), s.pending + a;
    RunAppend(start, input, b);
    RunKeepsALine(start, input);
    assert s.pending + (a + b) == input + b;
  }

  function Join(chunks: seq<string>): string {
    if chunks == [] then "" else chunks[0] + Join(chunks[1..])
  }

  function FeedAll(s: State, chunks: seq<string>): State
    decreases |chunks|
  {
    if chunks == [] then s else FeedAll(Feed(s, chunks[0]), chunks[1..])
  }

  lemma {:induction false} AnyChunking(s: State, chunks: seq<string>)
    requires chunks != []
    ensures FeedAll(s, chunks) == Feed(s, Join(chunks))
    decreases |chunks|
  {
    var rest := chunks[1..];
    if rest == [] {
      assert chunks[0] + "" == chunks[0];
    } else {
      AnyChunking(Feed(s, chunks[0]), rest);
      ChunksDoNotMatter(s, chunks[0], Join(rest));
    }
  }

  // ----- A client that splices deltas -----

  /** What `take_delta` hands over and leaves behind. */
  function TakeDelta(s: State): (Option<(nat, seq<string>)>, State)
    requires s.screen.dirty.Some? ==> s.screen.dirty.value <= |s.screen.lines|
  {
    match s.screen.dirty
    case None => (None, s)
    case Some(from) => (Some((from, s.screen.lines[from..])), s.(screen := s.screen.(dirty := None)))
  }

  /** The copy agrees below the dirty mark, or altogether when nothing is dirty, up to the
      one empty line a frame console starts with. */
  ghost predicate Mirrors(copy: seq<string>, s: Screen) {
    match s.dirty
    case None => copy == s.lines || (copy == [] && s.lines == [""])
    case Some(from) => from < |s.lines| && from <= |copy| && copy[..from] == s.lines[..from]
  }

  lemma MarkedMirrors(copy: seq<string>, s: Screen)
    requires Mirrors(copy, s) && s.lines != []
    ensures Mirrors(copy, Marked(s))
  {
  }

  /** A change of the lines from the mark on. */
  lemma ChangedMirrors(copy: seq<string>, s: Screen, lines: seq<string>)
    requires Mirrors(copy, s) && s.dirty.Some? && s.dirty.value < |lines| &&
             s.lines[..s.dirty.value] == lines[..s.dirty.value]
    ensures Mirrors(copy, s.(lines := lines))
  {
  }

  lemma ClearMirrors(copy: seq<string>, s: Screen)
    requires Mirrors(copy, s) && s.lines != []
    ensures Mirrors(copy, ClearCurrent(s))
  {
    var t := Marked(s);
    MarkedMirrors(copy, s);
    ChangedMirrors(copy, t, WithLast(t.lines, ""));
  }

  lemma PoppedMirrors(copy: seq<string>, s: Screen, rows: nat)
    requires Mirrors(copy, s) && s.lines != []
    ensures Popped(s.lines, rows) != [] && Mirrors(copy, Marked(s.(lines := Popped(s.lines, rows))))
  {
    var lines := Popped(s.lines, rows);
    assert lines == s.lines[..|lines|];
    if s.dirty.None? {
      assert copy == s.lines ==> copy[..|lines| - 1] == lines[..|lines| - 1];
    } else {
      var from := Min(s.dirty.value, |lines| - 1);
      assert copy[..from] == copy[..s.dirty.value][..from] == s.lines[..s.dirty.value][..from] == lines[..from];
    }
  }

  lemma CsiMirrors(copy: seq<string>, s: Screen, params: string, final: char)
    requires Mirrors(copy, s) && s.lines != []
    ensures ApplyCsi(s, params, final).lines != [] && Mirrors(copy, ApplyCsi(s, params, final))
  {
    var rows := Rows(params);
    PoppedMirrors(copy, s, rows);
    ClearMirrors(copy, s);
    ClearMirrors(copy, Marked(s.(lines := Popped(s.lines, rows))));
  }

  lemma FirstMirrors(copy: seq<string>, s: Screen, input: string)
    requires Mirrors(copy, s) && s.lines != [] && input != "" && !Unfinished(input)
    ensures First(s, input).0.lines != [] && Mirrors(copy, First(s, input).0)
  {
    var c, t := input[0], Marked(s);
    MarkedMirrors(copy, s);
    ClearMirrors(copy, s);
    if c == ESC {
      if input[1] == '[' {
        var n := ParamsLength(input[2..]);
        CsiMirrors(copy, s, input[2..2 + n], input[2 + n]);
      }
    } else if c == '\n' {
      ChangedMirrors(copy, t, t.lines + [""]);
    } else if c != '\r' {
      ChangedMirrors(copy, t, WithLast(t.lines, t.lines[|t.lines| - 1] + [c]));
    }
  }

  lemma {:induction false} RunMirrors(copy: seq<string>, s: Screen, input: string)
    requires Mirrors(copy, s) && s.lines != []
    ensures Run(s, input).screen.lines != [] && Mirrors(copy, Run(s, input).screen)
    decreases |input|
  {
    if input != "" && !Unfinished(input) {
      FirstMirrors(copy, s, input);
      var (t, n) := First(s, input);
      RunMirrors(copy, t, input[n..]);
    }
  }

  /** What a watched console goes through. */
  datatype Event = Output(chunk: string) | Delta

  function Spliced(copy: seq<string>, delta: Option<(nat, seq<string>)>): seq<string>
    requires delta.Some? ==> delta.value.0 <= |copy|
  {
    match delta
    case None => copy
    case Some((from, tail)) => copy[..from] + tail
  }

  /** The console and the client's copy after `events`, from a frame console. */
  ghost function Watched(events: seq<Event>): (r: (State, seq<string>))
    ensures Mirrors(r.1, r.0.screen)
    decreases |events|
  {
    if events == [] then (BLANK, [])
    else
      var (s, copy) := Watched(events[..|events| - 1]);
      match events[|events| - 1]
      case Output(chunk) =>
        RunMirrors(copy, Started(s.screen), s.pending + chunk);
        (Feed(s, chunk), copy)
      case Delta =>
        var (delta, t) := TakeDelta(s);
        (t, Spliced(copy, delta))
  }

  /** After a delta the client holds the console's lines; the slice was in range; and no
      line below the reported index had changed since the delta before. */
  lemma ClientFollows(events: seq<Event>)
    requires events != [] && events[|events| - 1].Delta?
    ensures var (before, copy) := Watched(events[..|events| - 1]);
            var (after, spliced) := Watched(events);
            && (spliced == after.screen.lines || (spliced == [] && after.screen.lines == [""]))
            && after.screen.lines == before.screen.lines
            && (before.screen.dirty.Some? ==>
                  var from := before.screen.dirty.value;
                  && from < |before.screen.lines| && from <= |copy| && copy[..from] == before.screen.lines[..from])
  {
  }

  lemma {:induction false} MarkOnlyFalls(s: Screen, input: string)
    requires s.dirty.Some?
    ensures Run(s, input).screen.dirty.Some? && Run(s, input).screen.dirty.value <= s.dirty.value
    decreases |input|
  {
    if input != "" && !Unfinished(input) {
      var (t, n) := First(s, input);
      MarkOnlyFalls(t, input[n..]);
    }
  }

  ghost predicate OnlyOutput(events: seq<Event>) {
    forall i :: 0 <= i < |events| ==> events[i].Output?
  }

  lemma WatchedOutput(events: seq<Event>, chunk: string)
    ensures Watched(events + [Output(chunk)]) == (Feed(Watched(events).0, chunk), Watched(events).1)
  {
    assert (events + [Output(chunk)])[..|events|] == events;
  }

  lemma FeedMarkFalls(s: State, chunk: string)
    requires s.screen.dirty.Some?
    ensures Feed(s, chunk).screen.dirty.Some? && Feed(s, chunk).screen.dirty.value <= s.screen.dirty.value
  {
    MarkOnlyFalls(Started(s.screen), s.pending + chunk);
  }

  /** The mark of `t` is no higher than that of `s`. */
  predicate MarkFell(s: Screen, t: Screen) {
    s.dirty.Some? ==> t.dirty.Some? && t.dirty.value <= s.dirty.value
  }

  lemma MarkFellOn(s: Screen, t: Screen, u: Screen)
    requires MarkFell(s, t) && MarkFell(t, u)
    ensures MarkFell(s, u)
  {
  }

  lemma OutputFalls(events: seq<Event>, chunk: string)
    ensures Watched(events + [Output(chunk)]).1 == Watched(events).1
    ensures MarkFell(Watched(events).0.screen, Watched(events + [Output(chunk)]).0.screen)
  {
    var s := Watched(events).0;
    WatchedOutput(events, chunk);
    if s.screen.dirty.Some? {
      FeedMarkFalls(s, chunk);
    }
  }

  /** While no delta is taken the copy stays and the mark only falls. */
  lemma {:induction false} MarkFallsBetween(events: seq<Event>, more: seq<Event>)
    requires OnlyOutput(more)
    ensures Watched(events + more).1 == Watched(events).1
    ensures MarkFell(Watched(events).0.screen, Watched(events + more).0.screen)
    decreases |more|
  {
    if more == [] {
      assert events + more == events;
    } else {
      var init, last := more[..|more| - 1], more[|more| - 1];
      assert events + more == (events + init) + [Output(last.chunk)];
      MarkFallsBetween(events, init);
      OutputFalls(events + init, last.chunk);
      MarkFellOn(Watched(events).0.screen, Watched(events + init).0.screen, Watched(events + more).0.screen);
    }
  }

  /** Lines below the mark the next delta will report have not changed at any moment since. */
  lemma NothingChangedBelow(events: seq<Event>, more: seq<Event>)
    requires OnlyOutput(more) && Watched(events + more).0.screen.dirty.Some?
    ensures var (s, t) := (Watched(events).0.screen, Watched(events + more).0.screen);
            var from := t.dirty.value;
            from <= |s.lines| && s.lines[..from] == t.lines[..from]
  {
    MarkFallsBetween(events, more);
    var (s, t) := (Watched(events).0.screen, Watched(events + more).0.screen);
    var copy, from := Watched(events).1, t.dirty.value;
    assert copy[..from] == t.lines[..from];
    if s.dirty.Some? {
      assert copy[..s.dirty.value][..from] == copy[..from];
    }
  }

  // ----- What Bazel's redraws come to -----

  function DigitChar(d: nat): char
    requires d < 10
  {
    '0' + d as char
  }

  function Digits(n: nat): (s: string)
    ensures s != "" && AllDigits(s)
  {
    if n < 10 then [DigitChar(n)] else Digits(n / 10) + [DigitChar(n % 10)]
  }

  lemma {:induction false} DecimalDigits(n: nat)
    ensures Decimal(Digits(n)) == n
  {
    if n < 10 {
      assert Digits(n)[..0] == "";
    } else {
      DecimalDigits(n / 10);
      assert Digits(n)[..|Digits(n)| - 1] == Digits(n / 10);
    }
  }

  predicate Plain(text: string) {
    forall i :: 0 <= i < |text| ==> text[i] != ESC && text[i] != '\r' && text[i] != '\n'
  }

  /** The screen after plain text: it goes to the end of the last line. */
  function Typed(s: Screen, text: string): Screen
    requires s.lines != []
  {
    if text == "" then s else Marked(s).(lines := WithLast(s.lines, s.lines[|s.lines| - 1] + text))
  }

  lemma TypedMore(s: Screen, c: char, text: string)
    requires s.lines != []
    ensures Print(s, c).lines != [] && Typed(Print(s, c), text) == Typed(s, [c] + text)
  {
    var last, t := s.lines[|s.lines| - 1], Print(s, c);
    assert last + [c] + text == last + ([c] + text);
    assert WithLast(t.lines, last + ([c] + text)) == WithLast(s.lines, last + ([c] + text));
    assert text == "" ==> [c] + text == [c];
  }

  lemma {:induction false} TextIsKept(s: Screen, text: string, rest: string)
    requires s.lines != [] && Plain(text)
    ensures Run(s, text + rest) == Run(Typed(s, text), rest)
    decreases |text|
  {
    if text == "" {
      ConcatNone(rest);
    } else {
      ConcatTail(text, rest);
      TextIsKept(Print(s, text[0]), text[1..], rest);
      assert text == [text[0]] + text[1..];
      TypedMore(s, text[0], text[1..]);
    }
  }

  function Text(lines: seq<string>): string {
    if lines == [] then "" else lines[0] + "\n" + Text(lines[1..])
  }

  /** One line printed onto an empty last line. */
  lemma LineIsKept(s: Screen, above: seq<string>, line: string, rest: string) returns (t: Screen)
    requires s.lines == above + [""] && Plain(line)
    ensures t.lines == above + [line] + [""] && Run(s, line + ("\n" + rest)) == Run(t, rest)
  {
    TextIsKept(s, line, "\n" + rest);
    var u := Typed(s, line);
    assert "" + line == line && u.lines == above + [line];
    ConcatTail("\n", rest);
    t := NewLine(u);
  }

  /** Whole lines printed onto an empty last line follow the lines above it. */
  lemma {:induction false} LinesAreKept(s: Screen, above: seq<string>, frame: seq<string>)
    requires s.lines == above + [""] && forall i :: 0 <= i < |frame| ==> Plain(frame[i])
    ensures Run(s, Text(frame)).screen.lines == above + frame + [""] && Run(s, Text(frame)).pending == ""
    decreases |frame|
  {
    if frame == [] {
      assert above + frame == above;
    } else {
      var line, rest := frame[0], frame[1..];
      ConcatAssoc(line, "\n", Text(rest));
      var t := LineIsKept(s, above, line, Text(rest));
      LinesAreKept(t, above + [line], rest);
      ConcatAssoc(above, [line], rest);
      assert frame == [line] + rest;
    }
  }

  lemma {:induction false} ParamsEnd(params: string, final: char, rest: string)
    requires IsLetter(final) && forall i :: 0 <= i < |params| ==> !IsLetter(params[i])
    ensures ParamsLength(params + [final] + rest) == |params|
  {
    if params != "" {
      assert (params + [final] + rest)[1..] == params[1..] + [final] + rest;
      ParamsEnd(params[1..], final, rest);
    }
  }

  function Csi(params: string, final: char): string {
    [ESC, '['] + params + [final]
  }

  /** A complete sequence is applied and leaves no other trace. */
  lemma CsiIsApplied(s: Screen, params: string, final: char, rest: string)
    requires IsLetter(final) && forall i :: 0 <= i < |params| ==> !IsLetter(params[i])
    ensures Run(s, Csi(params, final) + rest) == Run(ApplyCsi(s, params, final), rest)
  {
    var input := Csi(params, final) + rest;
    assert input[2..] == params + [final] + rest;
    ParamsEnd(params, final, rest);
    assert input[2..2 + |params|] == params && input[|params| + 3..] == rest;
  }

  lemma RowsOfDigits(n: nat)
    requires 1 <= n <= USIZE_MAX
    ensures Rows(Digits(n)) == n
  {
    DecimalDigits(n);
    assert IsDigit(Digits(n)[0]);
  }

  /** A redraw shows its last frame only: moving up over the lines on show and printing
      others leaves the lines above, the new ones and nothing of the old. */
  lemma RedrawReplaces(s: Screen, above: seq<string>, shown: seq<string>, frame: seq<string>)
    requires s.lines == above + shown + [""] && 1 <= |shown| <= USIZE_MAX
    requires forall i :: 0 <= i < |frame| ==> Plain(frame[i])
    ensures Run(s, Csi(Digits(|shown|), 'A') + Text(frame)).screen.lines == above + frame + [""]
  {
    var up := Digits(|shown|);
    RowsOfDigits(|shown|);
    CsiIsApplied(s, up, 'A', Text(frame));
    UpClears(s, above, shown, up);
    LinesAreKept(ApplyCsi(s, up, 'A'), above, frame);
  }

  /** Moving up over the lines on show leaves the ones above and an empty one. */
  lemma UpClears(s: Screen, above: seq<string>, shown: seq<string>, up: string)
    requires s.lines == above + shown + [""] && |shown| >= 1 && Rows(up) == |shown|
    ensures ApplyCsi(s, up, 'A').lines == above + [""]
  {
    assert s.lines[..|above| + 1] == above + [shown[0]];
  }

  lemma PlainEscape(s: Screen, input: string, pos: nat)
    requires pos < |input| && input[pos] == ESC && (pos + 1 < |input| ==> input[pos + 1] != '[')
    ensures Unfinished(input[pos..]) <==> pos + 1 == |input|
    ensures pos + 1 < |input| ==> First(s, input[pos..]) == (s, 1)
  {
    var rest := input[pos..];
    assert rest[0] == input[pos] && (|rest| > 1 ==> rest[1] == input[pos + 1]);
  }

  /** What a control sequence at `pos` is, by positions in the whole input. */
  lemma CsiEscape(s: Screen, input: string, pos: nat, n: nat)
    requires pos + 1 < |input| && input[pos] == ESC && input[pos + 1] == '['
    requires n == pos + 2 + ParamsLength(input[pos + 2..])
    ensures Unfinished(input[pos..]) <==> n == |input|
    ensures n < |input| ==> First(s, input[pos..]) == (ApplyCsi(s, input[pos + 2..n], input[n]), n + 1 - pos)
  {
    var rest, k := input[pos..], n - pos - 2;
    assert rest[0] == ESC && rest[1] == '[' && rest[2..] == input[pos + 2..];
    assert ParamsLength(rest[2..]) == k && rest[2..2 + k] == input[pos + 2..n];
  }

  // ----- The console as it is updated in place -----

  class Console {
    var lines: seq<string>
    var pending: string
    var dirtyFrom: Option<nat>

    ghost function View(): State
      reads this
    {
      State(Screen(lines, dirtyFrom), pending)
    }

    /** The slice of the next delta starts in range. */
    ghost predicate Ok()
      reads this
    {
      dirtyFrom.Some? ==> dirtyFrom.value < |lines|
    }

    constructor ()
      ensures Ok() && View() == BLANK
    {
      lines, pending, dirtyFrom := [], "", None;
    }

    method MarkDirty()
      modifies this`dirtyFrom
      ensures View().screen == Marked(old(View().screen))
    {
      var current := if lines == [] then 0 else |lines| - 1;
      dirtyFrom := Some(if dirtyFrom.Some? then Min(dirtyFrom.value, current) else current);
    }

    method Clear()
      modifies this`lines, this`dirtyFrom
      ensures View().screen == ClearCurrent(old(View().screen))
    {
      MarkDirty();
      if lines != [] {
        lines := lines[..|lines| - 1] + [""];
      }
    }

    /** Applies one complete sequence. */
    method Csi(params: string, final: char)
      modifies this`lines, this`dirtyFrom
      ensures View().screen == ApplyCsi(old(View().screen), params, final)
    {
      if final == 'A' {
        var rows := Rows(params);
        var n := 0;
        while n < rows
          invariant n <= rows && lines == Popped(old(lines), n) && unchanged(`dirtyFrom)
        {
          if |lines| > 1 {
            lines := lines[..|lines| - 1];
          }
          n := n + 1;
        }
        MarkDirty();
        Clear();
      } else if final == 'K' || final == 'J' {
        Clear();
      }
    }

    /** One control sequence at `pos`; false if it has not ended. */
    method FeedCsi(input: string, pos: nat) returns (complete: bool, next: nat)
      requires pos + 1 < |input| && input[pos] == ESC && input[pos + 1] == '['
      modifies this`lines, this`dirtyFrom
      ensures complete <==> !Unfinished(input[pos..])
      ensures complete ==> (View().screen, next - pos) == First(old(View().screen), input[pos..])
      ensures complete ==> pos < next <= |input|
      ensures !complete ==> View() == old(View())
    {
      next := ScanParams(input, pos + 2);
      CsiEscape(View().screen, input, pos, next);
      complete := next < |input|;
      if complete {
        Csi(input[pos + 2..next], input[next]);
        next := next + 1;
      }
    }

    /** One complete sequence at `pos`; false if it has not ended. */
    method FeedEscape(input: string, pos: nat) returns (complete: bool, next: nat)
      requires pos < |input| && input[pos] == ESC
      modifies this`lines, this`dirtyFrom
      ensures complete <==> !Unfinished(input[pos..])
      ensures complete ==> (View().screen, next - pos) == First(old(View().screen), input[pos..])
      ensures complete ==> pos < next <= |input|
      ensures !complete ==> View() == old(View())
    {
      if pos + 1 < |input| && input[pos + 1] == '[' {
        complete, next := FeedCsi(input, pos);
      } else {
        PlainEscape(View().screen, input, pos);
        complete, next := pos + 1 < |input|, pos + 1;
      }
    }

    /** One character that begins no sequence. */
    method FeedPlain(c: char)
      requires c != ESC
      modifies this`lines, this`dirtyFrom
      ensures View() == old(View()).(screen := First(old(View().screen), [c]).0)
    {
      if c == '\r' {
        Clear();
      } else if c == '\n' {
        MarkDirty();
        lines := lines + [""];
      } else {
        MarkDirty();
        if lines != [] {
          lines := lines[..|lines| - 1] + [lines[|lines| - 1] + [c]];
        }
      }
    }

    /** One character, or one complete sequence, at `pos`; false if the sequence there has
        not ended. */
    method FeedOne(input: string, pos: nat) returns (complete: bool, next: nat)
      requires pos < |input|
      modifies this`lines, this`dirtyFrom
      ensures complete <==> !Unfinished(input[pos..])
      ensures complete ==> (View().screen, next - pos) == First(old(View().screen), input[pos..])
      ensures complete ==> pos < next <= |input|
      ensures !complete ==> View() == old(View())
    {
      if input[pos] == ESC {
        complete, next := FeedEscape(input, pos);
      } else {
        FeedPlain(input[pos]);
        return true, pos + 1;
      }
    }

    /** Processes the input up to an unfinished sequence, or the end. */
    method FeedInput(input: string) returns (pos: nat)
      modifies this`lines, this`dirtyFrom
      ensures pos <= |input| && State(View().screen, input[pos..]) == Run(old(View().screen), input)
    {
      pos := 0;
      assert input[0..] == input;
      while pos < |input|
        invariant pos <= |input| && Run(View().screen, input[pos..]) == Run(old(View().screen), input)
        decreases |input| - pos
      {
        ghost var s := View().screen;
        var complete, next := FeedOne(input, pos);
        if !complete {
          return;
        }
        RunFrom(s, input, pos, next);
        pos := next;
      }
    }

    /** Appends a chunk of terminal output. */
    method FeedChunk(chunk: string)
      requires Ok()
      modifies this
      ensures Ok() && View() == Feed(old(View()), chunk)
    {
      RunMirrors(Started(View().screen).lines, Started(View().screen), pending + chunk);
      if lines == [] {
        lines := [""];
      }
      var input := pending + chunk;
      var pos := FeedInput(input);
      pending := input[pos..];
    }

    /** Hands over what changed and forgets the mark. */
    method TakeChanges() returns (delta: Option<(nat, seq<string>)>)
      requires Ok()
      modifies this`dirtyFrom
      ensures Ok() && (delta, View()) == TakeDelta(old(View()))
    {
      if dirtyFrom == None {
        return None;
      }
      delta := Some((dirtyFrom.value, lines[dirtyFrom.value..]));
      dirtyFrom := None;
    }
  }

  lemma RunFrom(s: Screen, input: string, pos: nat, next: nat)
    requires pos < next <= |input| && !Unfinished(input[pos..]) && First(s, input[pos..]).1 == next - pos
    ensures Run(s, input[pos..]) == Run(First(s, input[pos..]).0, input[next..])
  {
    assert input[pos..][next - pos..] == input[next..];
  }

  /** The scan for the final byte: the first letter from `from` on, or the end. */
  method ScanParams(input: string, from: nat) returns (n: nat)
    requires from <= |input|
    ensures from <= n <= |input| && n - from == ParamsLength(input[from..])
  {
    n := from;
    while n < |input| && !IsLetter(input[n])
      invariant from <= n <= |input| && forall i :: from <= i < n ==> !IsLetter(input[i])
    {
      n := n + 1;
    }
    ParamsAre(input[from..], n - from);
  }

  lemma {:induction false} ParamsAre(s: string, n: nat)
    requires n <= |s| && (forall i :: 0 <= i < n ==> !IsLetter(s[i])) && (n < |s| ==> IsLetter(s[n]))
    ensures ParamsLength(s) == n
  {
    if n > 0 {
      ParamsAre(s[1..], n - 1);
    }
  }
}
