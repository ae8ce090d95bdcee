/** The lines of a history file, read up to a byte limit while others append to it
    (src/bes/storage.rs). A file is text in UTF-8 and its size is counted in bytes. */
module HistoryLines {
  import opened Prelude

  /** The bytes of a character. */
  function Width(c: char): nat {
    if c as int < 0x80 then 1 else if c as int < 0x800 then 2 else if c as int < 0x1_0000 then 3 else 4
  }

  /** The bytes of a text. */
  function Size(text: string): nat {
    if text == "" then 0 else Width(text[0]) + Size(text[1..])
  }

  /** Where the first line of a file ends. */
  function LineLength(file: string): (n: nat)
    ensures n <= |file|
  {
    if file == "" || file[0] == '\n' then 0 else 1 + LineLength(file[1..])
  }

  predicate EndsInReturn(line: string) {
    line != "" && line[|line| - 1] == '\r'
  }

  /** A terminated line without the carriage return before its newline. */
  function Chomp(line: string): string {
    if EndsInReturn(line) then line[..|line| - 1] else line
  }

  /** `BufRead::lines`: an unterminated last line counts as a line, and keeps a carriage return. */
  function Lines(file: string): seq<string>
    decreases |file|
  {
    if file == "" then []
    else
      var n := LineLength(file);
      if n == |file| then [file] else [Chomp(file[..n])] + Lines(file[n + 1..])
  }

  /** The lines visited before the limit: each counts its own bytes and a newline. */
  function Upto(lines: seq<string>, limit: nat): seq<string> {
    if lines == [] || Size(lines[0]) + 1 > limit then [] else [lines[0]] + Upto(lines[1..], limit - Size(lines[0]) - 1)
  }

  predicate Terminated(file: string) {
    file == "" || file[|file| - 1] == '\n'
  }

  /** The lines of a file that end with a newline. */
  function Ended(file: string): seq<string>
    decreases |file|
  {
    var n := LineLength(file);
    if n == |file| then [] else [Chomp(file[..n])] + Ended(file[n + 1..])
  }

  /** How many of them had a carriage return before it. */
  function Returns(file: string): nat
    decreases |file|
  {
    var n := LineLength(file);
    if n == |file| then 0 else One(EndsInReturn(file[..n])) + Returns(file[n + 1..])
  }

  /** What follows the last newline. */
  function Tail(file: string): string
    decreases |file|
  {
    var n := LineLength(file);
    if n == |file| then file else Tail(file[n + 1..])
  }

  lemma {:induction false} SizeConcat(a: string, b: string)
    ensures Size(a + b) == Size(a) + Size(b)
  {
    if a == "" {
      assert a + b == b;
    } else {
      ConcatTail(a, b);
      SizeConcat(a[1..], b);
    }
  }

  lemma {:induction false} SizeAtLeast(a: string)
    ensures |a| <= Size(a)
  {
    if a != "" {
      SizeAtLeast(a[1..]);
    }
  }

  lemma ChompedSize(line: string)
    ensures Size(Chomp(line)) + One(EndsInReturn(line)) == Size(line)
  {
    if EndsInReturn(line) {
      assert line == line[..|line| - 1] + "\r";
      SizeConcat(line[..|line| - 1], "\r");
      OneByte('\r');
    }
  }

  lemma OneByte(c: char)
    requires c as int < 0x80
    ensures Size([c]) == 1
  {
    assert [c][1..] == "";
  }

  lemma {:induction false} LineLengthAppend(file: string, more: string)
    ensures LineLength(file) < |file| ==> LineLength(file + more) == LineLength(file)
    ensures LineLength(file) == |file| ==> LineLength(file + more) == |file| + LineLength(more)
  {
    if file == "" {
      assert file + more == more;
    } else if file[0] != '\n' {
      assert (file + more)[1..] == file[1..] + more;
      LineLengthAppend(file[1..], more);
    }
  }

  lemma FirstLineAlone(file: string, n: nat)
    requires n == LineLength(file) < |file|
    ensures Lines(file) == [Chomp(file[..n])] + Lines(file[n + 1..])
  {
  }

  /** The first line and the rest, whatever follows the file. */
  lemma FirstLine(file: string, more: string, n: nat)
    requires n == LineLength(file) < |file|
    ensures Lines(file + more) == [Chomp(file[..n])] + Lines(file[n + 1..] + more)
  {
    LineLengthAppend(file, more);
    FirstLineAlone(file + more, n);
    assert (file + more)[..n] == file[..n];
    assert (file + more)[n + 1..] == file[n + 1..] + more;
  }

  lemma {:induction false} LineEnds(file: string)
    ensures LineLength(file) < |file| ==> file[LineLength(file)] == '\n'
    ensures LineLength(file) == |file| && file != "" ==> file[|file| - 1] != '\n'
  {
    if file != "" && file[0] != '\n' {
      LineEnds(file[1..]);
    }
  }

  lemma TailTerminated(file: string, n: nat)
    requires n < |file| && file[n] == '\n'
    ensures Terminated(file) <==> Terminated(file[n + 1..])
  {
    var rest := file[n + 1..];
    if rest != "" {
      assert rest[|rest| - 1] == file[|file| - 1];
    } else {
      assert n == |file| - 1;
    }
  }

  lemma RestTerminated(file: string, n: nat)
    requires n == LineLength(file) < |file|
    ensures Terminated(file) <==> Terminated(file[n + 1..])
  {
    LineEnds(file);
    TailTerminated(file, n);
  }

  /** All lines end with a newline exactly when nothing follows the last one. */
  lemma {:induction false} EndedIsAllIff(file: string)
    ensures Terminated(file) <==> Tail(file) == ""
    ensures Terminated(file) ==> Ended(file) == Lines(file)
    ensures !Terminated(file) ==> |Ended(file)| + 1 == |Lines(file)|
    decreases |file|
  {
    var n := LineLength(file);
    if n < |file| {
      RestTerminated(file, n);
      FirstLineAlone(file, n);
      EndedIsAllIff(file[n + 1..]);
    } else {
      LineEnds(file);
    }
  }

  lemma UptoFirst(line: string, rest: seq<string>, limit: nat)
    requires Size(line) + 1 <= limit
    ensures Upto([line] + rest, limit) == [line] + Upto(rest, limit - Size(line) - 1)
  {
    assert ([line] + rest)[1..] == rest;
  }

  lemma SizeOfSplit(line: string, rest: string)
    ensures Size(line + (['\n'] + rest)) == Size(line) + 1 + Size(rest)
  {
    SizeConcat(line, ['\n'] + rest);
    SizeConcat(['\n'], rest);
    OneByte('\n');
  }

  lemma SplitAtLine(file: string, n: nat)
    requires n == LineLength(file) < |file|
    ensures file == file[..n] + (['\n'] + file[n + 1..])
  {
    LineEnds(file);
  }

  /** The bytes of a first line, its carriage return and its newline, and of the rest. */
  lemma SizeOfFirst(file: string, n: nat)
    requires n == LineLength(file) < |file|
    ensures Size(file) == Size(Chomp(file[..n])) + One(EndsInReturn(file[..n])) + 1 + Size(file[n + 1..])
  {
    var line, rest := file[..n], file[n + 1..];
    SplitAtLine(file, n);
    SizeOfSplit(line, rest);
    ChompedSize(line);
  }

  lemma Unrolled(file: string, n: nat)
    requires n == LineLength(file) < |file|
    ensures Ended(file) == [Chomp(file[..n])] + Ended(file[n + 1..]) && Tail(file) == Tail(file[n + 1..])
    ensures Returns(file) == One(EndsInReturn(file[..n])) + Returns(file[n + 1..])
  {
  }

  /** Reading up to a limit past the bytes a file had, whatever was appended since: its terminated
      lines, and then as much as fits in what is left, which is the bytes after the last newline,
      one for each carriage return that was not counted, and what the limit is past the file. */
  lemma {:induction false} LimitReaches(file: string, more: string, limit: nat, left: nat)
    requires Reaching(file, limit, left)
    ensures Reached(file, more, limit, left)
    decreases |file|
  {
    var n := LineLength(file);
    if n == |file| {
      LastReached(file, more, limit);
    } else {
      var line, rest := Chomp(file[..n]), file[n + 1..];
      ReachingRest(file, limit, left, n, line, rest);
      LimitReaches(rest, more, limit - Size(line) - 1, left);
      LineReached(file, more, limit, left, n, line, rest);
    }
  }

  /** Seen by a proof only when it asks. */
  ghost predicate Reached(file: string, more: string, limit: nat, left: nat) {
    forall k: nat {:trigger Asked(k)} :: k == limit ==>
      Upto(Lines(file + more), limit) == Ended(file) + Upto(Lines(Tail(file) + more), left)
  }

  lemma LastReached(file: string, more: string, limit: nat)
    requires LineLength(file) == |file|
    ensures Reached(file, more, limit, limit)
  {
    assert Ended(file) == [] && Tail(file) == file;
    var visited := Upto(Lines(file + more), limit);
    ConcatNone(visited);
    assert visited == Ended(file) + visited;
  }

  /** What is `left` of the limit once the terminated lines are read. */
  predicate Reaching(file: string, limit: nat, left: nat) {
    Size(file) <= limit && limit + Size(Tail(file)) + Returns(file) == Size(file) + left
  }

  lemma ReachingRest(file: string, limit: nat, left: nat, n: nat, line: string, rest: string)
    requires Reaching(file, limit, left) && n == LineLength(file) < |file|
    requires line == Chomp(file[..n]) && rest == file[n + 1..]
    ensures Size(line) + 1 <= limit && Reaching(rest, limit - Size(line) - 1, left)
  {
    Unrolled(file, n);
    SizeOfFirst(file, n);
  }

  lemma LineReached(file: string, more: string, limit: nat, left: nat, n: nat, line: string, rest: string)
    requires n == LineLength(file) < |file| && line == Chomp(file[..n]) && rest == file[n + 1..]
    requires Size(line) + 1 <= limit && Reached(rest, more, limit - Size(line) - 1, left)
    ensures Reached(file, more, limit, left)
  {
    assert Asked(limit - Size(line) - 1);
    FirstLine(file, more, n);
    Unrolled(file, n);
    OneFurther(line, Lines(rest + more), limit, Ended(rest), Upto(Lines(Tail(rest) + more), left));
  }

  lemma OneFurther(line: string, lines: seq<string>, limit: nat, ended: seq<string>, after: seq<string>)
    requires Size(line) + 1 <= limit && Upto(lines, limit - Size(line) - 1) == ended + after
    ensures Upto([line] + lines, limit) == ([line] + ended) + after
  {
    UptoFirst(line, lines, limit);
    ConcatAssoc([line], ended, after);
  }

  lemma LimitIsSnapshot(file: string, more: string)
    ensures Upto(Lines(file + more), Size(file)) ==
            Ended(file) + Upto(Lines(Tail(file) + more), Size(Tail(file)) + Returns(file))
  {
    LimitReaches(file, more, Size(file), Size(Tail(file)) + Returns(file));
    assert Asked(Size(file));
  }

  /** Of a terminated file its lines, and then of what was appended since as many lines as fit in
      the carriage returns it had: the appender writes those to their label files too. */
  lemma AppendedIsReadAgain(file: string, more: string)
    requires Terminated(file)
    ensures Upto(Lines(file + more), Size(file)) == Lines(file) + Upto(Lines(more), Returns(file))
  {
    EndedIsAllIff(file);
    LimitIsSnapshot(file, more);
    assert "" + more == more;
  }

  /** A line of its own, one byte too long for what is left. */
  lemma TooLong(tail: string, left: nat) returns (more: string)
    requires LineLength(tail) == |tail|
    ensures Upto(Lines(tail + more), Size(tail) + left) == []
  {
    more := seq(left + 1, _ => 'x');
    NoNewline(more);
    LineLengthAppend(tail, more);
    SizeConcat(tail, more);
    SizeAtLeast(more);
    assert Lines(tail + more) == [tail + more];
  }

  lemma {:induction false} TailIsOneLine(file: string)
    ensures LineLength(Tail(file)) == |Tail(file)|
    decreases |file|
  {
    if LineLength(file) < |file| {
      TailIsOneLine(file[LineLength(file) + 1..]);
    }
  }

  /** Reading up to the bytes a file had gives its lines, whatever was appended since, exactly when
      it ended with a newline and no newline had a carriage return before it: a line cut off before
      its newline is left to neither the migration nor the appender. */
  lemma SnapshotIsWholeIff(file: string)
    ensures (forall more: string :: Upto(Lines(file + more), Size(file)) == Lines(file)) <==>
            Terminated(file) && Returns(file) == 0
  {
    if !Terminated(file) {
      var more := NotTheLast(file);
    } else if Returns(file) > 0 {
      OneMore(file);
    } else {
      forall more: string ensures Upto(Lines(file + more), Size(file)) == Lines(file) {
        AppendedIsReadAgain(file, more);
      }
    }
  }

  lemma NotTheLast(file: string) returns (more: string)
    requires !Terminated(file)
    ensures Upto(Lines(file + more), Size(file)) != Lines(file)
  {
    EndedIsAllIff(file);
    TailIsOneLine(file);
    more := TooLong(Tail(file), Returns(file));
    LimitIsSnapshot(file, more);
  }

  lemma OneMore(file: string)
    requires Terminated(file) && Returns(file) > 0
    ensures Upto(Lines(file + "\n"), Size(file)) != Lines(file)
  {
    AppendedIsReadAgain(file, "\n");
    OneLine("");
    assert "" + "\n" == "\n";
    assert Upto([""], Returns(file)) == [""] + Upto([""][1..], Returns(file) - 1);
  }

  /** An appended line is a line of its own, if the file was terminated. */
  lemma {:induction false} AppendedLine(file: string, line: string)
    requires Terminated(file) && forall i :: 0 <= i < |line| ==> line[i] != '\n'
    ensures Lines(file + (line + "\n")) == Lines(file) + [Chomp(line)]
    decreases |file|
  {
    if file == "" {
      assert file + (line + "\n") == line + "\n";
      OneLine(line);
    } else {
      LineEnds(file);
      var n := LineLength(file);
      var first, rest := Chomp(file[..n]), file[n + 1..];
      FirstLine(file, line + "\n", n);
      FirstLineAlone(file, n);
      RestTerminated(file, n);
      AppendedLine(rest, line);
      ConcatAssoc([first], Lines(rest), [Chomp(line)]);
    }
  }

  lemma OneLine(line: string)
    requires forall i :: 0 <= i < |line| ==> line[i] != '\n'
    ensures Lines(line + "\n") == [Chomp(line)]
  {
    LineLengthAppend(line, "\n");
    NoNewline(line);
    assert (line + "\n")[..|line|] == line && (line + "\n")[|line| + 1..] == "";
  }

  lemma {:induction false} NoNewline(line: string)
    requires forall i :: 0 <= i < |line| ==> line[i] != '\n'
    ensures LineLength(line) == |line|
  {
    if line != "" {
      NoNewline(line[1..]);
    }
  }

  // ----- What is visited: trimmed lines that are not blank -----

  /** The characters `trim` drops: Unicode white space. */
  predicate IsSpace(c: char) {
    || '\t' <= c <= '\r' || c == ' ' || c == '\U{85}' || c == '\U{A0}' || c == '\U{1680}'
    || '\U{2000}' <= c <= '\U{200A}' || c == '\U{2028}' || c == '\U{2029}' || c == '\U{202F}'
    || c == '\U{205F}' || c == '\U{3000}'
  }

  predicate Blank(line: string) {
    forall i :: 0 <= i < |line| ==> IsSpace(line[i])
  }

  function TrimStart(line: string): string {
    if line != "" && IsSpace(line[0]) then TrimStart(line[1..]) else line
  }

  function TrimEnd(line: string): string {
    if line != "" && IsSpace(line[|line| - 1]) then TrimEnd(line[..|line| - 1]) else line
  }

  function Trim(line: string): string {
    TrimEnd(TrimStart(line))
  }

  /** Neither begins nor ends with white space. */
  predicate Trimmed(line: string) {
    line == "" || (!IsSpace(line[0]) && !IsSpace(line[|line| - 1]))
  }

  lemma {:induction false} TrimStartIs(line: string) returns (before: string)
    ensures line == before + TrimStart(line) && Blank(before)
    ensures TrimStart(line) == "" || !IsSpace(TrimStart(line)[0])
  {
    before := "";
    if line != "" && IsSpace(line[0]) {
      var rest := TrimStartIs(line[1..]);
      before := [line[0]] + rest;
      ConcatAssoc([line[0]], rest, TrimStart(line));
      assert line == [line[0]] + line[1..];
    }
  }

  lemma {:induction false} TrimEndIs(line: string) returns (after: string)
    ensures line == TrimEnd(line) + after && Blank(after)
    ensures TrimEnd(line) == "" || !IsSpace(TrimEnd(line)[|TrimEnd(line)| - 1])
  {
    after := "";
    if line != "" && IsSpace(line[|line| - 1]) {
      var rest := TrimEndIs(line[..|line| - 1]);
      after := rest + [line[|line| - 1]];
      ConcatAssoc(TrimEnd(line), rest, [line[|line| - 1]]);
      assert line == line[..|line| - 1] + [line[|line| - 1]];
    }
  }

  /** Trimming drops the white space at both ends and nothing else. */
  lemma TrimIs(line: string) returns (before: string, after: string)
    ensures line == before + Trim(line) + after && Blank(before) && Blank(after) && Trimmed(Trim(line))
  {
    before := TrimStartIs(line);
    after := TrimEndIs(TrimStart(line));
    ConcatAssoc(before, Trim(line), after);
    if Trim(line) != "" {
      assert Trim(line)[0] == TrimStart(line)[0];
    }
  }

  /** The lines that are not blank, trimmed. */
  function Visible(lines: seq<string>): seq<string> {
    if lines == [] then []
    else (if Trim(lines[0]) == "" then [] else [Trim(lines[0])]) + Visible(lines[1..])
  }

  lemma {:induction false} VisibleOneMore(lines: seq<string>, line: string)
    ensures Visible(lines + [line]) == Visible(lines) + if Trim(line) == "" then [] else [Trim(line)]
  {
    if lines != [] {
      ConcatTail(lines, [line]);
      VisibleOneMore(lines[1..], line);
      ConcatAssoc(if Trim(lines[0]) == "" then [] else [Trim(lines[0])], Visible(lines[1..]),
                  if Trim(line) == "" then [] else [Trim(line)]);
    }
  }

  /** Lines written as records are, trimmed and not blank, are visited as they are. */
  lemma {:induction false} RecordsAreVisible(lines: seq<string>)
    requires forall i :: 0 <= i < |lines| ==> lines[i] != "" && Trimmed(lines[i])
    ensures Visible(lines) == lines
  {
    if lines != [] {
      RecordsAreVisible(lines[1..]);
      assert Trim(lines[0]) == lines[0];
    }
  }

  /** The lines of a file that end within the limit, if there is one. */
  function Within(lines: seq<string>, limit: Option<nat>): seq<string> {
    if limit.Some? then Upto(lines, limit.value) else lines
  }

  lemma UptoNext(lines: seq<string>, i: nat, left: nat)
    requires i < |lines|
    ensures Upto(lines[i..], left) ==
            if Size(lines[i]) + 1 > left then [] else [lines[i]] + Upto(lines[i + 1..], left - Size(lines[i]) - 1)
  {
    assert lines[i..][1..] == lines[i + 1..];
  }

  /** The first `i` lines are read, `consumed` bytes in all, and within the limit. */
  ghost predicate Reads(lines: seq<string>, limit: Option<nat>, i: nat, consumed: nat, read: seq<string>) {
    && i <= |lines| && read == lines[..i]
    && (limit.Some? ==>
          consumed <= limit.value && Upto(lines, limit.value) == read + Upto(lines[i..], limit.value - consumed))
  }

  lemma ReadsNone(lines: seq<string>, limit: Option<nat>)
    ensures Reads(lines, limit, 0, 0, [])
  {
    assert lines[0..] == lines;
  }

  lemma ReadsMore(lines: seq<string>, limit: Option<nat>, i: nat, consumed: nat, read: seq<string>)
    requires Reads(lines, limit, i, consumed, read) && i < |lines|
    requires limit.Some? ==> consumed + Size(lines[i]) + 1 <= limit.value
    ensures Reads(lines, limit, i + 1, consumed + Size(lines[i]) + 1, read + [lines[i]])
  {
    assert lines[..i] + [lines[i]] == lines[..i + 1];
    if limit.Some? {
      UptoStep(lines, i, limit.value - consumed, read, Upto(lines, limit.value));
    }
  }

  lemma UptoStep(lines: seq<string>, i: nat, left: nat, read: seq<string>, all: seq<string>)
    requires i < |lines| && Size(lines[i]) + 1 <= left && all == read + Upto(lines[i..], left)
    ensures all == (read + [lines[i]]) + Upto(lines[i + 1..], left - Size(lines[i]) - 1)
  {
    UptoNext(lines, i, left);
    ConcatAssoc(read, [lines[i]], Upto(lines[i + 1..], left - Size(lines[i]) - 1));
  }

  lemma ReadsAll(lines: seq<string>, limit: Option<nat>, i: nat, consumed: nat, read: seq<string>)
    requires Reads(lines, limit, i, consumed, read)
    requires i == |lines| || (limit.Some? && consumed + Size(lines[i]) + 1 > limit.value)
    ensures read == Within(lines, limit)
  {
    if i < |lines| {
      UptoNext(lines, i, limit.value - consumed);
    } else {
      assert lines[i..] == [] && lines[..i] == lines;
    }
  }

  /** `for_each_line_upto`: the lines in the order they are visited. */
  method ForEachLineUpto(lines: seq<string>, limit: Option<nat>) returns (visited: seq<string>)
    ensures visited == Visible(Within(lines, limit))
  {
    visited := [];
    var consumed, i := 0, 0;
    ghost var read: seq<string> := [];
    ReadsNone(lines, limit);
    while i < |lines|
      invariant 0 <= i && 0 <= consumed && Reads(lines, limit, i, consumed, read) && visited == Visible(read)
    {
      var line := lines[i];
      if limit.Some? && consumed + Size(line) + 1 > limit.value {
        break;
      }
      ReadsMore(lines, limit, i, consumed, read);
      VisibleOneMore(read, line);
      consumed, i, read := consumed + Size(line) + 1, i + 1, read + [line];
      var trimmed := Trim(line);
      if trimmed == "" {
        continue;
      }
      visited := visited + [trimmed];
    }
    ReadsAll(lines, limit, i, consumed, read);
  }

  lemma {:induction false} VisibleConcat(a: seq<string>, b: seq<string>)
    ensures Visible(a + b) == Visible(a) + Visible(b)
  {
    if a == [] {
      assert a + b == b;
    } else {
      ConcatTail(a, b);
      VisibleConcat(a[1..], b);
      ConcatAssoc(if Trim(a[0]) == "" then [] else [Trim(a[0])], Visible(a[1..]), Visible(b));
    }
  }

  lemma UptoOne(lines: seq<string>, limit: nat)
    requires limit <= 1
    ensures Visible(Upto(lines, limit)) == []
  {
    if lines != [] && Size(lines[0]) + 1 <= limit {
      SizeAtLeast(lines[0]);
      assert Upto(lines[1..], 0) == [];
      assert Upto(lines, limit) == [""];
      assert [""][1..] == [] && Visible([""]) == [];
    }
  }

  /** What the migration visits of a terminated file of records, whatever was appended since, is what
      the file held, record for record, exactly when it had at most one carriage return before a
      newline. With two, a record of one byte appended since would be copied and appended. */
  lemma MigrationReadsRecordsIff(file: string)
    requires Terminated(file)
    requires forall i :: 0 <= i < |Lines(file)| ==> Lines(file)[i] != "" && Trimmed(Lines(file)[i])
    ensures (forall more: string :: Visible(Within(Lines(file + more), Some(Size(file)))) == Lines(file)) <==>
            Returns(file) <= 1
  {
    RecordsAreVisible(Lines(file));
    forall more: string
      ensures Visible(Within(Lines(file + more), Some(Size(file)))) ==
              Lines(file) + Visible(Upto(Lines(more), Returns(file)))
    {
      AppendedIsReadAgain(file, more);
      VisibleConcat(Lines(file), Upto(Lines(more), Returns(file)));
    }
    if Returns(file) <= 1 {
      forall more: string ensures Visible(Upto(Lines(more), Returns(file))) == [] {
        UptoOne(Lines(more), Returns(file));
      }
    } else {
      ReadsAnother(Returns(file));
      assert |Visible(Within(Lines(file + "x\n"), Some(Size(file))))| == |Lines(file)| + 1;
    }
  }

  lemma ReadsAnother(left: nat)
    requires left >= 2
    ensures Visible(Upto(Lines("x\n"), left)) == ["x"]
  {
    OneLine("x");
    assert "x" + "\n" == "x\n";
    OneByte('x');
    assert ["x"][1..] == [];
    assert Upto(["x"], left) == ["x"];
    assert Trim("x") == "x" && Visible(["x"]) == ["x"];
  }
}
