/** Loading the embedded migrations: file names give the order, break lines split the scripts. */
module Manifest {
  import opened Collections
  import opened Migrations

  // ----- names and versions -----

  predicate Digit(c: char) { '0' <= c <= '9' }

  predicate WordChar(c: char) { 'a' <= c <= 'z' || Digit(c) || c == '_' }

  /** Fourteen digits, an underscore, at least one of [a-z0-9_], and ".sql". */
  predicate ValidName(name: string)
  {
    && |name| >= 20
    && (forall i :: 0 <= i < 14 ==> Digit(name[i]))
    && name[14] == '_'
    && (forall i :: 15 <= i < |name| - 4 ==> WordChar(name[i]))
    && name[|name| - 4..] == ".sql"
  }

  /** Fourteen digits, an underscore, a word, ".sql". */
  ghost predicate NameOf(name: string, digits: string, word: string)
  {
    && name == digits + "_" + word + ".sql" && |digits| == 14 && word != ""
    && (forall c :: c in digits ==> '0' <= c <= '9')
    && (forall c :: c in word ==> 'a' <= c <= 'z' || '0' <= c <= '9' || c == '_')
  }

  /** What a migration file may be called. */
  lemma NameByText(name: string)
    ensures ValidName(name) <==> exists digits, word :: NameOf(name, digits, word)
  {
    if ValidName(name) {
      var digits, word := name[..14], name[15..|name| - 4];
      assert name == digits + "_" + word + ".sql";
      forall c | c in digits ensures '0' <= c <= '9' { var i :| 0 <= i < 14 && name[i] == c; }
      forall c | c in word ensures WordChar(c) { var i :| 0 <= i < |word| && word[i] == c; assert name[15 + i] == c; }
      assert NameOf(name, digits, word);
    }
    if digits, word :| NameOf(name, digits, word) {
      forall i | 0 <= i < 14 ensures Digit(name[i]) { assert name[i] == digits[i] && digits[i] in digits; }
      forall i | 15 <= i < |name| - 4 ensures WordChar(name[i]) { assert name[i] == word[i - 15] && word[i - 15] in word; }
    }
  }

  function Pow10(n: nat): nat
  {
    if n == 0 then 1 else 10 * Pow10(n - 1)
  }

  function DigitValue(c: char): nat
    requires Digit(c)
  {
    c as int - '0' as int
  }

  /** The number that a string of digits denotes. */
  function Decimal(s: string): nat
    requires forall i :: 0 <= i < |s| ==> Digit(s[i])
  {
    if s == [] then 0 else DigitValue(s[0]) * Pow10(|s| - 1) + Decimal(s[1..])
  }

  function Version(name: string): nat
    requires ValidName(name)
  {
    Decimal(name[..14])
  }

  /** Reading one more digit, as a decimal parser does. */
  lemma {:induction false} DecimalReads(s: string, c: char)
    requires (forall i :: 0 <= i < |s| ==> Digit(s[i])) && Digit(c)
    ensures Decimal(s + [c]) == 10 * Decimal(s) + (c as int - '0' as int)
  {
    if s == [] {
      assert ([] + [c])[1..] == [] && Pow10(0) == 1;
    } else {
      DecimalReads(s[1..], c);
      assert (s + [c])[1..] == s[1..] + [c];
      TenTimes(DigitValue(s[0]), Pow10(|s| - 1));
    }
  }

  lemma TenTimes(x: nat, p: nat)
    ensures x * (10 * p) == 10 * (x * p)
  {
  }

  lemma Scale(x: nat, y: nat, p: nat)
    requires x < y
    ensures x * p + p <= y * p
  {
    assert (x + 1) * p <= y * p;
  }

  lemma DecimalHead(a: string, n: nat)
    requires 0 < n <= |a| && forall i :: 0 <= i < n ==> Digit(a[i])
    ensures Decimal(a[..n]) == DigitValue(a[0]) * Pow10(n - 1) + Decimal(a[1..][..n - 1])
  {
    assert a[..n][1..] == a[1..][..n - 1];
  }

  lemma {:induction false} DecimalBound(s: string)
    requires forall i :: 0 <= i < |s| ==> Digit(s[i])
    ensures Decimal(s) < Pow10(|s|)
  {
    if s != [] {
      DecimalBound(s[1..]);
      Scale(DigitValue(s[0]), 10, Pow10(|s| - 1));
    }
  }

  /** Among digit strings of one length, string order is numeric order. */
  lemma {:induction false} DecimalOrder(a: string, b: string, n: nat)
    requires n <= |a| && n <= |b| && StrLeq(a, b)
    requires forall i :: 0 <= i < n ==> Digit(a[i]) && Digit(b[i])
    ensures Decimal(a[..n]) <= Decimal(b[..n])
  {
    if n > 0 {
      DecimalHead(a, n);
      DecimalHead(b, n);
      hide Decimal, Pow10;
      if a[0] == b[0] {
        DecimalOrder(a[1..], b[1..], n - 1);
      } else {
        DecimalBound(a[1..][..n - 1]);
        Scale(DigitValue(a[0]), DigitValue(b[0]), Pow10(n - 1));
      }
    }
  }

  // ----- scripts -----

  /** White space as the scanner's trimming sees it, on ASCII. */
  predicate Space(c: char) { c == ' ' || '\t' <= c <= '\r' }

  function TrimLeft(s: string): string
  {
    if s != [] && Space(s[0]) then TrimLeft(s[1..]) else s
  }

  function TrimRight(s: string): string
  {
    if s != [] && Space(s[|s| - 1]) then TrimRight(s[..|s| - 1]) else s
  }

  function Trim(s: string): string { TrimRight(TrimLeft(s)) }

  const BREAK := "-- +scc StatementBreak"

  predicate IsBreak(line: string) { Trim(line) == BREAK }

  /** A line that is neither blank nor a comment. */
  predicate Executable(line: string)
  {
    var trimmed := Trim(line);
    trimmed != [] && !("--" <= trimmed)
  }

  predicate HasExecutable(lines: seq<string>)
  {
    exists i :: 0 <= i < |lines| && Executable(lines[i])
  }

  predicate AllSpace(s: string)
  {
    forall c :: c in s ==> c == ' ' || c == '\t' || c == '\n' || c == '\r' || c == '\U{0B}' || c == '\U{0C}'
  }

  lemma {:induction false} TrimLeftSplits(s: string) returns (left: string)
    ensures s == left + TrimLeft(s) && AllSpace(left)
    ensures TrimLeft(s) == [] || !Space(TrimLeft(s)[0])
  {
    if s != [] && Space(s[0]) {
      left := TrimLeftSplits(s[1..]);
      left := [s[0]] + left;
    } else {
      left := [];
    }
  }

  lemma {:induction false} TrimRightSplits(s: string) returns (right: string)
    ensures s == TrimRight(s) + right && AllSpace(right)
    ensures TrimRight(s) == [] || !Space(TrimRight(s)[|TrimRight(s)| - 1])
    ensures TrimRight(s) != [] ==> TrimRight(s)[0] == s[0]
  {
    if s != [] && Space(s[|s| - 1]) {
      right := TrimRightSplits(s[..|s| - 1]);
      right := right + [s[|s| - 1]];
    } else {
      right := [];
    }
  }

  /** Trimming takes white space off both ends and leaves none there. */
  lemma TrimSplits(s: string) returns (left: string, right: string)
    ensures s == left + Trim(s) + right && AllSpace(left) && AllSpace(right)
    ensures Trim(s) != [] ==> !AllSpace([Trim(s)[0]]) && !AllSpace([Trim(s)[|Trim(s)| - 1]])
  {
    left := TrimLeftSplits(s);
    right := TrimRightSplits(TrimLeft(s));
    SpaceIs();
  }

  lemma {:induction false} TrimLeftOf(left: string, rest: string)
    requires AllSpace(left) && (rest == [] || !Space(rest[0]))
    ensures TrimLeft(left + rest) == rest
  {
    if left == [] {
      assert left + rest == rest;
    } else {
      assert left[0] in left && (left + rest)[1..] == left[1..] + rest;
      assert forall c :: c in left[1..] ==> c in left;
      TrimLeftOf(left[1..], rest);
    }
  }

  lemma {:induction false} TrimRightOf(rest: string, right: string)
    requires AllSpace(right) && (rest == [] || !Space(rest[|rest| - 1]))
    ensures TrimRight(rest + right) == rest
  {
    var n := |right| - 1;
    if right == [] {
      assert rest + right == rest;
    } else {
      assert right[n] in right && (rest + right)[..|rest + right| - 1] == rest + right[..n];
      assert forall c :: c in right[..n] ==> c in right;
      TrimRightOf(rest, right[..n]);
    }
  }

  /** Text between white space is what trimming leaves. */
  lemma TrimOf(left: string, middle: string, right: string)
    requires AllSpace(left) && AllSpace(right)
    requires middle != [] && !Space(middle[0]) && !Space(middle[|middle| - 1])
    ensures Trim(left + middle + right) == middle
  {
    assert left + middle + right == left + (middle + right);
    TrimLeftOf(left, middle + right);
    TrimRightOf(middle, right);
  }

  /** Which lines separate statements. */
  lemma BreakByText(line: string)
    ensures IsBreak(line) <==>
            exists left, right :: AllSpace(left) && AllSpace(right) && line == left + "-- +scc StatementBreak" + right
  {
    hide TrimLeft, TrimRight;
    if IsBreak(line) {
      var left, right := TrimSplits(line);
      assert line == left + "-- +scc StatementBreak" + right;
    }
    if left, right :| AllSpace(left) && AllSpace(right) && line == left + "-- +scc StatementBreak" + right {
      TrimOf(left, BREAK, right);
    }
  }

  /** Which lines make a statement one that can run: something is on them, and it is no comment. */
  lemma ExecutableByText(line: string)
    ensures Executable(line) <==>
            exists left, rest :: AllSpace(left) && line == left + rest && rest != "" && !AllSpace(rest[..1]) && !("--" <= rest)
  {
    SpaceIs();
    if Executable(line) {
      var left, right := TrimSplits(line);
      var rest := Trim(line) + right;
      assert line == left + rest && rest[..1] == [Trim(line)[0]];
      CommentStays(Trim(line), right);
    }
    if left, rest :| AllSpace(left) && line == left + rest && rest != "" && !AllSpace(rest[..1]) && !("--" <= rest) {
      assert rest[..1] == [rest[0]];
      TrimLeftOf(left, rest);
      var right := TrimRightSplits(rest);
      TrimmedStarts(rest);
      assert TrimRight(rest) <= rest;
    }
  }

  lemma CommentStays(middle: string, right: string)
    requires middle != [] && AllSpace(right)
    ensures "--" <= middle + right <==> "--" <= middle
  {
    if |middle| >= 2 {
      assert (middle + right)[..2] == middle[..2];
    } else if right != [] {
      assert right[0] in right && (middle + right)[1] == right[0];
    }
  }

  lemma {:induction false} TrimmedStarts(s: string)
    requires s != [] && !Space(s[0])
    ensures TrimRight(s) != []
  {
    if Space(s[|s| - 1]) {
      assert s[..|s| - 1][0] == s[0];
      TrimmedStarts(s[..|s| - 1]);
    }
  }

  lemma SpaceIs()
    ensures forall c: char :: Space(c) <==> AllSpace([c])
  {
    forall c: char ensures Space(c) <==> AllSpace([c]) { assert c in [c]; }
  }

  /** The statements of a script given line by line, after `current` lines of the next one. */
  function Split(current: seq<string>, lines: seq<string>): seq<seq<string>>
    decreases |lines|
  {
    if lines == [] then Flush(current)
    else if IsBreak(lines[0]) then Flush(current) + Split([], lines[1..])
    else Split(current + [lines[0]], lines[1..])
  }

  function Flush(current: seq<string>): seq<seq<string>>
  {
    if HasExecutable(current) then [current] else []
  }

  /** A script that separates the given statements by break lines. */
  function Script(statements: seq<seq<string>>): seq<string>
  {
    if statements == [] then [] else statements[0] + [BREAK] + Script(statements[1..])
  }

  predicate PlainStatement(lines: seq<string>)
  {
    HasExecutable(lines) && forall i :: 0 <= i < |lines| ==> !IsBreak(lines[i])
  }

  lemma {:induction false} SplitPlain(current: seq<string>, plain: seq<string>, rest: seq<string>)
    requires forall i :: 0 <= i < |plain| ==> !IsBreak(plain[i])
    ensures Split(current, plain + rest) == Split(current + plain, rest)
    decreases |plain|
  {
    if plain == [] {
      assert plain + rest == rest && current + plain == current;
    } else {
      assert (plain + rest)[1..] == plain[1..] + rest;
      assert current + [plain[0]] + plain[1..] == current + plain;
      SplitPlain(current + [plain[0]], plain[1..], rest);
    }
  }

  lemma BreakIsBreak()
    ensures IsBreak(BREAK)
  {
    assert TrimLeft(BREAK) == BREAK && TrimRight(BREAK) == BREAK;
  }

  /** Splitting a script gives back the statements it was put together from. */
  lemma {:induction false} SplitScript(statements: seq<seq<string>>)
    requires forall i :: 0 <= i < |statements| ==> PlainStatement(statements[i])
    ensures Split([], Script(statements)) == statements
  {
    if statements != [] {
      var rest := Script(statements[1..]);
      assert Script(statements) == statements[0] + ([BREAK] + rest);
      SplitPlain([], statements[0], [BREAK] + rest);
      assert [] + statements[0] == statements[0];
      BreakIsBreak();
      assert ([BREAK] + rest)[1..] == rest;
      SplitScript(statements[1..]);
      assert Split(statements[0], [BREAK] + rest) == [statements[0]] + Split([], rest);
    }
  }

  /** Every statement of a script can run and holds no break line. */
  lemma {:induction false} SplitIsPlain(current: seq<string>, lines: seq<string>)
    requires forall i :: 0 <= i < |current| ==> !IsBreak(current[i])
    ensures forall k :: 0 <= k < |Split(current, lines)| ==> PlainStatement(Split(current, lines)[k])
    decreases |lines|
  {
    if lines != [] {
      if IsBreak(lines[0]) {
        SplitIsPlain([], lines[1..]);
      } else {
        SplitIsPlain(current + [lines[0]], lines[1..]);
      }
    }
  }

  // ----- texts -----

  /** What the scanner's buffer holds: a line must end before it is full. */
  const MAX_LINE := 4 * 1024 * 1024

  function DropCR(line: string): string
  {
    if line != [] && line[|line| - 1] == '\r' then line[..|line| - 1] else line
  }

  /** The lines of a text, after `current` characters of the next one; none when one is too long. */
  function Lines(current: string, text: string): Option<seq<string>>
    decreases |text|
  {
    if |current| >= MAX_LINE then None
    else if text == [] then Some(if current == [] then [] else [DropCR(current)])
    else if text[0] == '\n' then Preceded(DropCR(current), Lines([], text[1..]))
    else Lines(current + [text[0]], text[1..])
  }

  function Preceded(line: string, rest: Option<seq<string>>): Option<seq<string>>
  {
    if rest.None? then None else Some([line] + rest.value)
  }

  /** Four mebibytes without a line feed, from position i on. */
  ghost predicate Stretch(text: string, i: nat)
  {
    i + 4_194_304 <= |text| && '\n' !in text[i..i + 4_194_304]
  }

  lemma StretchEnds(text: string, i: nat, k: nat)
    requires i <= k < i + 4_194_304 && k < |text| && text[k] == '\n'
    ensures !Stretch(text, i)
  {
    if i + 4_194_304 <= |text| {
      assert text[i..i + 4_194_304][k - i] == '\n';
    }
  }

  lemma {:induction false} ScanFails(current: string, text: string)
    requires |current| <= MAX_LINE && '\n' !in current
    ensures Lines(current, text).None? <==> exists i: nat :: Stretch(current + text, i)
    decreases |text|
  {
    var whole := current + text;
    if |current| == MAX_LINE {
      assert whole[0..4_194_304] == current;
      assert Stretch(whole, 0);
    } else if text == [] {
      assert |whole| < 4_194_304;
    } else if text[0] == '\n' {
      ScanFails([], text[1..]);
      assert [] + text[1..] == text[1..];
      var n := |current| + 1;
      assert whole[n..] == text[1..] && whole[|current|] == '\n';
      forall i: nat | i < n ensures !Stretch(whole, i) { StretchEnds(whole, i, |current|); }
      if i: nat :| Stretch(text[1..], i) {
        assert whole[i + n..i + n + 4_194_304] == text[1..][i..i + 4_194_304];
        assert Stretch(whole, i + n);
      }
      if i: nat :| Stretch(whole, i) {
        assert whole[i..i + 4_194_304] == text[1..][i - n..i - n + 4_194_304];
        assert Stretch(text[1..], i - n);
      }
    } else {
      assert current + [text[0]] + text[1..] == whole;
      ScanFails(current + [text[0]], text[1..]);
    }
  }

  /** Scanning a script fails exactly when a line of it does not fit the buffer. */
  lemma LinesFail(script: string)
    ensures Lines([], script).None? <==> exists i: nat :: Stretch(script, i)
  {
    ScanFails([], script);
    assert [] + script == script;
  }

  /** Lines put together again, each ended by a line feed. */
  function Joined(lines: seq<string>): string
  {
    if lines == [] then "" else lines[0] + "\n" + Joined(lines[1..])
  }

  predicate PlainLine(line: string)
  {
    |line| < MAX_LINE && '\n' !in line && (line == [] || line[|line| - 1] != '\r')
  }

  lemma {:induction false} LineScanned(current: string, line: string, rest: string)
    requires |current| + |line| < MAX_LINE && '\n' !in line
    ensures Lines(current, line + "\n" + rest) == Preceded(DropCR(current + line), Lines([], rest))
    decreases |line|
  {
    var text := line + "\n" + rest;
    if line == [] {
      assert text[0] == '\n' && text[1..] == rest && current + line == current;
    } else {
      assert text[0] == line[0] && text[1..] == line[1..] + "\n" + rest;
      assert current + [line[0]] + line[1..] == current + line;
      LineScanned(current + [line[0]], line[1..], rest);
    }
  }

  /** Scanning the text of plain lines gives the lines back. */
  lemma {:induction false} LinesJoined(lines: seq<string>)
    requires forall i :: 0 <= i < |lines| ==> PlainLine(lines[i])
    ensures Lines([], Joined(lines)) == Some(lines)
  {
    if lines != [] {
      LinesJoined(lines[1..]);
      LineScanned([], lines[0], Joined(lines[1..]));
      assert [] + lines[0] == lines[0] && [lines[0]] + lines[1..] == lines;
      hide Lines;
    }
  }

  /** The statements of a script; none when a line is too long or nothing in it can run. */
  function Statements(script: string): seq<seq<string>>
  {
    var lines := Lines([], script);
    if lines.None? then [] else Split([], lines.value)
  }

  lemma {:induction false} ScriptLines(statements: seq<seq<string>>)
    requires forall i, j :: 0 <= i < |statements| && 0 <= j < |statements[i]| ==> PlainLine(statements[i][j])
    ensures forall k :: 0 <= k < |Script(statements)| ==> PlainLine(Script(statements)[k])
  {
    if statements != [] {
      ScriptLines(statements[1..]);
      assert PlainLine(BREAK);
      hide PlainLine;
    }
  }

  /** The text of a script gives back the statements it was put together from. */
  lemma ScriptText(statements: seq<seq<string>>)
    requires forall i :: 0 <= i < |statements| ==> PlainStatement(statements[i])
    requires forall i, j :: 0 <= i < |statements| && 0 <= j < |statements[i]| ==> PlainLine(statements[i][j])
    ensures Statements(Joined(Script(statements))) == statements
  {
    ScriptLines(statements);
    LinesJoined(Script(statements));
    SplitScript(statements);
    hide Lines, Split, Script, Joined, PlainLine;
  }

  method ScanLines(script: string) returns (lines: Option<seq<string>>)
    ensures lines == Lines([], script)
  {
    var done := [];
    var current := [];
    NothingBehind(Lines([], script));
    assert script[0..] == script;
    for i := 0 to |script|
      invariant Lines([], script) == Behind(done, Lines(current, script[i..]))
    {
      assert script[i..][1..] == script[i + 1..];
      if |current| >= MAX_LINE {
        return None;
      }
      if script[i] == '\n' {
        BehindLine(done, DropCR(current), Lines([], script[i + 1..]));
        done := done + [DropCR(current)];
        current := [];
      } else {
        current := current + [script[i]];
      }
    }
    assert script[|script|..] == [];
    if |current| >= MAX_LINE {
      return None;
    }
    lines := Some(if current == [] then done else done + [DropCR(current)]);
    assert done + [] == done;
  }

  lemma NothingBehind(rest: Option<seq<string>>)
    ensures Behind([], rest) == rest
  {
    if rest.Some? {
      assert [] + rest.value == rest.value;
    }
  }

  function Behind(done: seq<string>, rest: Option<seq<string>>): Option<seq<string>>
  {
    if rest.None? then None else Some(done + rest.value)
  }

  lemma BehindLine(done: seq<string>, line: string, rest: Option<seq<string>>)
    ensures Behind(done, Preceded(line, rest)) == Behind(done + [line], rest)
  {
    if rest.Some? {
      assert done + ([line] + rest.value) == done + [line] + rest.value;
    }
  }

  method SplitStatements(script: string) returns (statements: seq<seq<string>>)
    ensures statements == Statements(script)
  {
    hide Lines;
    var scanned := ScanLines(script);
    if scanned.None? {
      return [];
    }
    statements := SplitLines(scanned.value);
  }

  method SplitLines(lines: seq<string>) returns (statements: seq<seq<string>>)
    ensures statements == Split([], lines)
  {
    statements := [];
    var current := [];
    for i := 0 to |lines|
      invariant statements + Split(current, lines[i..]) == Split([], lines)
    {
      SplitNext(statements, current, lines, i);
      if IsBreak(lines[i]) {
        statements := statements + Flush(current);
        current := [];
      } else {
        current := current + [lines[i]];
      }
      hide Split, IsBreak, Flush;
    }
    assert lines[|lines|..] == [];
    statements := statements + Flush(current);
  }

  lemma SplitNext(statements: seq<seq<string>>, current: seq<string>, lines: seq<string>, i: nat)
    requires i < |lines|
    ensures statements + Split(current, lines[i..]) ==
            if IsBreak(lines[i]) then statements + Flush(current) + Split([], lines[i + 1..])
            else statements + Split(current + [lines[i]], lines[i + 1..])
  {
    assert lines[i..][1..] == lines[i + 1..];
    hide IsBreak, Flush;
  }

  // ----- the manifest -----

  /** File names and the text of each file, a character for each byte. */
  type Files = map<string, string>

  /** A directory that loads: at least one file, valid names, distinct versions, no empty script. */
  predicate Loadable(files: Files)
  {
    && files != map[]
    && (forall name :: name in files ==> ValidName(name) && Statements(files[name]) != [])
    && (forall a, b :: a in files && b in files && ValidName(a) && ValidName(b) && Version(a) == Version(b) ==> a == b)
  }

  function Texts(statements: seq<seq<string>>): seq<string>
  {
    seq(|statements|, i requires 0 <= i < |statements| => Trim(Joined(statements[i])))
  }

  function SourceOf(name: string, files: Files, digest: string -> string): Source
    requires name in files && ValidName(name)
  {
    Source(Version(name), name, digest(files[name]), Texts(Statements(files[name])))
  }

  /** What the first n files of the listing have yielded. */
  ghost predicate LoadedSoFar(files: Files, digest: string -> string, paths: seq<string>, n: nat, sources: seq<Source>)
  {
    && n <= |paths| && |sources| == n && Increasing(sources)
    && forall k :: 0 <= k < n ==> FileLoads(files, paths[k]) && sources[k] == SourceOf(paths[k], files, digest)
  }

  ghost predicate Ascending(paths: seq<string>)
  {
    forall i, j :: 0 <= i < j < |paths| ==> StrLeq(paths[i], paths[j]) && paths[i] != paths[j]
  }

  predicate HasVersion(sources: seq<Source>, v: int)
  {
    exists k :: 0 <= k < |sources| && sources[k].version == v
  }

  lemma VersionsGrow(sources: seq<Source>, x: Source)
    ensures forall v :: HasVersion(sources + [x], v) <==> HasVersion(sources, v) || v == x.version
  {
    forall v ensures HasVersion(sources + [x], v) <==> HasVersion(sources, v) || v == x.version {
      if HasVersion(sources, v) {
        var k :| 0 <= k < |sources| && sources[k].version == v;
        assert (sources + [x])[k].version == v;
      }
      assert (sources + [x])[|sources|] == x;
    }
  }

  lemma NoVersions()
    ensures forall v :: !HasVersion([], v)
  {
  }

  predicate FileLoads(files: Files, name: string)
  {
    name in files && ValidName(name) && Statements(files[name]) != []
  }

  lemma LoadNext(files: Files, digest: string -> string, paths: seq<string>, n: nat, sources: seq<Source>)
    requires LoadedSoFar(files, digest, paths, n, sources) && n < |paths| && FileLoads(files, paths[n])
    requires forall k :: 0 <= k < n ==> StrLeq(paths[k], paths[n]) && sources[k].version != Version(paths[n])
    ensures LoadedSoFar(files, digest, paths, n + 1, sources + [SourceOf(paths[n], files, digest)])
    ensures SourceOf(paths[n], files, digest).version == Version(paths[n])
  {
    forall k | 0 <= k < n ensures sources[k].version < Version(paths[n]) {
      assert ValidName(paths[k]) && ValidName(paths[n]);
      DecimalOrder(paths[k], paths[n], 14);
    }
    hide Decimal, Statements, Texts;
  }

  lemma LoadedAll(files: Files, digest: string -> string, paths: seq<string>, sources: seq<Source>)
    requires LoadedSoFar(files, digest, paths, |paths|, sources) && paths != []
    requires forall name :: name in paths <==> name in files
    ensures Loadable(files)
  {
    hide Decimal, Statements, Texts, Version, ValidName, Increasing, LoadedSoFar, FileLoads;
    forall a, b | a in files && b in files && ValidName(a) && ValidName(b) && Version(a) == Version(b) ensures a == b {
      OneVersion(files, digest, paths, sources, a, b);
    }
    forall name | name in files ensures ValidName(name) && Statements(files[name]) != [] {
      assert name in paths;
      OneLoaded(files, digest, paths, sources, name);
    }
    assert paths[0] in files;
  }

  lemma OneVersion(files: Files, digest: string -> string, paths: seq<string>, sources: seq<Source>, a: string, b: string)
    requires LoadedSoFar(files, digest, paths, |paths|, sources) && a in paths && b in paths
    requires ValidName(a) && ValidName(b) && Version(a) == Version(b)
    ensures a == b
  {
    hide Decimal, Statements, Texts;
    var i :| 0 <= i < |paths| && paths[i] == a;
    var j :| 0 <= j < |paths| && paths[j] == b;
    assert sources[i].version == sources[j].version;
  }

  lemma OneLoaded(files: Files, digest: string -> string, paths: seq<string>, sources: seq<Source>, name: string)
    requires LoadedSoFar(files, digest, paths, |paths|, sources) && name in paths
    ensures name in files && ValidName(name) && Statements(files[name]) != []
  {
    hide Decimal, Statements, Texts, ValidName;
  }

  /** Loads exactly the loadable directories: one source per file, in strictly increasing
      version order, which is what the runner's ledger checks rely on. */
  method LoadSources(files: Files, digest: string -> string) returns (sources: seq<Source>, ok: bool)
    ensures ok <==> Loadable(files)
    ensures ok ==> Increasing(sources) && |sources| == |files|
    ensures ok ==> forall i :: 0 <= i < |sources| ==> FileLoads(files, sources[i].name) && sources[i] == SourceOf(sources[i].name, files, digest)
  {
    sources, ok := [], false;
    if |files| == 0 {
      return;
    }
    StrOrder();
    var paths := SortSet(files.Keys, StrLeq);
    hide *;
    sources, ok := LoadPaths(files, digest, paths);
  }

  method LoadPaths(files: Files, digest: string -> string, paths: seq<string>) returns (sources: seq<Source>, ok: bool)
    requires paths != [] && Ascending(paths) && forall name :: name in paths <==> name in files
    ensures ok <==> Loadable(files)
    ensures ok ==> Increasing(sources) && |sources| == |paths|
    ensures ok ==> forall i :: 0 <= i < |sources| ==> FileLoads(files, sources[i].name) && sources[i] == SourceOf(sources[i].name, files, digest)
  {
    hide *;
    sources, ok := [], false;
    NoneLoaded(files, digest, paths);
    NoVersions();
    var seen: set<int> := {};
    for i := 0 to |paths|
      invariant LoadedSoFar(files, digest, paths, i, sources) && |sources| == i
      invariant forall v :: v in seen <==> HasVersion(sources, v)
    {
      var name := paths[i];
      assert name in paths;
      if !ValidName(name) {
        Unloadable(files, name);
        return;
      }
      if Version(name) in seen {
        Duplicate(files, digest, paths, i, sources);
        return;
      }
      var statements := SplitStatements(files[name]);
      if |statements| == 0 {
        Unloadable(files, name);
        return;
      }
      Fresh(files, paths, i, sources);
      LoadNext(files, digest, paths, i, sources);
      var source := SourceOf(name, files, digest);
      VersionsGrow(sources, source);
      sources := sources + [source];
      seen := seen + {source.version};
    }
    LoadedAll(files, digest, paths, sources);
    LoadedNames(files, digest, paths, sources);
    ok := true;
  }

  lemma Unloadable(files: Files, name: string)
    requires name in files && (!ValidName(name) || Statements(files[name]) == [])
    ensures !Loadable(files)
  {
    hide Statements;
  }

  lemma Duplicate(files: Files, digest: string -> string, paths: seq<string>, n: nat, sources: seq<Source>)
    requires LoadedSoFar(files, digest, paths, n, sources) && n < |paths| && paths[n] in files && ValidName(paths[n])
    requires Ascending(paths)
    requires HasVersion(sources, Version(paths[n]))
    ensures !Loadable(files)
  {
    hide Statements, Decimal, Texts;
    var k :| 0 <= k < n && sources[k].version == Version(paths[n]);
    assert paths[k] != paths[n] && FileLoads(files, paths[k]);
  }

  lemma Fresh(files: Files, paths: seq<string>, n: nat, sources: seq<Source>)
    requires n < |paths| && |sources| == n && paths[n] in files && ValidName(paths[n])
    requires Statements(files[paths[n]]) != []
    requires Ascending(paths)
    requires !HasVersion(sources, Version(paths[n]))
    ensures FileLoads(files, paths[n])
    ensures forall k :: 0 <= k < n ==> StrLeq(paths[k], paths[n]) && sources[k].version != Version(paths[n])
  {
  }

  lemma NoneLoaded(files: Files, digest: string -> string, paths: seq<string>)
    ensures LoadedSoFar(files, digest, paths, 0, [])
  {
  }

  lemma LoadedNames(files: Files, digest: string -> string, paths: seq<string>, sources: seq<Source>)
    requires LoadedSoFar(files, digest, paths, |paths|, sources)
    ensures Increasing(sources)
    ensures forall i :: 0 <= i < |sources| ==> FileLoads(files, sources[i].name) && sources[i] == SourceOf(sources[i].name, files, digest)
  {
    hide Decimal, Statements, Texts;
  }
}
