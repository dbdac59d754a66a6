/** The reader of level text in LevelData.ReadInputLevelData, as a left fold of a
    small state machine over the characters of the cell lines (every line of the
    text after the board size and the time limits).

    A cell record ends with ';', which commits a pipe to column x of text row y
    and moves x on. 'S' and 'E' remember the text position of the record, turned
    into board coordinates (text row y is board row N-1-y), as a start or an end.
    ':' announces one character of pipe information: a digit is the shape code,
    any other character sets the liquid ('W' water, anything else lava) and, as
    the reader keeps `c - '0'` in every case, a non-zero code as well. Nothing
    but ';' clears the start and end flags, and nothing clears the liquid and the
    code, so a record without pipe information repeats the previous one. */
module LevelText {
  import opened Basics

  /** The record being read: what the characters since the last ';' said. */
  datatype Pending = Pending(isPipeInfo: bool, isStart: bool, isEnd: bool,
                             value: int, pipeLiquid: Liquid, savedPos: Position)

  /** What the reader has produced: the default start and end, the Starts and
      Ends dictionaries, and the pipes written so far, by text position. */
  datatype Output = Output(defaultStart: Option<Position>, defaultEnd: Option<Position>,
                           starts: map<Liquid, seq<Position>>, ends: map<Liquid, seq<Position>>,
                           cells: map<Position, Pipe>)

  /** The local variables of ReadInputLevelData between two characters, with the
      static fields it writes: text column, text row, row offset, record, output. */
  datatype Scanner = Scanner(xCoord: int, yCoord: int, offset: int, rec: Pending, out: Output)

  /** The state before the first character, for a board of size n. */
  function Initial(n: int, defaultStart: Option<Position>, defaultEnd: Option<Position>,
                   starts: map<Liquid, seq<Position>>, ends: map<Liquid, seq<Position>>): Scanner
  {
    Scanner(0, 0, n - 1, Pending(false, false, false, 0, Water, Position(0, 0)),
            Output(defaultStart, defaultEnd, starts, ends, map[]))
  }

  /** List.Add on the list of liquid l, or a new one-element list. */
  function Append(m: map<Liquid, seq<Position>>, l: Liquid, p: Position): map<Liquid, seq<Position>> {
    if l in m then m[l := m[l] + [p]] else m[l := [p]]
  }

  /** The shape of a record with code `value`: 0 is EMPTY, v is the enum member v - 1. */
  function KindOf(value: int): PipeType {
    if value == 0 then Empty else (value - 1) as PipeType
  }

  /** The board position of the current text position. */
  function Cursor(s: Scanner): Position {
    Position(s.xCoord, s.yCoord + s.offset)
  }

  /** The ';' branch. A record marked both 'S' and 'E' is a start only. */
  function Commit(s: Scanner): Scanner {
    var r := s.rec;
    var o := s.out;
    Scanner(s.xCoord + 1, s.yCoord, s.offset,
      r.(isPipeInfo := false, isStart := false, isEnd := false),
      o.(cells := o.cells[Position(s.xCoord, s.yCoord) := Pipe(r.pipeLiquid, KindOf(r.value))],
         starts := if r.isStart then Append(o.starts, r.pipeLiquid, r.savedPos) else o.starts,
         ends := if !r.isStart && r.isEnd then Append(o.ends, r.pipeLiquid, r.savedPos) else o.ends))
  }

  /** The first test of the loop body: ';' ends a record, 'S' and 'E' mark it. */
  function Delimit(s: Scanner, c: char): Scanner {
    if c == ';' then Commit(s)
    else if c == 'S' then
      s.(rec := s.rec.(savedPos := Cursor(s), isStart := true),
         out := s.out.(defaultStart := if s.out.defaultStart.None? then Some(Cursor(s)) else s.out.defaultStart))
    else if c == 'E' then
      s.(rec := s.rec.(savedPos := Cursor(s), isEnd := true),
         out := s.out.(defaultEnd := if s.out.defaultEnd.None? then Some(Cursor(s)) else s.out.defaultEnd))
    else s
  }

  /** The second test: the character after ':' is a shape code or, when it is no
      digit, a liquid (and an out-of-range code). */
  function ReadInfo(s: Scanner, c: char): Scanner {
    if s.rec.isPipeInfo then
      var testValue := c as int - '0' as int;
      s.(rec := s.rec.(pipeLiquid := if testValue < 0 || 9 < testValue then (if c == 'W' then Water else Lava)
                                     else s.rec.pipeLiquid,
                       value := testValue, isPipeInfo := false))
    else s
  }

  /** The third test: ':' announces pipe information. */
  function Announce(s: Scanner, c: char): Scanner {
    if c == ':' then s.(rec := s.rec.(isPipeInfo := true)) else s
  }

  /** One iteration of the inner loop, with its three tests in the source's order. */
  function Step(s: Scanner, c: char): Scanner {
    Announce(ReadInfo(Delimit(s, c), c), c)
  }

  /** The inner loop over the characters of one line. */
  function ScanChars(s: Scanner, cs: string): Scanner
    decreases |cs|
  {
    if cs == [] then s else Step(ScanChars(s, cs[..|cs| - 1]), cs[|cs| - 1])
  }

  /** The end of a line: next text row, first column. */
  function EndLine(s: Scanner): Scanner {
    s.(yCoord := s.yCoord + 1, xCoord := 0, offset := s.offset - 2)
  }

  /** The outer loop over the cell lines. */
  function ScanLines(s: Scanner, lines: seq<string>): Scanner
    decreases |lines|
  {
    if lines == [] then s else EndLine(ScanChars(ScanLines(s, lines[..|lines| - 1]), lines[|lines| - 1]))
  }

  function Semicolons(line: string): nat {
    multiset(line)[';']
  }

  /** The ';' of a line before position i, and the one at i, are ';' of the line. */
  lemma SemicolonsPrefix(line: string, i: int)
    requires 0 <= i < |line|
    ensures Semicolons(line[..i]) + (if line[i] == ';' then 1 else 0) <= Semicolons(line)
    ensures Semicolons(line[..i + 1]) == Semicolons(line[..i]) + (if line[i] == ';' then 1 else 0)
  {
    assert line == line[..i] + [line[i]] + line[i + 1..];
    assert line[..i + 1] == line[..i] + [line[i]];
  }

  /** The text fits a board of size n: no line has more than n records and only
      the first n lines have any. Otherwise the source writes outside its array. */
  predicate Fits(lines: seq<string>, n: int) {
    forall r :: 0 <= r < |lines| ==> Semicolons(lines[r]) <= n && (Semicolons(lines[r]) > 0 ==> r < n)
  }

  /** The text positions a line of text row y writes, from column x0 on. */
  function RowSlots(x0: int, count: nat, y: int): set<Position> {
    set x | x0 <= x < x0 + count :: Position(x, y)
  }

  /** The text positions a whole text writes: the first Semicolons(lines[r])
      columns of every row r. */
  function Slots(lines: seq<string>): set<Position> {
    set r, x | 0 <= r < |lines| && 0 <= x < Semicolons(lines[r]) :: Position(x, r)
  }

  /** The pipe the text puts at (x, y), or the array's default element. */
  function CellOf(cells: map<Position, Pipe>, x: int, y: int): Pipe {
    if Position(x, y) in cells then cells[Position(x, y)] else DefaultPipe
  }

  /** Reading order of the text in board coordinates: higher rows first, then left
      to right. */
  predicate Before(p: Position, q: Position) {
    p.y > q.y || (p.y == q.y && p.x < q.x)
  }

  predicate Sorted(ps: seq<Position>) {
    forall i, j :: 0 <= i < j < |ps| ==> Before(ps[i], ps[j])
  }

  /** The marks of a line of text row y (board row n-1-y): the position of every
      'S' and 'E', column = the number of ';' before it. */
  function MarksOfChars(cs: string, x0: int, row: int): set<Position>
    decreases |cs|
  {
    if cs == [] then {}
    else
      var pre := cs[..|cs| - 1];
      MarksOfChars(pre, x0, row)
        + (if cs[|cs| - 1] == 'S' || cs[|cs| - 1] == 'E' then {Position(x0 + Semicolons(pre), row)} else {})
  }

  function MarksOfLines(lines: seq<string>, n: int): set<Position>
    decreases |lines|
  {
    if lines == [] then {}
    else MarksOfLines(lines[..|lines| - 1], n) + MarksOfChars(lines[|lines| - 1], 0, n - |lines|)
  }

  /** The first mark c of a line, as a column. */
  function FirstInChars(cs: string, c: char): Option<nat>
    decreases |cs|
  {
    if cs == [] then None
    else
      var pre := cs[..|cs| - 1];
      var first := FirstInChars(pre, c);
      if first.Some? then first else if cs[|cs| - 1] == c then Some(Semicolons(pre)) else None
  }

  /** The first mark c of the text, in board coordinates. */
  function FirstMark(lines: seq<string>, n: int, c: char): Option<Position>
    decreases |lines|
  {
    if lines == [] then None
    else
      var first := FirstMark(lines[..|lines| - 1], n, c);
      if first.Some? then first
      else
        match FirstInChars(lines[|lines| - 1], c)
        case None => None
        case Some(x) => Some(Position(x, n - |lines|))
  }

  // ---------------------------------------------------------------- the cursor

  /** One character moves the cursor one column exactly when it is ';', and then
      writes at the old cursor the pipe of the record's liquid and shape code. */
  lemma StepCursor(s: Scanner, c: char)
    ensures var r := Step(s, c);
      r.xCoord == s.xCoord + (if c == ';' then 1 else 0) && r.yCoord == s.yCoord && r.offset == s.offset
      && r.out.cells.Keys == s.out.cells.Keys + (if c == ';' then {Position(s.xCoord, s.yCoord)} else {})
    ensures Step(s, c).out.cells
         == if c == ';' then s.out.cells[Position(s.xCoord, s.yCoord) := Pipe(s.rec.pipeLiquid, KindOf(s.rec.value))]
            else s.out.cells
  {
  }

  /** Within a line, every ';' writes the next column of the same text row, and
      nothing else moves the cursor. */
  lemma {:induction false} ScanCharsCursor(s: Scanner, cs: string)
    ensures var r := ScanChars(s, cs);
      r.xCoord == s.xCoord + Semicolons(cs) && r.yCoord == s.yCoord && r.offset == s.offset
      && r.out.cells.Keys == s.out.cells.Keys + RowSlots(s.xCoord, Semicolons(cs), s.yCoord)
    decreases |cs|
  {
    if cs != [] {
      var pre := cs[..|cs| - 1];
      ScanCharsCursor(s, pre);
      StepCursor(ScanChars(s, pre), cs[|cs| - 1]);
      assert cs == pre + [cs[|cs| - 1]];
      var k := Semicolons(pre);
      assert RowSlots(s.xCoord, k + 1, s.yCoord) == RowSlots(s.xCoord, k, s.yCoord) + {Position(s.xCoord + k, s.yCoord)};
    }
  }

  /** After the lines of a text, the cursor is at the start of the next text row
      (board row n-1-|lines|), and the pipes written are exactly the first
      Semicolons(lines[r]) columns of each text row r. */
  lemma {:induction false} ScanLinesCursor(n: int, ds: Option<Position>, de: Option<Position>,
                                           st: map<Liquid, seq<Position>>, en: map<Liquid, seq<Position>>,
                                           lines: seq<string>)
    ensures var r := ScanLines(Initial(n, ds, de, st, en), lines);
      r.yCoord == |lines| && r.offset == n - 1 - 2 * |lines| && Cursor(r).y == n - 1 - |lines|
      && (lines != [] ==> r.xCoord == 0) && r.out.cells.Keys == Slots(lines)
    decreases |lines|
  {
    if lines != [] {
      var pre := lines[..|lines| - 1];
      var last := lines[|lines| - 1];
      ScanLinesCursor(n, ds, de, st, en, pre);
      var s := ScanLines(Initial(n, ds, de, st, en), pre);
      ScanCharsCursor(s, last);
      assert s.xCoord == 0 by { if pre == [] { assert s == Initial(n, ds, de, st, en); } }
      SlotsSnoc(lines);
    }
  }

  lemma SlotsSnoc(lines: seq<string>)
    requires lines != []
    ensures Slots(lines) == Slots(lines[..|lines| - 1]) + RowSlots(0, Semicolons(lines[|lines| - 1]), |lines| - 1)
  {
    var pre, last := lines[..|lines| - 1], lines[|lines| - 1];
    forall p | p in Slots(lines)
      ensures p in Slots(pre) + RowSlots(0, Semicolons(last), |pre|)
    {
      if p.y < |pre| {
        assert lines[p.y] == pre[p.y];
      }
    }
    forall p | p in Slots(pre) + RowSlots(0, Semicolons(last), |pre|)
      ensures p in Slots(lines)
    {
      if p.y < |pre| {
        assert lines[p.y] == pre[p.y];
      } else {
        assert lines[|pre|] == last;
      }
    }
  }

  /** With a text that fits, every pipe written lies on the board. */
  lemma SlotsOnBoard(lines: seq<string>, n: int)
    requires Fits(lines, n)
    ensures forall p :: p in Slots(lines) ==> 0 <= p.x < n && 0 <= p.y < n
  {
  }

  // ------------------------------------------------------ starts and ends in order

  /** Every list of m is in reading order, made of marks in `seen`, and before `bound`. */
  predicate ListsBefore(m: map<Liquid, seq<Position>>, bound: Position, seen: set<Position>) {
    forall l :: l in m ==>
      Sorted(m[l]) && forall i :: 0 <= i < |m[l]| ==> m[l][i] in seen && Before(m[l][i], bound)
  }

  /** The invariant of the reader: the lists lie before the cursor, and a pending
      mark lies between them and the cursor. */
  predicate Ordered(s: Scanner, seen: set<Position>) {
    ListsBefore(s.out.starts, Cursor(s), seen) && ListsBefore(s.out.ends, Cursor(s), seen)
    && ((s.rec.isStart || s.rec.isEnd) ==>
          s.rec.savedPos in seen && !Before(Cursor(s), s.rec.savedPos)
          && ListsBefore(s.out.starts, s.rec.savedPos, seen) && ListsBefore(s.out.ends, s.rec.savedPos, seen))
  }

  lemma AppendBefore(m: map<Liquid, seq<Position>>, l: Liquid, p: Position, bound: Position, seen: set<Position>)
    requires ListsBefore(m, p, seen) && p in seen && Before(p, bound)
    ensures ListsBefore(Append(m, l, p), bound, seen)
  {
  }

  /** A character keeps the invariant, and an 'S' or 'E' adds its own position
      to the marks seen. */
  lemma StepOrdered(s: Scanner, c: char, seen: set<Position>)
    requires Ordered(s, seen)
    ensures Ordered(Step(s, c), seen + (if c == 'S' || c == 'E' then {Cursor(s)} else {}))
  {
    if c == ';' {
      var r := s.rec;
      if r.isStart {
        AppendBefore(s.out.starts, r.pipeLiquid, r.savedPos, Cursor(Step(s, c)), seen);
      } else if r.isEnd {
        AppendBefore(s.out.ends, r.pipeLiquid, r.savedPos, Cursor(Step(s, c)), seen);
      }
    }
  }

  /** The marks of a line, from column x0 of board row `row`, are the marks the
      reader sees on it. */
  lemma {:induction false} CharsOrdered(s: Scanner, cs: string, seen: set<Position>)
    requires Ordered(s, seen)
    ensures Ordered(ScanChars(s, cs), seen + MarksOfChars(cs, s.xCoord, Cursor(s).y))
    decreases |cs|
  {
    if cs != [] {
      var pre := cs[..|cs| - 1];
      var t, c := ScanChars(s, pre), cs[|cs| - 1];
      var seenBefore := seen + MarksOfChars(pre, s.xCoord, Cursor(s).y);
      CharsOrdered(s, pre, seen);
      ScanCharsCursor(s, pre);
      assert Cursor(t) == Position(s.xCoord + Semicolons(pre), Cursor(s).y);
      StepOrdered(t, c, seenBefore);
      assert seenBefore + (if c == 'S' || c == 'E' then {Cursor(t)} else {})
          == seen + MarksOfChars(cs, s.xCoord, Cursor(s).y);
    }
  }

  lemma EndLineOrdered(s: Scanner, seen: set<Position>)
    requires Ordered(s, seen)
    ensures Ordered(EndLine(s), seen)
  {
  }

  /** Starting from empty Starts and Ends, the reader lists the starts and the
      ends of every liquid in reading order, each one a position marked in the
      text: board column = the number of ';' before the mark, board row = N-1
      minus its text row. */
  lemma {:induction false} LinesOrdered(n: int, ds: Option<Position>, de: Option<Position>, lines: seq<string>)
    ensures Ordered(ScanLines(Initial(n, ds, de, map[], map[]), lines), MarksOfLines(lines, n))
    decreases |lines|
  {
    if lines != [] {
      var pre := lines[..|lines| - 1];
      LinesOrdered(n, ds, de, pre);
      ScanLinesCursor(n, ds, de, map[], map[], pre);
      var s := ScanLines(Initial(n, ds, de, map[], map[]), pre);
      CharsOrdered(s, lines[|lines| - 1], MarksOfLines(pre, n));
      EndLineOrdered(ScanChars(s, lines[|lines| - 1]), MarksOfLines(lines, n));
    }
  }

  // --------------------------------------------------------------- the defaults

  /** A column of a line, placed on board row `row` after column x0. */
  function Place(first: Option<nat>, x0: int, row: int): Option<Position> {
    match first
    case None => None
    case Some(x) => Some(Position(x0 + x, row))
  }

  /** defaultStart and defaultEnd, once set, are never replaced; otherwise they
      become the first 'S' and the first 'E' of the line. */
  lemma {:induction false} CharsDefaults(s: Scanner, cs: string)
    ensures ScanChars(s, cs).out.defaultStart
         == if s.out.defaultStart.Some? then s.out.defaultStart else Place(FirstInChars(cs, 'S'), s.xCoord, Cursor(s).y)
    ensures ScanChars(s, cs).out.defaultEnd
         == if s.out.defaultEnd.Some? then s.out.defaultEnd else Place(FirstInChars(cs, 'E'), s.xCoord, Cursor(s).y)
    decreases |cs|
  {
    if cs != [] {
      var pre := cs[..|cs| - 1];
      CharsDefaults(s, pre);
      ScanCharsCursor(s, pre);
    }
  }

  /** The default start and end a text gives: the ones already set, or else the
      first 'S' and the first 'E' of the text, in board coordinates. */
  lemma {:induction false} LinesDefaults(n: int, ds: Option<Position>, de: Option<Position>,
                                         st: map<Liquid, seq<Position>>, en: map<Liquid, seq<Position>>,
                                         lines: seq<string>)
    ensures ScanLines(Initial(n, ds, de, st, en), lines).out.defaultStart
         == if ds.Some? then ds else FirstMark(lines, n, 'S')
    ensures ScanLines(Initial(n, ds, de, st, en), lines).out.defaultEnd
         == if de.Some? then de else FirstMark(lines, n, 'E')
    decreases |lines|
  {
    if lines != [] {
      var pre := lines[..|lines| - 1];
      LinesDefaults(n, ds, de, st, en, pre);
      ScanLinesCursor(n, ds, de, st, en, pre);
      var s := ScanLines(Initial(n, ds, de, st, en), pre);
      CharsDefaults(s, lines[|lines| - 1]);
    }
  }

  // ---------------------------------------------------------------- the records

  lemma ScanCharsSnoc(s: Scanner, cs: string, c: char)
    ensures ScanChars(s, cs + [c]) == Step(ScanChars(s, cs), c)
  {
    assert (cs + [c])[..|cs|] == cs;
  }

  /** Inside a record (no ';') the characters move neither the cursor nor the
      output lists nor the pipes; the flags gain the marks the record holds, each
      mark leaves the pending position at the cursor, and without a ':' the pipe
      information stays as it was. */
  lemma {:induction false} RecordBody(s: Scanner, cs: string)
    requires ';' !in cs
    ensures var r := ScanChars(s, cs);
      r.xCoord == s.xCoord && r.yCoord == s.yCoord && r.offset == s.offset
      && r.out.starts == s.out.starts && r.out.ends == s.out.ends && r.out.cells == s.out.cells
      && r.rec.isStart == (s.rec.isStart || 'S' in cs) && r.rec.isEnd == (s.rec.isEnd || 'E' in cs)
      && r.rec.savedPos == (if 'S' in cs || 'E' in cs then Cursor(s) else s.rec.savedPos)
      && (':' !in cs && !s.rec.isPipeInfo ==>
            !r.rec.isPipeInfo && r.rec.pipeLiquid == s.rec.pipeLiquid && r.rec.value == s.rec.value)
    decreases |cs|
  {
    if cs != [] {
      var pre, c := cs[..|cs| - 1], cs[|cs| - 1];
      assert cs == pre + [c];
      RecordBody(s, pre);
    }
  }

  /** A record without pipe information repeats the pipe of the record before
      it: after a ';', which writes the liquid and shape of its record at the
      cursor, characters without ':' and the next ';' write the next column with
      that same pipe. */
  lemma RecordRepeatsPrevious(s: Scanner, cs: string)
    requires ';' !in cs && ':' !in cs
    ensures var t := Step(s, ';');
      var r := ScanChars(t, cs + [';']);
      CellOf(t.out.cells, s.xCoord, s.yCoord) == Pipe(s.rec.pipeLiquid, KindOf(s.rec.value))
      && CellOf(r.out.cells, s.xCoord + 1, s.yCoord) == CellOf(t.out.cells, s.xCoord, s.yCoord)
  {
    var t := Step(s, ';');
    RecordBody(t, cs);
    ScanCharsSnoc(t, cs, ';');
  }

  /** A record read from a state with no mark pending is listed by its closing
      ';' at the board position of the record, under the liquid of the pipe that
      ';' writes: in Starts when it holds an 'S' (an 'E' beside it or not), in
      Ends when it holds an 'E' and no 'S', and in neither otherwise. */
  lemma RecordListed(s: Scanner, cs: string)
    requires ';' !in cs && !s.rec.isStart && !s.rec.isEnd
    ensures var r := ScanChars(s, cs + [';']);
      var l := CellOf(r.out.cells, s.xCoord, s.yCoord).liquid;
      r.out.starts == (if 'S' in cs then Append(s.out.starts, l, Cursor(s)) else s.out.starts)
      && r.out.ends == (if 'E' in cs && 'S' !in cs then Append(s.out.ends, l, Cursor(s)) else s.out.ends)
  {
    RecordBody(s, cs);
    ScanCharsSnoc(s, cs, ';');
  }

  // ------------------------------------------------- starts and ends, all of them

  /** The positions a Starts or Ends dictionary lists, over all liquids. */
  function Listed(m: map<Liquid, seq<Position>>): set<Position> {
    set l, p | l in m && p in m[l] :: p
  }

  lemma ListedAppend(m: map<Liquid, seq<Position>>, l: Liquid, p: Position)
    ensures Listed(Append(m, l, p)) == Listed(m) + {p}
  {
    var a := Append(m, l, p);
    forall q | q in Listed(a)
      ensures q in Listed(m) + {p}
    {
      var k :| k in a && q in a[k];
      if k != l {
        assert k in m && q in m[k];
      } else if l in m && q != p {
        assert q in m[l] + [p];
        assert q in m[l];
      }
    }
    forall q | q in Listed(m) + {p}
      ensures q in Listed(a)
    {
      if q == p {
        assert p in a[l];
      } else {
        var k :| k in m && q in m[k];
        if k == l {
          assert q in m[l] + [p];
        }
        assert q in a[k];
      }
    }
  }

  /** Whether the record left open after the last ';' of cs holds the mark c. */
  function OpenHas(cs: string, c: char): bool
    decreases |cs|
  {
    cs != [] && cs[|cs| - 1] != ';' && (cs[|cs| - 1] == c || OpenHas(cs[..|cs| - 1], c))
  }

  /** The closed records of a line that hold an 'S', from column x0 of board row
      `row`: record x is the characters between the x-th ';' and the next one. */
  function StartsOfChars(cs: string, x0: int, row: int): set<Position>
    decreases |cs|
  {
    if cs == [] then {}
    else
      var pre := cs[..|cs| - 1];
      StartsOfChars(pre, x0, row)
        + (if cs[|cs| - 1] == ';' && OpenHas(pre, 'S') then {Position(x0 + Semicolons(pre), row)} else {})
  }

  /** The closed records of a line that hold an 'E' and no 'S'. */
  function EndsOfChars(cs: string, x0: int, row: int): set<Position>
    decreases |cs|
  {
    if cs == [] then {}
    else
      var pre := cs[..|cs| - 1];
      EndsOfChars(pre, x0, row)
        + (if cs[|cs| - 1] == ';' && OpenHas(pre, 'E') && !OpenHas(pre, 'S')
           then {Position(x0 + Semicolons(pre), row)} else {})
  }

  /** The start records of a text, in board coordinates (text row y is board row n-1-y). */
  function StartMarks(lines: seq<string>, n: int): set<Position>
    decreases |lines|
  {
    if lines == [] then {}
    else StartMarks(lines[..|lines| - 1], n) + StartsOfChars(lines[|lines| - 1], 0, n - |lines|)
  }

  /** The end records of a text, in board coordinates. */
  function EndMarks(lines: seq<string>, n: int): set<Position>
    decreases |lines|
  {
    if lines == [] then {}
    else EndMarks(lines[..|lines| - 1], n) + EndsOfChars(lines[|lines| - 1], 0, n - |lines|)
  }

  /** No line ends inside a record that holds a mark. */
  predicate MarksClosed(lines: seq<string>) {
    forall r :: 0 <= r < |lines| ==> !OpenHas(lines[r], 'S') && !OpenHas(lines[r], 'E')
  }

  /** One character: the flags become those of the open record, a pending mark
      stays at the cursor, and a ';' lists the record's mark, as a start when it
      has an 'S' and as an end when it has only an 'E'. */
  lemma StepListed(t: Scanner, c: char)
    requires (t.rec.isStart || t.rec.isEnd) ==> t.rec.savedPos == Cursor(t)
    ensures var r := Step(t, c);
      r.rec.isStart == (c != ';' && (c == 'S' || t.rec.isStart))
      && r.rec.isEnd == (c != ';' && (c == 'E' || t.rec.isEnd))
      && ((r.rec.isStart || r.rec.isEnd) ==> r.rec.savedPos == Cursor(r))
      && Listed(r.out.starts) == Listed(t.out.starts) + (if c == ';' && t.rec.isStart then {Cursor(t)} else {})
      && Listed(r.out.ends)
         == Listed(t.out.ends) + (if c == ';' && !t.rec.isStart && t.rec.isEnd then {Cursor(t)} else {})
  {
    if c == ';' {
      if t.rec.isStart {
        ListedAppend(t.out.starts, t.rec.pipeLiquid, t.rec.savedPos);
      } else if t.rec.isEnd {
        ListedAppend(t.out.ends, t.rec.pipeLiquid, t.rec.savedPos);
      }
    }
  }

  /** A line read from a state with no mark pending adds to Starts exactly its
      closed records holding an 'S', and to Ends exactly those holding an 'E' and
      no 'S'; the flags then tell which marks the open record holds. */
  lemma {:induction false} CharsListed(s: Scanner, cs: string)
    requires !s.rec.isStart && !s.rec.isEnd
    ensures ScanChars(s, cs).rec.isStart == OpenHas(cs, 'S') && ScanChars(s, cs).rec.isEnd == OpenHas(cs, 'E')
    ensures var r := ScanChars(s, cs); (r.rec.isStart || r.rec.isEnd) ==> r.rec.savedPos == Cursor(r)
    ensures Listed(ScanChars(s, cs).out.starts) == Listed(s.out.starts) + StartsOfChars(cs, s.xCoord, Cursor(s).y)
    ensures Listed(ScanChars(s, cs).out.ends) == Listed(s.out.ends) + EndsOfChars(cs, s.xCoord, Cursor(s).y)
    decreases |cs|
  {
    if cs != [] {
      var pre, c := cs[..|cs| - 1], cs[|cs| - 1];
      var t := ScanChars(s, pre);
      CharsListed(s, pre);
      ScanCharsCursor(s, pre);
      assert Cursor(t) == Position(s.xCoord + Semicolons(pre), Cursor(s).y);
      StepListed(t, c);
      assert ScanChars(s, cs) == Step(t, c);
    }
  }

  /** For a text whose lines close every marked record, the reader adds to
      Starts exactly the start records of the text and to Ends exactly its end
      records, in board coordinates: every record holding an 'S' is a start, a
      record holding an 'E' and no 'S' is an end, and nothing else is listed. */
  lemma {:induction false} LinesListed(n: int, ds: Option<Position>, de: Option<Position>,
                                       st: map<Liquid, seq<Position>>, en: map<Liquid, seq<Position>>,
                                       lines: seq<string>)
    requires MarksClosed(lines)
    ensures var r := ScanLines(Initial(n, ds, de, st, en), lines);
      !r.rec.isStart && !r.rec.isEnd
      && Listed(r.out.starts) == Listed(st) + StartMarks(lines, n)
      && Listed(r.out.ends) == Listed(en) + EndMarks(lines, n)
    decreases |lines|
  {
    if lines != [] {
      var pre := lines[..|lines| - 1];
      assert MarksClosed(pre) by {
        forall r | 0 <= r < |pre| ensures !OpenHas(pre[r], 'S') && !OpenHas(pre[r], 'E') {
          assert pre[r] == lines[r];
        }
      }
      LinesListed(n, ds, de, st, en, pre);
      ScanLinesCursor(n, ds, de, st, en, pre);
      var s := ScanLines(Initial(n, ds, de, st, en), pre);
      assert s.xCoord == 0 by { if pre == [] { assert s == Initial(n, ds, de, st, en); } }
      CharsListed(s, lines[|lines| - 1]);
    }
  }

  /** The records of a line lie on its row, between column x0 and the number of
      its ';'. */
  lemma {:induction false} CharsMarksIn(cs: string, x0: int, row: int)
    ensures forall p :: p in StartsOfChars(cs, x0, row) + EndsOfChars(cs, x0, row) ==>
      p.y == row && x0 <= p.x < x0 + Semicolons(cs)
    decreases |cs|
  {
    if cs != [] {
      var pre := cs[..|cs| - 1];
      CharsMarksIn(pre, x0, row);
      assert cs == pre + [cs[|cs| - 1]];
    }
  }

  /** No record of a line is both a start and an end. */
  lemma {:induction false} CharsApart(cs: string, x0: int, row: int)
    ensures StartsOfChars(cs, x0, row) !! EndsOfChars(cs, x0, row)
    decreases |cs|
  {
    if cs != [] {
      var pre := cs[..|cs| - 1];
      CharsApart(pre, x0, row);
      CharsMarksIn(pre, x0, row);
    }
  }

  /** The records of a text lie on board rows n-|lines| to n-1. */
  lemma {:induction false} LinesMarksIn(lines: seq<string>, n: int)
    ensures forall p :: p in StartMarks(lines, n) + EndMarks(lines, n) ==> n - |lines| <= p.y < n
    decreases |lines|
  {
    if lines != [] {
      LinesMarksIn(lines[..|lines| - 1], n);
      CharsMarksIn(lines[|lines| - 1], 0, n - |lines|);
    }
  }

  /** No position of a text is listed both as a start and as an end. */
  lemma {:induction false} MarksApart(lines: seq<string>, n: int)
    ensures StartMarks(lines, n) !! EndMarks(lines, n)
    decreases |lines|
  {
    if lines != [] {
      var pre := lines[..|lines| - 1];
      MarksApart(pre, n);
      LinesMarksIn(pre, n);
      CharsMarksIn(lines[|lines| - 1], 0, n - |lines|);
      CharsApart(lines[|lines| - 1], 0, n - |lines|);
    }
  }
}
