/** SceneHandler.cs: loading a scene resets the static game state, reads the
    header of a level text (board size, per-difficulty time limits) and sends
    the player to the tutorial the first time a mode is played. Scene loading
    itself is a Unity call; the model returns the scene that would be loaded.
    The .NET string services the loader relies on, int.Parse and string.Split,
    are modelled here too, each with its inverse. */
module SceneHandler {
  import opened Basics
  import LD = LevelData

  datatype Scene = MainMenu | LevelSelect | Game | Tutorial

  const LevelSelectLevelCount: int := 8

  // ------------------------------------------------------------ string.Split

  /** string.Split(sep): the pieces between separators, always at least one. */
  function Split(s: string, sep: char): (parts: seq<string>)
    ensures |parts| >= 1
    decreases |s|
  {
    if s == [] then [[]]
    else
      var parts := Split(s[..|s| - 1], sep);
      var c := s[|s| - 1];
      if c == sep then parts + [[]] else parts[..|parts| - 1] + [parts[|parts| - 1] + [c]]
  }

  /** string.Join(sep, parts), the inverse of Split. */
  function Join(parts: seq<string>, sep: char): string
    requires |parts| >= 1
    decreases |parts|
  {
    if |parts| == 1 then parts[0] else Join(parts[..|parts| - 1], sep) + [sep] + parts[|parts| - 1]
  }

  predicate NoSeparator(parts: seq<string>, sep: char) {
    forall i :: 0 <= i < |parts| ==> sep !in parts[i]
  }

  lemma SplitSnoc(pre: string, c: char, sep: char)
    ensures var parts := Split(pre, sep);
      Split(pre + [c], sep) == if c == sep then parts + [[]] else parts[..|parts| - 1] + [parts[|parts| - 1] + [c]]
  {
    assert (pre + [c])[..|pre|] == pre;
  }

  lemma JoinSnoc(parts: seq<string>, p: string, sep: char)
    requires |parts| >= 1
    ensures Join(parts + [p], sep) == Join(parts, sep) + [sep] + p
  {
    assert (parts + [p])[..|parts|] == parts;
  }

  /** The pieces of Split hold no separator. */
  lemma {:induction false} SplitHasNoSeparator(s: string, sep: char)
    ensures NoSeparator(Split(s, sep), sep)
    decreases |s|
  {
    if s != [] {
      var pre, c := s[..|s| - 1], s[|s| - 1];
      SplitHasNoSeparator(pre, sep);
      assert s == pre + [c];
      SplitHasNoSeparatorStep(pre, c, sep);
    }
  }

  lemma SplitHasNoSeparatorStep(pre: string, c: char, sep: char)
    requires NoSeparator(Split(pre, sep), sep)
    ensures NoSeparator(Split(pre + [c], sep), sep)
  {
    SplitSnoc(pre, c, sep);
  }

  /** Joining the pieces of Split gives back the string: Split cuts at every
      separator and loses nothing. */
  lemma {:induction false} JoinSplit(s: string, sep: char)
    ensures Join(Split(s, sep), sep) == s
    decreases |s|
  {
    if s != [] {
      var pre, c := s[..|s| - 1], s[|s| - 1];
      JoinSplit(pre, sep);
      assert s == pre + [c];
      JoinSplitStep(pre, c, sep);
    }
  }

  /** One character more: a separator opens a new piece, another character
      extends the last piece. */
  lemma JoinSplitStep(pre: string, c: char, sep: char)
    requires Join(Split(pre, sep), sep) == pre
    ensures Join(Split(pre + [c], sep), sep) == pre + [c]
  {
    var parts := Split(pre, sep);
    SplitSnoc(pre, c, sep);
    if c == sep {
      JoinSnoc(parts, [], sep);
    } else {
      var init, last := parts[..|parts| - 1], parts[|parts| - 1];
      assert parts == init + [last];
      if init != [] {
        JoinSnoc(init, last, sep);
        JoinSnoc(init, last + [c], sep);
      }
    }
  }

  /** Splitting a join of separator-free pieces gives back the pieces. */
  lemma {:induction false} SplitJoin(parts: seq<string>, sep: char)
    requires |parts| >= 1 && NoSeparator(parts, sep)
    ensures Split(Join(parts, sep), sep) == parts
    decreases |parts|, |parts[|parts| - 1]|
  {
    var init, last := parts[..|parts| - 1], parts[|parts| - 1];
    assert parts == init + [last];
    if last == [] {
      if init != [] {
        SplitJoin(init, sep);
        SplitJoinNewPiece(init, sep);
      }
    } else {
      var shorter, c := init + [last[..|last| - 1]], last[|last| - 1];
      assert last == last[..|last| - 1] + [c];
      assert NoSeparator(shorter, sep) by {
        forall i | 0 <= i < |shorter|
          ensures sep !in shorter[i]
        {
          if i == |init| {
            assert forall k :: 0 <= k < |last| - 1 ==> shorter[i][k] == last[k];
          } else {
            assert shorter[i] == parts[i];
          }
        }
      }
      SplitJoin(shorter, sep);
      SplitJoinLonger(init, last[..|last| - 1], c, sep);
    }
  }

  lemma SplitJoinNewPiece(init: seq<string>, sep: char)
    requires |init| >= 1 && Split(Join(init, sep), sep) == init
    ensures Split(Join(init + [[]], sep), sep) == init + [[]]
  {
    var joined := Join(init, sep);
    JoinSnoc(init, [], sep);
    assert Join(init + [[]], sep) == joined + [sep];
    SplitSnoc(joined, sep, sep);
  }

  lemma SplitJoinLonger(init: seq<string>, last: string, c: char, sep: char)
    requires c != sep && Split(Join(init + [last], sep), sep) == init + [last]
    ensures Split(Join(init + [last + [c]], sep), sep) == init + [last + [c]]
  {
    if init != [] {
      JoinSnoc(init, last, sep);
      JoinSnoc(init, last + [c], sep);
    }
    assert Join(init + [last + [c]], sep) == Join(init + [last], sep) + [c];
    SplitSnoc(Join(init + [last], sep), c, sep);
    assert (init + [last])[..|init|] == init;
  }

  // --------------------------------------------------------------- int.Parse

  predicate IsDigit(c: char) {
    '0' <= c <= '9'
  }

  predicate AllDigits(s: string) {
    forall i :: 0 <= i < |s| ==> IsDigit(s[i])
  }

  /** The value of a string of decimal digits, most significant first. */
  function DigitsValue(s: string): nat
    requires AllDigits(s)
    decreases |s|
  {
    if s == [] then 0 else DigitsValue(s[..|s| - 1]) * 10 + (s[|s| - 1] as int - '0' as int)
  }

  predicate InInt32(i: int) {
    -0x8000_0000 <= i < 0x8000_0000
  }

  /** The white space NumberStyles.Integer lets int.Parse skip around a number:
      the characters from '\t' to '\r' and the space. */
  predicate IsWhite(c: char) {
    c == ' ' || '\t' <= c <= '\r'
  }

  predicate AllWhite(s: string) {
    forall i :: 0 <= i < |s| ==> IsWhite(s[i])
  }

  /** s without its leading white space. */
  function TrimStart(s: string): string
    decreases |s|
  {
    if s != [] && IsWhite(s[0]) then TrimStart(s[1..]) else s
  }

  /** s without its trailing white space. */
  function TrimEnd(s: string): string
    decreases |s|
  {
    if s != [] && IsWhite(s[|s| - 1]) then TrimEnd(s[..|s| - 1]) else s
  }

  /** An optional sign and at least one digit, in the range of a C# int. */
  function ParseSigned(s: string): (r: Option<int>)
    ensures r.Some? ==> InInt32(r.value)
  {
    var negative := |s| > 0 && s[0] == '-';
    var digits := if |s| > 0 && (s[0] == '-' || s[0] == '+') then s[1..] else s;
    if digits == [] || !AllDigits(digits) then None
    else
      var magnitude := DigitsValue(digits) as int;
      var v := if negative then 0 - magnitude else magnitude;
      if InInt32(v) then Some(v) else None
  }

  /** int.Parse with NumberStyles.Integer: white space, an optional sign, at
      least one digit and white space, in the range of a C# int; None where
      int.Parse throws. */
  function ParseInt(s: string): (r: Option<int>)
    ensures r.Some? ==> InInt32(r.value)
  {
    ParseSigned(TrimEnd(TrimStart(s)))
  }

  function DigitChar(d: nat): char
    requires d < 10
  {
    ('0' as int + d) as char
  }

  /** The decimal digits of n, most significant first. */
  function ShowNat(n: nat): (s: string)
    ensures s != [] && AllDigits(s)
    decreases n
  {
    if n < 10 then [DigitChar(n)] else ShowNat(n / 10) + [DigitChar(n % 10)]
  }

  /** int.ToString(). */
  function ShowInt(i: int): string {
    if i < 0 then "-" + ShowNat(-i) else ShowNat(i)
  }

  lemma {:induction false} DigitsOfShowNat(n: nat)
    ensures DigitsValue(ShowNat(n)) == n
    decreases n
  {
    if n >= 10 {
      DigitsOfShowNat(n / 10);
      var s := ShowNat(n);
      assert s[..|s| - 1] == ShowNat(n / 10);
    }
  }

  /** Leading white space does not change what TrimStart keeps. */
  lemma {:induction false} TrimStartSkips(w: string, t: string)
    requires AllWhite(w)
    ensures TrimStart(w + t) == TrimStart(t)
    decreases |w|
  {
    if w == [] {
      assert w + t == t;
    } else {
      assert IsWhite(w[0]) && (w + t)[0] == w[0] && (w + t)[1..] == w[1..] + t;
      TrimStartSkips(w[1..], t);
    }
  }

  /** Trailing white space does not change what TrimEnd keeps. */
  lemma {:induction false} TrimEndSkips(t: string, w: string)
    requires AllWhite(w)
    ensures TrimEnd(t + w) == TrimEnd(t)
    decreases |w|
  {
    if w == [] {
      assert t + w == t;
    } else {
      assert IsWhite(w[|w| - 1]) && (t + w)[|t + w| - 1] == w[|w| - 1];
      assert (t + w)[..|t + w| - 1] == t + w[..|w| - 1];
      TrimEndSkips(t, w[..|w| - 1]);
    }
  }

  lemma SignedShow(i: int)
    requires InInt32(i)
    ensures ParseSigned(ShowInt(i)) == Some(i)
  {
    var s := ShowInt(i);
    if i < 0 {
      DigitsOfShowNat(-i);
      assert s[0] == '-' && s[1..] == ShowNat(-i);
    } else {
      DigitsOfShowNat(i);
      assert IsDigit(s[0]);
    }
  }

  /** int.Parse reads back what int.ToString writes, for every C# int, with any
      white space before and after it (a "10\r" left by a CRLF line end, say). */
  lemma ParsePadded(i: int, lead: string, trail: string)
    requires InInt32(i) && AllWhite(lead) && AllWhite(trail)
    ensures ParseInt(lead + ShowInt(i) + trail) == Some(i)
  {
    var s := ShowInt(i);
    var digits := ShowNat(if i < 0 then -i else i);
    assert s == (if i < 0 then "-" else "") + digits;
    assert !IsWhite(s[0]) && !IsWhite(s[|s| - 1]);
    assert lead + s + trail == lead + (s + trail);
    TrimStartSkips(lead, s + trail);
    TrimEndSkips(s, trail);
    SignedShow(i);
  }

  /** int.Parse reads back what int.ToString writes, for every C# int. */
  lemma ParseShow(i: int)
    requires InInt32(i)
    ensures ParseInt(ShowInt(i)) == Some(i)
  {
    ParsePadded(i, [], []);
    assert [] + ShowInt(i) + [] == ShowInt(i);
  }

  /** Array.ConvertAll(parts, int.Parse): None as soon as one piece is no integer. */
  function ParseAll(parts: seq<string>): (r: Option<seq<int>>)
    ensures r.Some? ==> |r.value| == |parts|
    decreases |parts|
  {
    if parts == [] then Some([])
    else
      match (ParseAll(parts[..|parts| - 1]), ParseInt(parts[|parts| - 1]))
      case (Some(vs), Some(v)) => Some(vs + [v])
      case _ => None
  }

  /** ConvertAll succeeds exactly when every piece is an integer, and then holds
      the value of each piece at its index. */
  lemma {:induction false} ParseAllPieces(parts: seq<string>)
    ensures var r := ParseAll(parts);
      (r.Some? <==> forall i :: 0 <= i < |parts| ==> ParseInt(parts[i]).Some?)
      && (r.Some? ==> forall i :: 0 <= i < |parts| ==> r.value[i] == ParseInt(parts[i]).value)
    decreases |parts|
  {
    if parts != [] {
      var init := parts[..|parts| - 1];
      ParseAllPieces(init);
      assert forall i :: 0 <= i < |init| ==> parts[i] == init[i];
    }
  }

  // -------------------------------------------------------------- time limits

  /** The position of a difficulty among the limits on line 1 of a level text. */
  function DifficultyIndex(d: Difficulty): nat {
    match d
    case Easy => 0
    case Normal => 1
    case Hard => 2
  }

  /** The arcade limits, in seconds, by difficulty index. */
  const ArcadeTimeLimits: seq<int> := [60, 40, 30]

  /** A harder arcade game gives less time. */
  lemma ArcadeHarderIsShorter()
    ensures ArcadeTimeLimits[DifficultyIndex(Easy)] > ArcadeTimeLimits[DifficultyIndex(Normal)]
              > ArcadeTimeLimits[DifficultyIndex(Hard)] > 0
  {
  }

  /** The header a level text must have for LoadLevel not to throw, for the
      current difficulty: a board size, and on line 1 integers separated by ';',
      with one for the difficulty. */
  predicate HasHeader(lines: seq<string>, d: Difficulty) {
    |lines| >= 2 && ParseInt(lines[0]).Some?
    && var limits := ParseAll(Split(lines[1], ';'));
    limits.Some? && DifficultyIndex(d) < |limits.value|
  }

  /** The header line of time limits, the way a level file writes it. */
  function ShowLimits(limits: seq<int>): string
    requires |limits| >= 1
  {
    Join(seq(|limits|, i requires 0 <= i < |limits| => ShowInt(limits[i])), ';')
  }

  /** A header written from a board size and three limits reads back as that
      board size and those limits, whatever the difficulty. */
  lemma HeaderRoundTrip(n: int, limits: seq<int>, rest: seq<string>, d: Difficulty)
    requires InInt32(n) && |limits| == 3 && forall i :: 0 <= i < 3 ==> InInt32(limits[i])
    ensures var lines := [ShowInt(n), ShowLimits(limits)] + rest;
      HasHeader(lines, d) && ParseInt(lines[0]) == Some(n) && ParseAll(Split(lines[1], ';')) == Some(limits)
  {
    ParseShow(n);
    LimitsRoundTrip(limits);
  }

  /** Limits written with white space around each number. */
  function ShowPaddedLimits(limits: seq<int>, lead: seq<string>, trail: seq<string>): string
    requires |limits| >= 1 && |lead| == |trail| == |limits|
  {
    Join(seq(|limits|, i requires 0 <= i < |limits| => lead[i] + ShowInt(limits[i]) + trail[i]), ';')
  }

  /** A header whose numbers carry white space around them, as a level file
      with CRLF line ends or spaces after the separators has, reads back as
      the same board size and limits. */
  lemma PaddedHeaderRoundTrip(n: int, limits: seq<int>, lead0: string, trail0: string,
                              lead: seq<string>, trail: seq<string>, rest: seq<string>, d: Difficulty)
    requires InInt32(n) && |limits| == 3 && forall i :: 0 <= i < 3 ==> InInt32(limits[i])
    requires AllWhite(lead0) && AllWhite(trail0) && |lead| == |trail| == 3
    requires forall i :: 0 <= i < 3 ==> AllWhite(lead[i]) && AllWhite(trail[i])
    ensures var lines := [lead0 + ShowInt(n) + trail0, ShowPaddedLimits(limits, lead, trail)] + rest;
      HasHeader(lines, d) && ParseInt(lines[0]) == Some(n) && ParseAll(Split(lines[1], ';')) == Some(limits)
  {
    ParsePadded(n, lead0, trail0);
    PaddedLimitsRoundTrip(limits, lead, trail);
  }

  /** A line of limits with white space around each number reads back as
      those limits. */
  lemma PaddedLimitsRoundTrip(limits: seq<int>, lead: seq<string>, trail: seq<string>)
    requires |limits| >= 1 && |lead| == |trail| == |limits|
    requires forall i :: 0 <= i < |limits| ==> InInt32(limits[i]) && AllWhite(lead[i]) && AllWhite(trail[i])
    ensures ParseAll(Split(ShowPaddedLimits(limits, lead, trail), ';')) == Some(limits)
  {
    var shown := seq(|limits|, i requires 0 <= i < |limits| => lead[i] + ShowInt(limits[i]) + trail[i]);
    forall i | 0 <= i < |limits|
      ensures ParseInt(shown[i]) == Some(limits[i]) && ';' !in shown[i]
    {
      ParsePadded(limits[i], lead[i], trail[i]);
      ShowIntHasNoSemicolon(limits[i]);
      assert !IsWhite(';');
    }
    SplitJoin(shown, ';');
    ParseEach(shown, limits);
  }

  /** A line of limits written by ShowLimits reads back as those limits. */
  lemma LimitsRoundTrip(limits: seq<int>)
    requires |limits| >= 1 && forall i :: 0 <= i < |limits| ==> InInt32(limits[i])
    ensures ParseAll(Split(ShowLimits(limits), ';')) == Some(limits)
  {
    var shown := seq(|limits|, i requires 0 <= i < |limits| => ShowInt(limits[i]));
    forall i | 0 <= i < |limits|
      ensures ParseInt(shown[i]) == Some(limits[i]) && ';' !in shown[i]
    {
      ParseShow(limits[i]);
      ShowIntHasNoSemicolon(limits[i]);
    }
    SplitJoin(shown, ';');
    ParseEach(shown, limits);
  }

  lemma ParseEach(parts: seq<string>, values: seq<int>)
    requires |parts| == |values| && forall i :: 0 <= i < |parts| ==> ParseInt(parts[i]) == Some(values[i])
    ensures ParseAll(parts) == Some(values)
  {
    var r := ParseAll(parts);
    ParseAllPieces(parts);
    assert r.Some?;
    assert forall i :: 0 <= i < |values| ==> r.value[i] == values[i];
    assert r.value == values;
  }

  lemma ShowIntHasNoSemicolon(i: int)
    ensures ';' !in ShowInt(i)
  {
    var digits := ShowNat(if i < 0 then -i else i);
    assert ShowInt(i) == (if i < 0 then "-" else "") + digits;
    assert !IsDigit(';');
  }

  /** The board size on line 0 of a level text and the time limit for the
      difficulty among the limits on line 1. */
  method ReadHeader(text: seq<string>, difficulty: Difficulty) returns (size: int, limit: int)
    requires HasHeader(text, difficulty)
    ensures Some(size) == ParseInt(text[0])
    ensures limit == ParseAll(Split(text[1], ';')).value[DifficultyIndex(difficulty)]
  {
    size := ParseInt(text[0]).value;
    var difficulties := ParseAll(Split(text[1], ';')).value;
    limit := if difficulty == Normal then difficulties[1]
             else if difficulty == Hard then difficulties[2] else difficulties[0];
  }

  // ------------------------------------------------------------------ loaders

  /** The static class SceneHandler, as one object. */
  class SceneHandler {
    /** tutorialsPlayed: whether the tutorial of level select (0), arcade (1) and
        free world (2) was shown. */
    var tutorialsPlayed: array<bool>

    constructor()
      ensures fresh(tutorialsPlayed) && tutorialsPlayed.Length == 3
      ensures forall i :: 0 <= i < 3 ==> !tutorialsPlayed[i]
    {
      tutorialsPlayed := new bool[3](_ => false);
    }

    /** LoadLevelSelectScene: records the mode the levels are chosen for. */
    method LoadLevelSelectScene(ld: LD.LevelData, isFreeWorldMode: bool) returns (scene: Scene)
      modifies ld`isFreeWorldMode
      ensures ld.isFreeWorldMode == isFreeWorldMode && scene == LevelSelect
    {
      ld.isFreeWorldMode := isFreeWorldMode;
      scene := LevelSelect;
    }

    /** LoadArcadeGameScene: a fresh arcade game on a 10 x 10 board with the
        arcade time limit of the difficulty; the tutorial comes first the first
        time. */
    method LoadArcadeGameScene(ld: LD.LevelData, flags: LD.GameFlags) returns (scene: Scene)
      requires tutorialsPlayed.Length == 3
      modifies flags, tutorialsPlayed
      modifies ld`isFreeWorldMode, ld`isArcadeMode, ld`starts, ld`ends, ld`defaultStart, ld`defaultEnd
      modifies ld`gamePieces, ld`boardSize, ld`timeLimit
      ensures !flags.isEndGame && !flags.gameIsPaused
      ensures !ld.isFreeWorldMode && ld.isArcadeMode
      ensures ld.starts == map[] && ld.ends == map[] && ld.defaultStart == None && ld.defaultEnd == None
      ensures ld.gamePieces == None
      ensures ld.boardSize == 10 && ld.timeLimit == ArcadeTimeLimits[DifficultyIndex(ld.difficulty)]
      ensures scene == (if old(tutorialsPlayed[1]) then Game else Tutorial)
      ensures forall i :: 0 <= i < 3 ==> tutorialsPlayed[i] == (i == 1 || old(tutorialsPlayed[i]))
    {
      var limit := if ld.difficulty == Normal then 40 else if ld.difficulty == Hard then 30 else 60;
      flags.Resume();
      ld.isFreeWorldMode := false;
      ld.isArcadeMode := true;
      ld.ClearLevel();
      ld.boardSize := 10;
      ld.timeLimit := limit;
      scene := TutorialOnce(1);
    }

    /** The scene a game loader ends with: the tutorial of mode k (0 level
        select, 1 arcade, 2 free world) the first time, the game afterwards. */
    method TutorialOnce(k: int) returns (scene: Scene)
      requires tutorialsPlayed.Length == 3 && 0 <= k < 3
      modifies tutorialsPlayed
      ensures scene == (if old(tutorialsPlayed[k]) then Game else Tutorial)
      ensures forall i :: 0 <= i < 3 ==> tutorialsPlayed[i] == (i == k || old(tutorialsPlayed[i]))
    {
      if tutorialsPlayed[k] {
        scene := Game;
      } else {
        tutorialsPlayed[k] := true;
        scene := Tutorial;
      }
    }

    /** LoadLevel: a fresh designed level from the lines of its text, with the
        board size of line 0 and the time limit of the difficulty from line 1;
        the tutorial of the mode comes first the first time. The text is given
        already split into lines. */
    method LoadLevel(ld: LD.LevelData, flags: LD.GameFlags, levelNumber: int, text: seq<string>)
      returns (scene: Scene)
      requires tutorialsPlayed.Length == 3 && HasHeader(text, ld.difficulty)
      modifies flags, tutorialsPlayed
      modifies ld`isArcadeMode, ld`levelNumber, ld`starts, ld`ends, ld`defaultStart, ld`defaultEnd
      modifies ld`gamePieces, ld`lvlData, ld`boardSize, ld`timeLimit
      ensures !flags.isEndGame && !flags.gameIsPaused
      ensures !ld.isArcadeMode && ld.levelNumber == levelNumber
      ensures ld.starts == map[] && ld.ends == map[] && ld.defaultStart == None && ld.defaultEnd == None
      ensures ld.gamePieces == None && ld.lvlData == Some(text)
      ensures Some(ld.boardSize) == ParseInt(text[0])
      ensures ld.timeLimit == ParseAll(Split(text[1], ';')).value[DifficultyIndex(old(ld.difficulty))]
      ensures var k := if ld.isFreeWorldMode then 2 else 0;
        scene == (if old(tutorialsPlayed[k]) then Game else Tutorial)
        && forall i :: 0 <= i < 3 ==> tutorialsPlayed[i] == (i == k || old(tutorialsPlayed[i]))
    {
      var size, limit := ReadHeader(text, ld.difficulty);
      flags.Resume();
      ld.isArcadeMode := false;
      ld.levelNumber := levelNumber;
      ld.ClearLevel();
      ld.lvlData := Some(text);
      ld.boardSize := size;
      ld.timeLimit := limit;
      scene := TutorialOnce(if ld.isFreeWorldMode then 2 else 0);
    }
  }
}
