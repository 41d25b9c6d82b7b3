/** The program entry's pure parts: command-line parsing (parseArgs) and the console
    wrapping of a reply in text mode, on the reply's bytes. */
module Cli {
  import opened Wrappers
  import opened Strings

  // ---------------------------------------------------------------------------
  // parseArgs

  datatype CommandLineArgs = CommandLineArgs(
    configFile: string,
    logLevel: string,
    logFile: string,
    showHelp: bool,
    testMode: bool,
    interactiveConfig: bool,
    webMode: bool,
    webPort: int)

  /** The field initialisers of CommandLineArgs. */
  function DefaultArgs(): CommandLineArgs
  {
    CommandLineArgs("../config/default_config.json", "INFO", "", false, false, false, false, 8080)
  }

  const IntMax := 0x7fff_ffff

  /** std::stoi on a port argument. Only unsigned decimal numbers are modelled:
      every other string is reported like the invalid_argument std::stoi throws,
      and a value past the int range like its out_of_range. */
  function Stoi(s: string): (r: Outcome<int>)
    ensures r.Ok? <==> |s| > 0 && AllDigits(s) && ParseNat(s) <= IntMax
    ensures r.Ok? ==> 0 <= r.value <= IntMax && r.value == ParseNat(s)
  {
    if |s| == 0 || !AllDigits(s) then Throw("stoi")
    else if ParseNat(s) > IntMax then Throw("stoi")
    else Ok(ParseNat(s))
  }

  /** std::stoi reads back what std::to_string wrote. */
  lemma StoiToString(p: nat)
    requires p <= IntMax
    ensures Stoi(NatToString(p)) == Ok(p)
  {
    NatToStringRoundTrip(p);
  }

  /** The options that take the next argument as their value. */
  predicate TakesValue(arg: string)
  {
    arg == "-c" || arg == "--config" || arg == "-l" || arg == "--log-level" || arg == "--log-file" || arg == "--port"
  }

  /** The options parseArgs recognises. */
  predicate Recognised(arg: string)
  {
    TakesValue(arg) || arg == "-h" || arg == "--help" || arg == "--test" || arg == "--interactive" || arg == "--web"
  }

  /** A value option with its value. */
  function WithValue(a: CommandLineArgs, flag: string, v: string): Outcome<CommandLineArgs>
    requires TakesValue(flag)
  {
    if flag == "-c" || flag == "--config" then Ok(a.(configFile := v))
    else if flag == "-l" || flag == "--log-level" then Ok(a.(logLevel := v))
    else if flag == "--log-file" then Ok(a.(logFile := v))
    else match Stoi(v)
      case Ok(p) => Ok(a.(webPort := p))
      case Throw(w) => Throw(w)
  }

  /** A flag without a value. */
  function WithFlag(a: CommandLineArgs, flag: string): CommandLineArgs
  {
    if flag == "-h" || flag == "--help" then a.(showHelp := true)
    else if flag == "--test" then a.(testMode := true)
    else if flag == "--interactive" then a.(interactiveConfig := true)
    else if flag == "--web" then a.(webMode := true)
    else a.(showHelp := true)
  }

  /** The arguments after the program name, one option at a time: a value option
      consumes the next argument when there is one and sets show_help when it is
      last; an unknown option sets show_help; parsing always goes on. A port that
      std::stoi rejects ends parsing with its exception. */
  function ParseFrom(a: CommandLineArgs, rest: seq<string>): (r: Outcome<CommandLineArgs>)
    decreases |rest|
  {
    if |rest| == 0 then Ok(a)
    else if TakesValue(rest[0]) then
      if |rest| > 1 then
        match WithValue(a, rest[0], rest[1])
        case Ok(b) => ParseFrom(b, rest[2..])
        case Throw(w) => Throw(w)
      else ParseFrom(a.(showHelp := true), rest[1..])
    else ParseFrom(WithFlag(a, rest[0]), rest[1..])
  }

  /** argv with the program name first. */
  function ArgsOf(argv: seq<string>): Outcome<CommandLineArgs>
  {
    if |argv| == 0 then Ok(DefaultArgs()) else ParseFrom(DefaultArgs(), argv[1..])
  }

  /** parseArgs. */
  method ParseArgs(argv: seq<string>) returns (r: Outcome<CommandLineArgs>)
    ensures r == ArgsOf(argv)
  {
    var args := DefaultArgs();
    var i := 1;
    while i < |argv|
      invariant 1 <= i && (|argv| > 0 ==> i <= |argv|)
      invariant |argv| > 0 ==> ParseFrom(args, argv[i..]) == ArgsOf(argv)
      invariant |argv| == 0 ==> args == DefaultArgs()
    {
      var arg := argv[i];
      assert argv[i..][1..] == argv[i + 1..];
      if arg == "-h" || arg == "--help" {
        args := args.(showHelp := true);
      } else if arg == "-c" || arg == "--config" {
        if i + 1 < |argv| {
          assert argv[i..][2..] == argv[i + 2..];
          i := i + 1;
          args := args.(configFile := argv[i]);
        } else {
          args := args.(showHelp := true);
        }
      } else if arg == "-l" || arg == "--log-level" {
        if i + 1 < |argv| {
          assert argv[i..][2..] == argv[i + 2..];
          i := i + 1;
          args := args.(logLevel := argv[i]);
        } else {
          args := args.(showHelp := true);
        }
      } else if arg == "--log-file" {
        if i + 1 < |argv| {
          assert argv[i..][2..] == argv[i + 2..];
          i := i + 1;
          args := args.(logFile := argv[i]);
        } else {
          args := args.(showHelp := true);
        }
      } else if arg == "--test" {
        args := args.(testMode := true);
      } else if arg == "--interactive" {
        args := args.(interactiveConfig := true);
      } else if arg == "--web" {
        args := args.(webMode := true);
      } else if arg == "--port" {
        if i + 1 < |argv| {
          assert argv[i..][2..] == argv[i + 2..];
          i := i + 1;
          var port := Stoi(argv[i]);
          if port.Throw? {
            return Throw(port.what);
          }
          args := args.(webPort := port.value);
        } else {
          args := args.(showHelp := true);
        }
      } else {
        args := args.(showHelp := true);
      }
      i := i + 1;
    }
    assert |argv| > 0 ==> argv[i..] == [];
    r := Ok(args);
  }

  /** No value option is left without its value at the end of the arguments. */
  predicate Complete(rest: seq<string>)
    decreases |rest|
  {
    |rest| == 0 || (if TakesValue(rest[0]) then |rest| > 1 && Complete(rest[2..]) else Complete(rest[1..]))
  }

  /** Parsing a complete prefix and then the rest is parsing both: options never
      reach across that boundary. */
  lemma {:induction false} ParseConcat(a: CommandLineArgs, x: seq<string>, y: seq<string>)
    requires Complete(x)
    ensures ParseFrom(a, x + y) == match ParseFrom(a, x) case Ok(b) => ParseFrom(b, y) case Throw(w) => Throw(w)
    decreases |x|
  {
    if |x| > 0 {
      var xy := x + y;
      assert xy[0] == x[0];
      if TakesValue(x[0]) {
        assert xy[1] == x[1] && xy[2..] == x[2..] + y;
        match WithValue(a, x[0], x[1])
        case Ok(b) => ParseConcat(b, x[2..], y);
        case Throw(w) =>
      } else {
        assert xy[1..] == x[1..] + y;
        ParseConcat(WithFlag(a, x[0]), x[1..], y);
      }
    } else {
      assert x + y == y;
    }
  }

  /** With no arguments every field keeps its initialiser. */
  lemma NoArgumentsDefaults(program: string)
    ensures ArgsOf([program]) == Ok(DefaultArgs())
    ensures var d := DefaultArgs();
      && d.configFile == "../config/default_config.json" && d.logLevel == "INFO" && d.logFile == ""
      && !d.showHelp && !d.testMode && !d.interactiveConfig && !d.webMode && d.webPort == 8080
  {
    assert [program][1..] == [];
  }

  /** A value option repeated later wins: the last value given is the one kept. */
  lemma LastValueWins(a: CommandLineArgs, x: seq<string>, flag: string, v: string)
    requires Complete(x) && TakesValue(flag) && flag != "--port"
    requires ParseFrom(a, x).Ok?
    ensures ParseFrom(a, x + [flag, v]) == WithValue(ParseFrom(a, x).value, flag, v)
    ensures var b := ParseFrom(a, x + [flag, v]).value;
      && ((flag == "-c" || flag == "--config") ==> b.configFile == v)
      && ((flag == "-l" || flag == "--log-level") ==> b.logLevel == v)
      && (flag == "--log-file" ==> b.logFile == v)
  {
    ParseConcat(a, x, [flag, v]);
    var b := ParseFrom(a, x).value;
    assert [flag, v][2..] == [];
    assert ParseFrom(b, [flag, v]) == WithValue(b, flag, v);
  }

  /** A value option given last sets show_help and changes nothing else. */
  lemma MissingValueShowsHelp(a: CommandLineArgs, x: seq<string>, flag: string)
    requires Complete(x) && TakesValue(flag)
    requires ParseFrom(a, x).Ok?
    ensures ParseFrom(a, x + [flag]) == Ok(ParseFrom(a, x).value.(showHelp := true))
  {
    ParseConcat(a, x, [flag]);
    assert [flag][1..] == [];
  }

  /** An unknown option sets show_help and parsing goes on with the next argument. */
  lemma UnknownOptionContinues(a: CommandLineArgs, arg: string, y: seq<string>)
    requires !Recognised(arg)
    ensures ParseFrom(a, [arg] + y) == ParseFrom(a.(showHelp := true), y)
  {
    assert ([arg] + y)[1..] == y;
  }

  /** Once show_help is set no later argument clears it. */
  lemma {:induction false} HelpStays(a: CommandLineArgs, rest: seq<string>)
    requires a.showHelp && ParseFrom(a, rest).Ok?
    ensures ParseFrom(a, rest).value.showHelp
    decreases |rest|
  {
    if |rest| > 0 {
      if TakesValue(rest[0]) {
        if |rest| > 1 {
          HelpStays(WithValue(a, rest[0], rest[1]).value, rest[2..]);
        } else {
          HelpStays(a.(showHelp := true), rest[1..]);
        }
      } else {
        HelpStays(WithFlag(a, rest[0]), rest[1..]);
      }
    }
  }

  // ---------------------------------------------------------------------------
  // The console wrapping of a reply (text mode)

  newtype Byte = b: int | 0 <= b < 0x100

  const MaxLineLength: nat := 100
  const Space: Byte := 0x20

  /** (b & 0xC0) == 0x80: a UTF-8 continuation byte. */
  predicate Continuation(b: Byte)
  {
    0x80 <= b < 0xC0
  }

  /** A sentence ends at byte i: '.', '!' or '?', or the last byte of the UTF-8
      encodings of U+3002, U+FF01 or U+FF1F. */
  predicate EndsSentence(r: seq<Byte>, i: nat)
    requires i < |r|
  {
    r[i] == 0x2E || r[i] == 0x21 || r[i] == 0x3F
    || (i >= 2 && r[i - 2] == 0xE3 && r[i - 1] == 0x80 && r[i] == 0x82)
    || (i >= 2 && r[i - 2] == 0xEF && r[i - 1] == 0xBC && r[i] == 0x81)
    || (i >= 2 && r[i - 2] == 0xEF && r[i - 1] == 0xBC && r[i] == 0x9F)
  }

  /** A clause ends at byte i: a space or ',', or the last byte of U+FF0C or U+3001. */
  predicate EndsClause(r: seq<Byte>, i: nat)
    requires i < |r|
  {
    r[i] == Space || r[i] == 0x2C
    || (i >= 2 && r[i - 2] == 0xEF && r[i - 1] == 0xBC && r[i] == 0x8C)
    || (i >= 2 && r[i - 2] == 0xE3 && r[i - 1] == 0x80 && r[i] == 0x81)
  }

  /** The scan for a sentence end from byte i down to byte lo + 1: the break just
      after the highest one. */
  function SentenceScan(r: seq<Byte>, i: int, lo: nat): (b: Option<nat>)
    requires i < |r|
    ensures b.Some? ==> lo < b.value - 1 <= i && EndsSentence(r, b.value - 1)
    decreases i - lo
  {
    if i <= lo then None
    else if EndsSentence(r, i) then Some(i + 1)
    else SentenceScan(r, i - 1, lo)
  }

  /** The hit of SentenceScan is the highest one in the range; no hit means none in it. */
  lemma {:induction false} SentenceScanHighest(r: seq<Byte>, i: int, lo: nat)
    requires i < |r|
    ensures var b := SentenceScan(r, i, lo);
      && (b.Some? ==> forall j :: b.value - 1 < j <= i ==> !EndsSentence(r, j))
      && (b.None? ==> forall j :: lo < j <= i ==> !EndsSentence(r, j))
    decreases i - lo
  {
    if i > lo && !EndsSentence(r, i) {
      SentenceScanHighest(r, i - 1, lo);
    }
  }

  /** The same scan for a clause end. */
  function ClauseScan(r: seq<Byte>, i: int, lo: nat): (b: Option<nat>)
    requires i < |r|
    ensures b.Some? ==> lo < b.value - 1 <= i && EndsClause(r, b.value - 1)
    decreases i - lo
  {
    if i <= lo then None
    else if EndsClause(r, i) then Some(i + 1)
    else ClauseScan(r, i - 1, lo)
  }

  /** The hit of ClauseScan is the highest one in the range; no hit means none in it. */
  lemma {:induction false} ClauseScanHighest(r: seq<Byte>, i: int, lo: nat)
    requires i < |r|
    ensures var b := ClauseScan(r, i, lo);
      && (b.Some? ==> forall j :: b.value - 1 < j <= i ==> !EndsClause(r, j))
      && (b.None? ==> forall j :: lo < j <= i ==> !EndsClause(r, j))
    decreases i - lo
  {
    if i > lo && !EndsClause(r, i) {
      ClauseScanHighest(r, i - 1, lo);
    }
  }

  /** Moving back from b over continuation bytes, never below pos. */
  function Boundary(r: seq<Byte>, pos: nat, b: nat): (k: nat)
    requires pos <= b < |r|
    ensures pos <= k <= b
    ensures k == pos || !Continuation(r[k])
    decreases b
  {
    if b > pos && Continuation(r[b]) then Boundary(r, pos, b - 1) else b
  }

  /** Boundary moves back over continuation bytes only. */
  lemma {:induction false} BoundarySkips(r: seq<Byte>, pos: nat, b: nat)
    requires pos <= b < |r|
    ensures forall j :: Boundary(r, pos, b) < j <= b ==> Continuation(r[j])
    decreases b
  {
    if b > pos && Continuation(r[b]) {
      BoundarySkips(r, pos, b - 1);
    }
  }

  /** The break chosen for the line starting at pos, as the loop is written: each
      later search runs when break_pos still equals end_pos, which is also the
      value a hit just before end_pos produces. */
  function BreakAsWritten(r: seq<Byte>, pos: nat): nat
    requires pos + MaxLineLength < |r|
  {
    var end := pos + MaxLineLength;
    var b1 := match SentenceScan(r, end, end - 30) case Some(b) => b case None => end;
    var b2 := if b1 == end then (match ClauseScan(r, end, end - 20) case Some(b) => b case None => end) else b1;
    if b2 == end then Boundary(r, pos, end) else b2
  }

  /** The break the searches evidently intend: the first search that finds
      something decides. */
  function Break(r: seq<Byte>, pos: nat): nat
    requires pos + MaxLineLength < |r|
  {
    var end := pos + MaxLineLength;
    match SentenceScan(r, end, end - 30)
    case Some(b) => b
    case None =>
      match ClauseScan(r, end, end - 20)
      case Some(b) => b
      case None => Boundary(r, pos, end)
  }

  /** The first tier of the break choice: a sentence end among the last 30 bytes of
      the window wins, and the break follows the highest one. */
  lemma BreakAtSentence(r: seq<Byte>, pos: nat, j0: nat)
    requires pos + MaxLineLength < |r|
    requires pos + MaxLineLength - 30 < j0 <= pos + MaxLineLength && EndsSentence(r, j0)
    ensures var end, b := pos + MaxLineLength, Break(r, pos);
      end - 30 < b - 1 && EndsSentence(r, b - 1) && forall j :: b - 1 < j <= end ==> !EndsSentence(r, j)
  {
    var end := pos + MaxLineLength;
    SentenceScanHighest(r, end, end - 30);
  }

  /** The second tier: with no sentence end among the last 30 bytes, a clause end
      among the last 20 wins, and the break follows the highest one. */
  lemma BreakAtClause(r: seq<Byte>, pos: nat, j0: nat)
    requires pos + MaxLineLength < |r|
    requires forall j :: pos + MaxLineLength - 30 < j <= pos + MaxLineLength ==> !EndsSentence(r, j)
    requires pos + MaxLineLength - 20 < j0 <= pos + MaxLineLength && EndsClause(r, j0)
    ensures var end, b := pos + MaxLineLength, Break(r, pos);
      end - 20 < b - 1 && EndsClause(r, b - 1) && forall j :: b - 1 < j <= end ==> !EndsClause(r, j)
  {
    var end := pos + MaxLineLength;
    assert SentenceScan(r, end, end - 30).None?;
    ClauseScanHighest(r, end, end - 20);
  }

  /** The last tier: with neither, the break is the nearest byte at or before the
      window end that is not a continuation byte, or the line start. */
  lemma BreakAtBoundary(r: seq<Byte>, pos: nat)
    requires pos + MaxLineLength < |r|
    requires forall j :: pos + MaxLineLength - 30 < j <= pos + MaxLineLength ==> !EndsSentence(r, j)
    requires forall j :: pos + MaxLineLength - 20 < j <= pos + MaxLineLength ==> !EndsClause(r, j)
    ensures var end, b := pos + MaxLineLength, Break(r, pos);
      b <= end && (b == pos || !Continuation(r[b])) && forall j :: b < j <= end ==> Continuation(r[j])
  {
    var end := pos + MaxLineLength;
    assert SentenceScan(r, end, end - 30).None?;
    assert ClauseScan(r, end, end - 20).None?;
    BoundarySkips(r, pos, end);
  }

  /** The two break choices a wrapping loop can make: the one the program makes,
      and the evidently intended one. */
  datatype BreakRule = AsWritten | Intended

  function BreakBy(r: seq<Byte>, pos: nat, rule: BreakRule): nat
    requires pos + MaxLineLength < |r|
  {
    match rule
    case AsWritten => BreakAsWritten(r, pos)
    case Intended => Break(r, pos)
  }

  /** Under either rule a line ends after its start and at most 101 bytes later,
      unless every byte after the start up to the end of the window is a
      continuation byte. */
  lemma BreakBounds(r: seq<Byte>, pos: nat, rule: BreakRule)
    requires pos + MaxLineLength < |r|
    ensures BreakBy(r, pos, rule) <= pos + MaxLineLength + 1
    ensures BreakBy(r, pos, rule) > pos || forall j :: pos < j <= pos + MaxLineLength ==> Continuation(r[j])
  {
    BoundarySkips(r, pos, pos + MaxLineLength);
  }

  /** Outside the case of a hit just before end_pos, the loop as written breaks
      where the intended break lies. */
  lemma AsWrittenAgrees(r: seq<Byte>, pos: nat)
    requires pos + MaxLineLength < |r|
    requires SentenceScan(r, pos + MaxLineLength, pos + MaxLineLength - 30) != Some(pos + MaxLineLength)
    requires ClauseScan(r, pos + MaxLineLength, pos + MaxLineLength - 20) != Some(pos + MaxLineLength)
    ensures BreakAsWritten(r, pos) == Break(r, pos)
  {
  }

  /** 85 'a', a space, 13 'a', '.', 11 'b': the full stop is byte 99 of the first
      window (pos 0, end_pos 100). */
  function StopBeforeEdge(): (r: seq<Byte>)
    ensures |r| == 111
  {
    seq(85, _ => 0x61 as Byte) + [Space] + seq(13, _ => 0x61 as Byte) + [0x2E] + seq(11, _ => 0x62 as Byte)
  }

  lemma ScanSkips(r: seq<Byte>, i: int, k: int, lo: nat)
    requires lo <= k <= i < |r|
    requires forall j :: k < j <= i ==> !EndsClause(r, j)
    ensures ClauseScan(r, i, lo) == ClauseScan(r, k, lo)
    decreases i - k
  {
    if i > k {
      ScanSkips(r, i - 1, k, lo);
    }
  }

  /** The sentence end before byte 100 is found, yet the space at byte 85 makes the
      first line stop at 86 bytes as written, where 100 bytes are intended. */
  lemma StopBeforeEdgeLost()
    ensures var r := StopBeforeEdge();
      && SentenceScan(r, 100, 70) == Some(100)
      && BreakAsWritten(r, 0) == 86
      && Break(r, 0) == 100
  {
    var r := StopBeforeEdge();
    assert r[100] == 0x62 && r[99] == 0x2E && r[85] == Space;
    assert forall j :: 86 <= j < 99 ==> r[j] == 0x61;
    assert forall j :: 100 <= j < 111 ==> r[j] == 0x62;
    assert !EndsSentence(r, 100);
    assert SentenceScan(r, 100, 70) == Some(100);
    assert forall j :: 85 < j <= 100 ==> !EndsClause(r, j);
    ScanSkips(r, 100, 85, 80);
    assert ClauseScan(r, 85, 80) == Some(86);
  }

  /** StopBeforeEdge holds no continuation byte, so it cannot stall the loop. */
  lemma StopBeforeEdgeNoStall()
    ensures NoStall(StopBeforeEdge())
  {
    var r := StopBeforeEdge();
    forall j | 0 <= j < |r| ensures !Continuation(r[j]) {
      assert r[j] == 0x61 || r[j] == Space || r[j] == 0x2E || r[j] == 0x62;
    }
    ShortRunsNoStall(r);
  }

  /** As the loop is written, StopBeforeEdge is printed as lines of 85 and 25 bytes. */
  lemma StopBeforeEdgeWrapped()
    ensures NoStall(StopBeforeEdge())
    ensures var r := StopBeforeEdge(); WrapFrom(r, 0, AsWritten) == [r[..85], r[86..]]
  {
    var r := StopBeforeEdge();
    StopBeforeEdgeNoStall();
    StopBeforeEdgeLost();
    assert r[84] == 0x61 && r[85] == Space && r[86] == 0x61;
    assert TrimEnd(r, 0, 86) == 85 && SkipSpaces(r, 86) == 86;
    WrapStep(r, 0, AsWritten);
    LastLine(r, 86, AsWritten);
  }

  /** As intended, StopBeforeEdge is printed as lines of 100 and 11 bytes. */
  lemma StopBeforeEdgeIntended()
    ensures NoStall(StopBeforeEdge())
    ensures var r := StopBeforeEdge(); WrapFrom(r, 0, Intended) == [r[..100], r[100..]]
  {
    var r := StopBeforeEdge();
    StopBeforeEdgeNoStall();
    StopBeforeEdgeLost();
    assert r[99] == 0x2E && r[100] == 0x62;
    assert TrimEnd(r, 0, 100) == 100 && SkipSpaces(r, 100) == 100;
    WrapStep(r, 0, Intended);
    LastLine(r, 100, Intended);
  }

  /** The end of the line from pos to b once its trailing spaces are removed. */
  function TrimEnd(r: seq<Byte>, pos: nat, b: nat): (e: nat)
    requires pos <= b <= |r|
    ensures pos <= e <= b && (e == pos || r[e - 1] != Space)
    decreases b
  {
    if b > pos && r[b - 1] == Space then TrimEnd(r, pos, b - 1) else b
  }

  /** What TrimEnd removes is spaces only. */
  lemma {:induction false} TrimmedSpaces(r: seq<Byte>, pos: nat, b: nat)
    requires pos <= b <= |r|
    ensures forall j :: TrimEnd(r, pos, b) <= j < b ==> r[j] == Space
    decreases b
  {
    if b > pos && r[b - 1] == Space {
      TrimmedSpaces(r, pos, b - 1);
    }
  }

  /** The first position from p on that does not hold a space. */
  function SkipSpaces(r: seq<Byte>, p: nat): (q: nat)
    requires p <= |r|
    ensures p <= q <= |r| && (q == |r| || r[q] != Space)
    decreases |r| - p
  {
    if p < |r| && r[p] == Space then SkipSpaces(r, p + 1) else p
  }

  /** What SkipSpaces passes over is spaces only. */
  lemma {:induction false} SkippedSpaces(r: seq<Byte>, p: nat)
    requires p <= |r|
    ensures forall j :: p <= j < SkipSpaces(r, p) ==> r[j] == Space
    decreases |r| - p
  {
    if p < |r| && r[p] == Space {
      SkippedSpaces(r, p + 1);
    }
  }

  /** The loop cannot come back to the same position: wherever more than 100 bytes
      remain, the position holds a space or one of the next 100 bytes is not a
      continuation byte. Valid UTF-8 never has more than three continuation bytes
      in a row. */
  predicate NoStall(r: seq<Byte>)
  {
    forall p: nat :: p < |r| ==> !Stalls(r, p)
  }

  /** At p, more than 100 bytes remain, p holds no space and the next 100 bytes are
      all continuation bytes. */
  predicate Stalls(r: seq<Byte>, p: nat)
  {
    p + MaxLineLength < |r| && r[p] != Space && forall j :: p < j <= p + MaxLineLength ==> Continuation(r[j])
  }

  /** No four continuation bytes in a row, as in every valid UTF-8 text (a
      character has at most three after its lead byte). */
  predicate ShortContinuationRuns(r: seq<Byte>)
  {
    forall p: nat :: p + 3 < |r| ==>
      !(Continuation(r[p]) && Continuation(r[p + 1]) && Continuation(r[p + 2]) && Continuation(r[p + 3]))
  }

  /** A reply whose continuation runs are those of UTF-8 never stalls the loop. */
  lemma ShortRunsNoStall(r: seq<Byte>)
    requires ShortContinuationRuns(r)
    ensures NoStall(r)
  {
    forall p: nat | p < |r| ensures !Stalls(r, p) {
      if p + MaxLineLength < |r| {
        assert !(Continuation(r[p + 1]) && Continuation(r[p + 2]) && Continuation(r[p + 3]) && Continuation(r[p + 4]));
      }
    }
  }

  lemma {:induction false} Advances(r: seq<Byte>, pos: nat, rule: BreakRule)
    requires pos + MaxLineLength < |r| && NoStall(r)
    ensures pos < SkipSpaces(r, BreakBy(r, pos, rule)) <= |r|
  {
    BreakBounds(r, pos, rule);
    assert !Stalls(r, pos);
  }

  /** The lines printed for the reply from pos on. */
  function WrapFrom(r: seq<Byte>, pos: nat, rule: BreakRule): seq<seq<Byte>>
    requires pos <= |r| && NoStall(r)
    decreases |r| - pos
  {
    if pos >= |r| then []
    else if pos + MaxLineLength >= |r| then [r[pos..]]
    else
      var b := BreakBy(r, pos, rule);
      Advances(r, pos, rule);
      [r[pos..TrimEnd(r, pos, b)]] + WrapFrom(r, SkipSpaces(r, b), rule)
  }

  /** The number of bytes dropped after each line: its trailing spaces and the
      spaces skipped before the next. */
  function GapsFrom(r: seq<Byte>, pos: nat, rule: BreakRule): seq<nat>
    requires pos <= |r| && NoStall(r)
    decreases |r| - pos
  {
    if pos >= |r| then []
    else if pos + MaxLineLength >= |r| then [0]
    else
      var b := BreakBy(r, pos, rule);
      Advances(r, pos, rule);
      [SkipSpaces(r, b) - TrimEnd(r, pos, b)] + GapsFrom(r, SkipSpaces(r, b), rule)
  }

  /** n spaces. */
  function Spaces(n: nat): (s: seq<Byte>)
    ensures |s| == n
  {
    seq(n, _ => Space)
  }

  /** Each line followed by as many spaces as were dropped after it. */
  function Interleave(lines: seq<seq<Byte>>, gaps: seq<nat>): seq<Byte>
    requires |lines| == |gaps|
  {
    if |lines| == 0 then [] else lines[0] + Spaces(gaps[0]) + Interleave(lines[1..], gaps[1..])
  }

  /** The bytes from pos to b, with the spaces after b up to next: the line without
      its trailing spaces, then spaces, restore them. */
  lemma SegmentBytes(r: seq<Byte>, pos: nat, b: nat, e: nat, next: nat, line: seq<Byte>, gap: nat)
    requires pos <= b <= |r| && e == TrimEnd(r, pos, b) && next == SkipSpaces(r, b)
    requires line == r[pos..e] && gap == next - e
    ensures r[pos..] == line + Spaces(gap) + r[next..]
  {
    TrimmedSpaces(r, pos, b);
    SkippedSpaces(r, b);
    var spaces := r[e..next];
    forall i | 0 <= i < |spaces| ensures spaces[i] == Spaces(gap)[i] {
      assert spaces[i] == r[e + i];
    }
    assert r[e..next] == Spaces(gap);
    assert r[pos..] == r[pos..e] + r[e..next] + r[next..];
  }

  /** One iteration: the line and the next start. */
  lemma {:induction false} WrapStep(r: seq<Byte>, pos: nat, rule: BreakRule)
    requires pos + MaxLineLength < |r| && NoStall(r)
    ensures var b := BreakBy(r, pos, rule); var next := SkipSpaces(r, b);
      && pos <= b <= pos + MaxLineLength + 1 && pos < next
      && WrapFrom(r, pos, rule) == [r[pos..TrimEnd(r, pos, b)]] + WrapFrom(r, next, rule)
  {
    Advances(r, pos, rule);
    BreakBounds(r, pos, rule);
  }

  /** One iteration: the spaces dropped after the line. */
  lemma GapsUnfold(r: seq<Byte>, pos: nat, rule: BreakRule)
    requires pos + MaxLineLength < |r| && NoStall(r)
    ensures var b := BreakBy(r, pos, rule);
      GapsFrom(r, pos, rule) == [SkipSpaces(r, b) - TrimEnd(r, pos, b)] + GapsFrom(r, SkipSpaces(r, b), rule)
  {
  }

  /** Once at most 100 bytes remain they are the last line, whole. */
  lemma {:induction false} LastLine(r: seq<Byte>, pos: nat, rule: BreakRule)
    requires pos < |r| <= pos + MaxLineLength && NoStall(r)
    ensures WrapFrom(r, pos, rule) == [r[pos..]]
  {
  }

  /** tail is the lines, each followed by the spaces dropped after it, and no line
      is longer than 101 bytes. */
  predicate Segments(tail: seq<Byte>, lines: seq<seq<Byte>>, gaps: seq<nat>)
  {
    && |lines| == |gaps|
    && Interleave(lines, gaps) == tail
    && (forall k :: 0 <= k < |lines| ==> |lines[k]| <= MaxLineLength + 1)
  }

  /** The lines are consecutive pieces of the reply; the only bytes dropped are the
      spaces at the end of a line and before the next one; no line is longer than
      101 bytes. */
  lemma {:induction false} WrapSegments(r: seq<Byte>, pos: nat, rule: BreakRule)
    requires pos <= |r| && NoStall(r)
    ensures Segments(r[pos..], WrapFrom(r, pos, rule), GapsFrom(r, pos, rule))
    decreases |r| - pos
  {
    if pos >= |r| {
    } else if pos + MaxLineLength >= |r| {
      assert r[pos..] + Spaces(0) + [] == r[pos..];
    } else {
      var line, gap, next := SegmentStep(r, pos, rule);
      WrapSegments(r, next, rule);
      ConsSegment(r[pos..], r[next..], line, gap, WrapFrom(r, next, rule), GapsFrom(r, next, rule));
    }
  }

  /** One iteration as a segment: the line, the number of spaces dropped after it
      and the next start. */
  lemma {:induction false} SegmentStep(r: seq<Byte>, pos: nat, rule: BreakRule) returns (line: seq<Byte>, gap: nat, next: nat)
    requires pos + MaxLineLength < |r| && NoStall(r)
    ensures pos < next <= |r| && r[pos..] == line + Spaces(gap) + r[next..]
    ensures |line| <= MaxLineLength + 1
    ensures WrapFrom(r, pos, rule) == [line] + WrapFrom(r, next, rule)
    ensures GapsFrom(r, pos, rule) == [gap] + GapsFrom(r, next, rule)
  {
    var b := BreakBy(r, pos, rule);
    var e := TrimEnd(r, pos, b);
    next := SkipSpaces(r, b);
    line := r[pos..e];
    gap := next - e;
    assert pos < next && b <= pos + MaxLineLength + 1 && WrapFrom(r, pos, rule) == [line] + WrapFrom(r, next, rule) by {
      WrapStep(r, pos, rule);
    }
    assert GapsFrom(r, pos, rule) == [gap] + GapsFrom(r, next, rule) by {
      GapsUnfold(r, pos, rule);
    }
    SegmentBytes(r, pos, b, e, next, line, gap);
  }

  /** One more line and its spaces in front of a segmented tail. */
  lemma ConsSegment(tail: seq<Byte>, rest: seq<Byte>, line: seq<Byte>, gap: nat,
                    lines: seq<seq<Byte>>, gaps: seq<nat>)
    requires tail == line + Spaces(gap) + rest && |line| <= MaxLineLength + 1
    requires Segments(rest, lines, gaps)
    ensures Segments(tail, [line] + lines, [gap] + gaps)
  {
    var lines', gaps' := [line] + lines, [gap] + gaps;
    assert lines'[1..] == lines && gaps'[1..] == gaps;
    forall k | 0 < k < |lines'| ensures |lines'[k]| <= MaxLineLength + 1 {
      assert lines'[k] == lines[k - 1];
    }
  }

  /** The line-break search of one iteration as the loop is written: the clause
      search and the UTF-8 fall-back each run while break_pos still equals end_pos. */
  method FindBreak(response: seq<Byte>, pos: nat) returns (breakPos: nat)
    requires pos + MaxLineLength < |response|
    ensures breakPos == BreakAsWritten(response, pos)
  {
    var endPos := pos + MaxLineLength;
    breakPos := endPos;
    var i := endPos;
    while i > pos && i > endPos - 30
      invariant endPos - 30 <= i <= endPos && breakPos == endPos
      invariant SentenceScan(response, i, endPos - 30) == SentenceScan(response, endPos, endPos - 30)
      decreases i
    {
      if EndsSentence(response, i) {
        breakPos := i + 1;
        break;
      }
      i := i - 1;
    }
    assert breakPos == match SentenceScan(response, endPos, endPos - 30) case Some(b) => b case None => endPos;
    if breakPos == endPos {
      i := endPos;
      while i > pos && i > endPos - 20
        invariant endPos - 20 <= i <= endPos && breakPos == endPos
        invariant ClauseScan(response, i, endPos - 20) == ClauseScan(response, endPos, endPos - 20)
        decreases i
      {
        if EndsClause(response, i) {
          breakPos := i + 1;
          break;
        }
        i := i - 1;
      }
      assert breakPos == match ClauseScan(response, endPos, endPos - 20) case Some(b) => b case None => endPos;
    }
    if breakPos == endPos {
      while breakPos > pos && Continuation(response[breakPos])
        invariant pos <= breakPos <= endPos
        invariant Boundary(response, pos, breakPos) == Boundary(response, pos, endPos)
      {
        breakPos := breakPos - 1;
      }
    }
  }

  /** Removing the trailing spaces of the line from pos to b before it is printed. */
  method DropTrailingSpaces(r: seq<Byte>, pos: nat, b: nat) returns (line: seq<Byte>)
    requires pos <= b <= |r|
    ensures line == r[pos..TrimEnd(r, pos, b)]
  {
    line := r[pos..b];
    ghost var e := b;
    while |line| > 0 && line[|line| - 1] == Space
      invariant pos <= e <= b && line == r[pos..e]
      invariant TrimEnd(r, pos, e) == TrimEnd(r, pos, b)
    {
      line := line[..|line| - 1];
      e := e - 1;
    }
  }

  /** Skipping the spaces at the start of the next line. */
  method SkipSpacesFrom(r: seq<Byte>, p: nat) returns (next: nat)
    requires p <= |r|
    ensures next == SkipSpaces(r, p)
  {
    next := p;
    while next < |r| && r[next] == Space
      invariant p <= next <= |r|
      invariant SkipSpaces(r, next) == SkipSpaces(r, p)
    {
      next := next + 1;
    }
  }

  /** The wrapping loop of text mode: the lines printed for a reply. */
  method WrapLines(response: seq<Byte>) returns (lines: seq<seq<Byte>>)
    requires NoStall(response)
    ensures lines == WrapFrom(response, 0, AsWritten)
  {
    lines := [];
    var pos := 0;
    while pos < |response|
      invariant pos <= |response|
      invariant lines + WrapFrom(response, pos, AsWritten) == WrapFrom(response, 0, AsWritten)
      decreases |response| - pos
    {
      var endPos := pos + MaxLineLength;
      if endPos >= |response| {
        lines := lines + [response[pos..]];
        pos := |response|;
        break;
      }
      var breakPos := FindBreak(response, pos);
      WrapStep(response, pos, AsWritten);
      var line := DropTrailingSpaces(response, pos, breakPos);
      lines := lines + [line];
      pos := SkipSpacesFrom(response, breakPos);
    }
  }
}
