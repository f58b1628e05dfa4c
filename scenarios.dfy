/** Whole runs of the program on the command lines its usage text shows, and on a few
    that exercise the quirks of its argument check. */
module Scenarios {
  import opened Basics
  import opened KeyTable
  import opened Keys
  import opened Arguments
  import opened Session

  /** A port on which every call succeeds and the adapter answers "OK". */
  function GoodPort(): PortIo
  {
    PortIo(3, 0, k => if k < 2 then 1 else 5, ReadBytes([79, 75, 0]))
  }

  const ShortPressLine: seq<string> := ["mameduino", "/dev/ttyS0", "-s", "0", "UP", "UP", "LEFT"]
  const CoinLine: seq<string> := ["mameduino", "/dev/ttyS0", "-c", "2", "b", "l", "a", "r", "g"]
  const ResumeLine: seq<string> := ["mameduino", "/dev/ttyS0", "-s", "0", "-c", "1", "b", "c", "d"]

  /** The key names of the short-press line as the key table resolves them. */
  lemma ArrowLookups()
    ensures "UP" in KeyNameTable() && KeyNameTable()["UP"] == 218
    ensures "LEFT" in KeyNameTable() && KeyNameTable()["LEFT"] == 216
  {
    KeyNameThenCode(218);
    KeyNameThenCode(216);
  }

  /** `readKeys` on the short-press line, for any table that knows UP and LEFT. */
  lemma ShortPressKeys(names: map<string, byte>)
    requires "UP" in names && names["UP"] == 218
    requires "LEFT" in names && names["LEFT"] == 216
    ensures ReadKeysSpec(ShortPressLine, 4, names, [0, 0, 0, 0, 0]) == ([218, 218, 216, 0, 0], true)
  {
    var argv := ShortPressLine;
    assert KeyCode(argv[4], names) == Some(218) && KeyCode(argv[5], names) == Some(218);
    assert KeyCode(argv[6], names) == Some(216);
    assert StoreKeys(argv, 4, names, [218, 218, 216, 0, 0], 3) == ([218, 218, 216, 0, 0], true);
    assert [218, 218, 0, 0, 0][2 := 216] == [218, 218, 216, 0, 0];
    assert StoreKeys(argv, 4, names, [218, 218, 0, 0, 0], 2) == ([218, 218, 216, 0, 0], true);
    assert [218, 0, 0, 0, 0][1 := 218] == [218, 218, 0, 0, 0];
    assert StoreKeys(argv, 4, names, [218, 0, 0, 0, 0], 1) == ([218, 218, 216, 0, 0], true);
    assert [0, 0, 0, 0, 0][0 := 218] == [218, 0, 0, 0, 0];
  }

  lemma ShortPressParsed(parse: string -> int, names: map<string, byte>)
    requires parse("0") == 0
    requires "UP" in names && names["UP"] == 218
    requires "LEFT" in names && names["LEFT"] == 216
    ensures ReadArgumentsSpec(ShortPressLine, parse, names, InitialGlobals())
      == (Globals("/dev/ttyS0", SetButtonShort, 83, 0, [218, 218, 216, 0, 0]), true)
  {
    ShortPressKeys(names);
  }

  /** On the good port a key command goes out whole and is acknowledged; with the
      answer "NO" it goes out whole and is refused. */
  lemma GoodPortSends(g: Globals)
    requires |g.commandArguments| == MAX_NR_OF_KEYS
    requires g.command in {SetButtonShort, SetButtonLong, SetCoin}
    ensures Transmit(g, GoodPort()) == Outcome(0, true, true, [g.commandChar, g.deviceIndex] + g.commandArguments)
    ensures Transmit(g, GoodPort().(readResult := ReadBytes([78, 79, 0])))
      == Outcome(-5, true, true, [g.commandChar, g.deviceIndex] + g.commandArguments)
  {
    FrameLayout(g);
    ResponseOkIff(GoodPort().readResult);
    ResponseOkIff(ReadBytes([78, 79, 0]));
    assert CompletedWrites(Writes(g), GoodPort().writeResult, 0) == 3;
  }

  /** Any command line `readArguments` accepts with a key command ends, on the good
      port, with exit code 0 and its seven-byte frame on the line. */
  lemma AcceptedLineSends(argv: seq<string>, parse: string -> int, h: Globals)
    requires WellFormedArgs(argv) && |argv| >= 2
    requires ReadArgumentsSpec(argv, parse, KeyNameTable(), InitialGlobals()) == (h, true)
    requires h.command in {SetButtonShort, SetButtonLong, SetCoin}
    ensures MainSpec(argv, parse, GoodPort()) == Outcome(0, true, true, [h.commandChar, h.deviceIndex] + h.commandArguments)
    ensures MainSpec(argv, parse, GoodPort().(readResult := ReadBytes([78, 79, 0])))
      == Outcome(-5, true, true, [h.commandChar, h.deviceIndex] + h.commandArguments)
  {
    GoodPortSends(h);
  }

  /** "mameduino /dev/ttyS0 -s 0 UP UP LEFT": a short press of button 0 sends UP, UP
      and LEFT; the frame is 'S', the index byte, and the three codes padded with 0
      (with AcceptedLineSends, this is what goes out on the good port). */
  lemma ShortPressScenario(parse: string -> int)
    requires parse("0") == 0
    ensures ReadArgumentsSpec(ShortPressLine, parse, KeyNameTable(), InitialGlobals()) == (Globals("/dev/ttyS0", SetButtonShort, 83, 0, [218, 218, 216, 0, 0]), true)
    ensures Frame(Globals("/dev/ttyS0", SetButtonShort, 83, 0, [218, 218, 216, 0, 0])) == [83, 0, 218, 218, 216, 0, 0]
  {
    ArrowLookups();
    ShortPressParsed(parse, KeyNameTable());
    FrameLayout(Globals("/dev/ttyS0", SetButtonShort, 83, 0, [218, 218, 216, 0, 0]));
  }

  /** `readKeys` on the coin line: single characters need no table. */
  lemma CoinKeys(names: map<string, byte>)
    ensures ReadKeysSpec(CoinLine, 4, names, [0, 0, 0, 0, 0]) == ([98, 108, 97, 114, 103], true)
  {
    var argv := CoinLine;
    assert KeyCode(argv[4], names) == Some(98) && KeyCode(argv[5], names) == Some(108);
    assert KeyCode(argv[6], names) == Some(97) && KeyCode(argv[7], names) == Some(114);
    assert KeyCode(argv[8], names) == Some(103);
    assert [98, 108, 97, 114, 0][4 := 103] == [98, 108, 97, 114, 103];
    assert StoreKeys(argv, 4, names, [98, 108, 97, 114, 0], 4) == ([98, 108, 97, 114, 103], true);
    assert [98, 108, 97, 0, 0][3 := 114] == [98, 108, 97, 114, 0];
    assert StoreKeys(argv, 4, names, [98, 108, 97, 0, 0], 3) == ([98, 108, 97, 114, 103], true);
    assert [98, 108, 0, 0, 0][2 := 97] == [98, 108, 97, 0, 0];
    assert StoreKeys(argv, 4, names, [98, 108, 0, 0, 0], 2) == ([98, 108, 97, 114, 103], true);
    assert [98, 0, 0, 0, 0][1 := 108] == [98, 108, 0, 0, 0];
    assert StoreKeys(argv, 4, names, [98, 0, 0, 0, 0], 1) == ([98, 108, 97, 114, 103], true);
    assert [0, 0, 0, 0, 0][0 := 98] == [98, 0, 0, 0, 0];
  }

  lemma CoinParsed(parse: string -> int, names: map<string, byte>)
    requires parse("2") == 2
    ensures ReadArgumentsSpec(CoinLine, parse, names, InitialGlobals())
      == (Globals("/dev/ttyS0", SetCoin, 67, 0, [98, 108, 97, 114, 103]), true)
  {
    CoinKeys(names);
  }

  /** "mameduino /dev/ttyS0 -c 2 b l a r g": coin 2 sends "blarg"; the index byte is
      still 0, because the parsed index is never stored. */
  lemma CoinScenario(parse: string -> int)
    requires parse("2") == 2
    ensures ReadArgumentsSpec(CoinLine, parse, KeyNameTable(), InitialGlobals()) == (Globals("/dev/ttyS0", SetCoin, 67, 0, [98, 108, 97, 114, 103]), true)
    ensures Frame(Globals("/dev/ttyS0", SetCoin, 67, 0, [98, 108, 97, 114, 103])) == [67, 0, 98, 108, 97, 114, 103]
  {
    CoinParsed(parse, KeyNameTable());
    FrameLayout(Globals("/dev/ttyS0", SetCoin, 67, 0, [98, 108, 97, 114, 103]));
  }

  /** "mameduino /dev/ttyUSB0 -r on": the usage text offers it, but it exits with -1
      and never opens the port. */
  lemma CoinRejectScenario(parse: string -> int, io: PortIo)
    ensures MainSpec(["mameduino", "/dev/ttyUSB0", "-r", "on"], parse, io) == Outcome(-1, false, false, [])
  {
  }

  /** A button index above 4 is refused. */
  lemma ButtonIndexScenario(parse: string -> int, io: PortIo)
    requires parse("5") == 5
    ensures MainSpec(["mameduino", "/dev/ttyS0", "-s", "5", "UP", "LEFT"], parse, io) == Outcome(-1, false, false, [])
  {
  }

  /** One key after the index is too few: the branch is skipped, and the scan then
      rejects "0" as an unknown command, whatever the index parses to. */
  lemma SingleKeyScenario(parse: string -> int, io: PortIo)
    ensures MainSpec(["mameduino", "/dev/ttyS0", "-s", "0", "UP"], parse, io) == Outcome(-1, false, false, [])
  {
    var argv := ["mameduino", "/dev/ttyS0", "-s", "0", "UP"];
    assert argv[2] == "-s" && argv[3] == "0" && argv[4] == "UP";
    assert !IsKeyFlag("0") by { assert "0"[0] == '0'; }
  }

  /** `readKeys` on the resume line: it fails at "-c", then succeeds from "b" on. */
  lemma ResumeKeys(names: map<string, byte>)
    requires "-c" !in names
    ensures ReadKeysSpec(ResumeLine, 4, names, [0, 0, 0, 0, 0]) == ([0, 0, 0, 0, 0], false)
    ensures ReadKeysSpec(ResumeLine, 6, names, [0, 0, 0, 0, 0]) == ([98, 99, 100, 0, 0], true)
  {
    var argv := ResumeLine;
    assert KeyCode(argv[4], names) == None;
    assert KeyCode(argv[6], names) == Some(98) && KeyCode(argv[7], names) == Some(99);
    assert KeyCode(argv[8], names) == Some(100);
    assert StoreKeys(argv, 6, names, [98, 99, 100, 0, 0], 3) == ([98, 99, 100, 0, 0], true);
    assert [98, 99, 0, 0, 0][2 := 100] == [98, 99, 100, 0, 0];
    assert StoreKeys(argv, 6, names, [98, 99, 0, 0, 0], 2) == ([98, 99, 100, 0, 0], true);
    assert [98, 0, 0, 0, 0][1 := 99] == [98, 99, 0, 0, 0];
    assert StoreKeys(argv, 6, names, [98, 0, 0, 0, 0], 1) == ([98, 99, 100, 0, 0], true);
    assert [0, 0, 0, 0, 0][0 := 98] == [98, 0, 0, 0, 0];
  }

  lemma ResumeParsed(parse: string -> int, names: map<string, byte>)
    requires parse("0") == 0 && parse("1") == 1
    requires "-c" !in names
    ensures ReadArgumentsSpec(ResumeLine, parse, names, InitialGlobals())
      == (Globals("/dev/ttyS0", SetCoin, 67, 0, [98, 99, 100, 0, 0]), true)
  {
    ResumeKeys(names);
    var g := InitialGlobals().(serialPortName := "/dev/ttyS0");
    assert Scan(ResumeLine, parse, names, 2, g) == Scan(ResumeLine, parse, names, 4, g);
  }

  /** A failed key list does not end the scan: "-s 0 -c 1 b c d" first reads "-c" as
      a key name, fails, and then accepts "-c 1 b c d" from the first key token on. */
  lemma ResumeScenario(parse: string -> int)
    requires parse("0") == 0 && parse("1") == 1
    ensures ReadArgumentsSpec(ResumeLine, parse, KeyNameTable(), InitialGlobals()) == (Globals("/dev/ttyS0", SetCoin, 67, 0, [98, 99, 100, 0, 0]), true)
    ensures Frame(Globals("/dev/ttyS0", SetCoin, 67, 0, [98, 99, 100, 0, 0])) == [67, 0, 98, 99, 100, 0, 0]
  {
    KeyNameTableHasNoFlags();
    ResumeParsed(parse, KeyNameTable());
    FrameLayout(Globals("/dev/ttyS0", SetCoin, 67, 0, [98, 99, 100, 0, 0]));
  }
}
