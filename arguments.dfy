/** What `readArguments` in src/MAMEduino.cpp computes from the argument vector,
    stated over a snapshot of the program's global variables, and what it promises. */
module Arguments {
  import opened Basics
  import opened KeyTable
  import opened Keys

  /** The program's global variables: the serial device, the selected command, its
      byte, the addressed button or coin, and the five key slots. */
  datatype Globals = Globals(
    serialPortName: string,
    command: Command,
    commandChar: byte,
    deviceIndex: byte,
    commandArguments: seq<byte>)

  /** The globals as the program starts. */
  function InitialGlobals(): (g: Globals)
    ensures |g.commandArguments| == MAX_NR_OF_KEYS
  {
    Globals("/dev/ttyUSB0", BadCommand, 0, 0, [0, 0, 0, 0, 0])
  }

  /** A flag that selects a key command. */
  predicate IsKeyFlag(a: string)
  {
    a == "-s" || a == "-l" || a == "-c"
  }

  /** The command a key flag selects. */
  function FlagCommand(a: string): (c: Command)
    ensures c in {SetButtonShort, SetButtonLong, SetCoin}
    ensures a == "-s" ==> c == SetButtonShort
    ensures a == "-l" ==> c == SetButtonLong
    ensures a == "-c" ==> c == SetCoin
  {
    if a == "-s" then SetButtonShort else if a == "-l" then SetButtonLong else SetCoin
  }

  /** The largest index a key flag accepts: a button for -s and -l, a coin for -c. */
  function MaxIndex(a: string): int
  {
    if a == "-c" then MAX_COIN_INDEX else MAX_BUTTON_INDEX
  }

  /** How one pass through the loop of `readArguments` ends: the function returns
      with a result, or the loop goes on at position `next`. */
  datatype Step = Returns(h: Globals, ok: bool) | Continues(next: nat, h: Globals)

  /** One pass through the scanning loop of `readArguments` at argument position `i`,
      with the globals at `g`; `parse` is the integer extraction of `std::stringstream`.
      A pass moves forward, and never touches the device path, the index byte or the
      number of key slots. */
  function Iteration(argv: seq<string>, parse: string -> int, names: map<string, byte>, i: nat, g: Globals): (s: Step)
    requires WellFormedArgs(argv) && 2 <= i < |argv|
    requires |g.commandArguments| == MAX_NR_OF_KEYS
    ensures s.Continues? ==> i < s.next <= |argv|
    ensures s.h.serialPortName == g.serialPortName && s.h.deviceIndex == g.deviceIndex
    ensures |s.h.commandArguments| == MAX_NR_OF_KEYS
  {
    var argument := argv[i];
    if argument == "-r" then
      // with a value after it, "-r" fails whatever the value is: the value test
      // holds of every string (CoinRejectTestAlwaysHolds)
      if i + 1 < |argv| then Returns(g, false) else Continues(i + 1, g)
    else if IsKeyFlag(argument) then
      // the "-s"/"-l" branch and the "-c" branch of the source, which differ only in
      // the largest index they accept and the command they select
      if i + 3 < |argv| then
        var value := parse(argv[i + 1]);
        if value < 0 || value > MaxIndex(argument) then Returns(g, false)
        else
          var (slots, ok) := ReadKeysSpec(argv, i + 2, names, g.commandArguments);
          if ok then
            var c := FlagCommand(argument);
            Returns(g.(command := c, commandChar := CommandTable()[c], commandArguments := slots), true)
          else Continues(i + 2, g.(commandArguments := slots))
      else Continues(i + 1, g)
    else Returns(g, false)
  }

  /** The scanning loop of `readArguments` from argument position `i` on: the globals
      at the end and the result. */
  function Scan(argv: seq<string>, parse: string -> int, names: map<string, byte>, i: nat, g: Globals): (Globals, bool)
    requires WellFormedArgs(argv) && 2 <= i
    requires |g.commandArguments| == MAX_NR_OF_KEYS
    decreases |argv| - i
  {
    if i >= |argv| then (g, false)
    else match Iteration(argv, parse, names, i, g)
      case Returns(h, ok) => (h, ok)
      case Continues(next, h) => Scan(argv, parse, names, next, h)
  }

  /** The test the "-r" branch applies to its value holds of every string, so the
      assignments of SET_COIN_REJECT that follow it are never reached. */
  lemma CoinRejectTestAlwaysHolds(onoff: string)
    ensures onoff != "on" || onoff != "off"
  {
  }

  /** `readArguments(argc, argv)` from globals `g`: the device path, then the scan. */
  function ReadArgumentsSpec(argv: seq<string>, parse: string -> int, names: map<string, byte>, g: Globals): (r: (Globals, bool))
    requires |argv| >= 2 && WellFormedArgs(argv)
    requires |g.commandArguments| == MAX_NR_OF_KEYS
    ensures |r.0.commandArguments| == MAX_NR_OF_KEYS
  {
    if argv[1][0] == '/' then
      ScanPreserves(argv, parse, names, 2, g.(serialPortName := argv[1]));
      Scan(argv, parse, names, 2, g.(serialPortName := argv[1]))
    else (g, false)
  }

  /** The key flag at position `j` was accepted with the globals at `g`: its index is
      in range, at least two key tokens follow it and every one of the first five is
      a key; `h` is `g` with the command, its byte and the stored keys set. */
  predicate AcceptedAt(argv: seq<string>, parse: string -> int, names: map<string, byte>, j: nat, g: Globals, h: Globals)
    requires WellFormedArgs(argv) && |g.commandArguments| == MAX_NR_OF_KEYS
  {
    && 2 <= j && j + 3 < |argv| && IsKeyFlag(argv[j])
    && 0 <= parse(argv[j + 1]) <= MaxIndex(argv[j])
    && var (slots, ok) := ReadKeysSpec(argv, j + 2, names, g.commandArguments);
       && ok
       && h == g.(command := FlagCommand(argv[j]), commandChar := CommandTable()[FlagCommand(argv[j])],
                  commandArguments := slots)
  }

  /** The slots hold, in order, the codes of the key tokens that follow the flag at
      `j` and its index, and 0 in every slot past the last token. */
  predicate KeysThenZeros(argv: seq<string>, names: map<string, byte>, j: nat, slots: seq<byte>)
    requires WellFormedArgs(argv) && 2 <= j && |slots| == MAX_NR_OF_KEYS
  {
    forall k :: 0 <= k < MAX_NR_OF_KEYS ==>
      if j + 2 + k < |argv| then KeyCode(argv[j + 2 + k], names) == Some(slots[k])
      else slots[k] == 0
  }

  /** After a key flag is accepted, slot `k` holds the code of the `k`-th key token
      when there is one, and otherwise keeps the value it had before. */
  lemma AcceptedSlots(argv: seq<string>, parse: string -> int, names: map<string, byte>, j: nat, g: Globals, h: Globals)
    requires WellFormedArgs(argv) && |g.commandArguments| == MAX_NR_OF_KEYS
    requires AcceptedAt(argv, parse, names, j, g, h)
    ensures forall k :: 0 <= k < MAX_NR_OF_KEYS ==>
      if j + 2 + k < |argv| then KeyCode(argv[j + 2 + k], names) == Some(h.commandArguments[k])
      else h.commandArguments[k] == g.commandArguments[k]
  {
    ReadKeysStores(argv, j + 2, names, g.commandArguments);
  }

  /** No command flag is a key name of `names`, so a flag is never a key. */
  predicate NoFlagIsKeyName(names: map<string, byte>)
  {
    "-r" !in names && "-s" !in names && "-l" !in names && "-c" !in names
  }

  /** The table `setup` fills has no flag among its names. */
  lemma KeyNameTableHasNoFlags()
    ensures NoFlagIsKeyName(KeyNameTable())
  {
    var names := KeyNameTable();
    KeyNamesAreWords();
    assert "-r"[0] == '-' && "-s"[0] == '-' && "-l"[0] == '-' && "-c"[0] == '-';
  }

  /** The scan never changes the device path or the index byte, and keeps five slots. */
  lemma {:induction false} ScanPreserves(argv: seq<string>, parse: string -> int, names: map<string, byte>, i: nat, g: Globals)
    requires WellFormedArgs(argv) && 2 <= i
    requires |g.commandArguments| == MAX_NR_OF_KEYS
    ensures var (h, _) := Scan(argv, parse, names, i, g);
      && h.serialPortName == g.serialPortName && h.deviceIndex == g.deviceIndex
      && |h.commandArguments| == MAX_NR_OF_KEYS
    decreases |argv| - i
  {
    if i < |argv| {
      var s := Iteration(argv, parse, names, i, g);
      if s.Continues? {
        ScanPreserves(argv, parse, names, s.next, s.h);
      }
    }
  }

  /** When the scan that follows a failed `readKeys` from `start` succeeds, the token at
      `start` is a flag, so `readKeys` failed on its first token and stored nothing. */
  lemma ResumeStoresNothing(argv: seq<string>, parse: string -> int, names: map<string, byte>, start: nat, g: Globals)
    requires WellFormedArgs(argv) && 2 <= start < |argv|
    requires |g.commandArguments| == MAX_NR_OF_KEYS
    requires NoFlagIsKeyName(names)
    requires Scan(argv, parse, names, start, g.(commandArguments := ReadKeysSpec(argv, start, names, g.commandArguments).0)).1
    ensures ReadKeysSpec(argv, start, names, g.commandArguments) == (g.commandArguments, false)
  {
    assert argv[start] == "-r" || IsKeyFlag(argv[start]);
    assert KeyCode(argv[start], names) == None;
    UnknownFirstKeyStoresNothing(argv, start, names, g.commandArguments);
  }

  /** Whenever the scan from `i` succeeds, some key flag at or after `i` was accepted
      with the globals the scan started from: a failed `readKeys` before it can only
      have been followed by a flag, and so stored nothing. */
  lemma {:induction false} ScanAccepts(argv: seq<string>, parse: string -> int, names: map<string, byte>, i: nat, g: Globals)
    requires WellFormedArgs(argv) && 2 <= i
    requires |g.commandArguments| == MAX_NR_OF_KEYS
    requires NoFlagIsKeyName(names)
    ensures var (h, ok) := Scan(argv, parse, names, i, g);
      ok ==> exists j :: i <= j && AcceptedAt(argv, parse, names, j, g, h)
    decreases |argv| - i
  {
    var (h, ok) := Scan(argv, parse, names, i, g);
    if ok {
      var s := Iteration(argv, parse, names, i, g);
      if s.Returns? {
        IterationAccepts(argv, parse, names, i, g);
      } else {
        ScanAccepts(argv, parse, names, s.next, s.h);
        IterationResumes(argv, parse, names, i, g);
      }
    }
  }

  /** A pass that returns success has accepted the key flag at its position. */
  lemma IterationAccepts(argv: seq<string>, parse: string -> int, names: map<string, byte>, i: nat, g: Globals)
    requires WellFormedArgs(argv) && 2 <= i < |argv|
    requires |g.commandArguments| == MAX_NR_OF_KEYS
    requires Iteration(argv, parse, names, i, g) == Returns(Iteration(argv, parse, names, i, g).h, true)
    ensures AcceptedAt(argv, parse, names, i, g, Iteration(argv, parse, names, i, g).h)
  {
  }

  /** A pass that goes on, after which the scan succeeds, has left the globals as they
      were: a failed `readKeys` there stopped at the flag that follows it. */
  lemma IterationResumes(argv: seq<string>, parse: string -> int, names: map<string, byte>, i: nat, g: Globals)
    requires WellFormedArgs(argv) && 2 <= i < |argv|
    requires |g.commandArguments| == MAX_NR_OF_KEYS
    requires NoFlagIsKeyName(names)
    requires Iteration(argv, parse, names, i, g).Continues?
    requires Scan(argv, parse, names, Iteration(argv, parse, names, i, g).next, Iteration(argv, parse, names, i, g).h).1
    ensures Iteration(argv, parse, names, i, g).h == g
  {
    if IsKeyFlag(argv[i]) && i + 3 < |argv| {
      ResumeStoresNothing(argv, parse, names, i + 2, g);
    }
  }

  /** `readArguments` succeeds only when the device path starts with '/' and a key
      flag was accepted; the path is stored whenever it starts with '/', and a path
      that does not is rejected with nothing changed. */
  lemma ReadArgumentsAccepts(argv: seq<string>, parse: string -> int, names: map<string, byte>, g: Globals)
    requires |argv| >= 2 && WellFormedArgs(argv)
    requires |g.commandArguments| == MAX_NR_OF_KEYS
    requires NoFlagIsKeyName(names)
    ensures var (h, ok) := ReadArgumentsSpec(argv, parse, names, g);
      && (argv[1][0] != '/' ==> h == g && !ok)
      && (argv[1][0] == '/' ==> h.serialPortName == argv[1])
      && (ok ==> exists j :: AcceptedAt(argv, parse, names, j, g.(serialPortName := argv[1]), h))
  {
    if argv[1][0] == '/' {
      ScanPreserves(argv, parse, names, 2, g.(serialPortName := argv[1]));
      ScanAccepts(argv, parse, names, 2, g.(serialPortName := argv[1]));
    }
  }

  /** After a successful `readArguments` the command is a button or coin command (never
      SET_COIN_REJECT), its byte is the table's 'S', 'L' or 'C', the index byte is
      untouched, and the argument vector had at least six entries. */
  lemma AcceptedCommand(argv: seq<string>, parse: string -> int, names: map<string, byte>, g: Globals)
    requires |argv| >= 2 && WellFormedArgs(argv)
    requires |g.commandArguments| == MAX_NR_OF_KEYS
    requires NoFlagIsKeyName(names)
    ensures var (h, ok) := ReadArgumentsSpec(argv, parse, names, g);
      ok ==>
        && h.command in {SetButtonShort, SetButtonLong, SetCoin}
        && h.command != SetCoinReject
        && h.commandChar == CommandTable()[h.command]
        && h.commandChar as int in {'S' as int, 'L' as int, 'C' as int}
        && h.deviceIndex == g.deviceIndex
        && h.serialPortName == argv[1]
        && |h.commandArguments| == MAX_NR_OF_KEYS
        && |argv| >= 6
  {
    var (h, ok) := ReadArgumentsSpec(argv, parse, names, g);
    ReadArgumentsAccepts(argv, parse, names, g);
    if ok {
      var j :| AcceptedAt(argv, parse, names, j, g.(serialPortName := argv[1]), h);
    }
  }

  /** From the program's initial globals, a successful `readArguments` leaves in slot
      `k` the code of the `k`-th key token after the accepted flag and its index, and
      0 where there is no such token: the protocol's unused codes are 0. */
  lemma UnusedSlotsZero(argv: seq<string>, parse: string -> int, names: map<string, byte>)
    requires |argv| >= 2 && WellFormedArgs(argv)
    requires NoFlagIsKeyName(names)
    ensures var (h, ok) := ReadArgumentsSpec(argv, parse, names, InitialGlobals());
      ok ==> exists j ::
               2 <= j && j + 3 < |argv| && IsKeyFlag(argv[j]) && KeysThenZeros(argv, names, j, h.commandArguments)
  {
    var g := InitialGlobals();
    var r := ReadArgumentsSpec(argv, parse, names, g);
    ReadArgumentsAccepts(argv, parse, names, g);
    if r.1 {
      var j :| AcceptedAt(argv, parse, names, j, g.(serialPortName := argv[1]), r.0);
      AcceptedSlots(argv, parse, names, j, g.(serialPortName := argv[1]), r.0);
      assert KeysThenZeros(argv, names, j, r.0.commandArguments);
    }
  }

  /** "-r" followed by any value is rejected on the spot. */
  lemma CoinRejectRejected(argv: seq<string>, parse: string -> int, names: map<string, byte>, i: nat, g: Globals)
    requires WellFormedArgs(argv) && 2 <= i && i + 1 < |argv|
    requires |g.commandArguments| == MAX_NR_OF_KEYS
    requires argv[i] == "-r"
    ensures Scan(argv, parse, names, i, g) == (g, false)
  {
  }

  /** A token that is not one of the four flags where a command is expected is rejected. */
  lemma UnknownFlagRejected(argv: seq<string>, parse: string -> int, names: map<string, byte>, i: nat, g: Globals)
    requires WellFormedArgs(argv) && 2 <= i < |argv|
    requires |g.commandArguments| == MAX_NR_OF_KEYS
    requires argv[i] != "-r" && !IsKeyFlag(argv[i])
    ensures Scan(argv, parse, names, i, g) == (g, false)
  {
  }

  /** An index outside 0..4 (button) or 0..2 (coin) is rejected before any key is read. */
  lemma IndexOutOfRangeRejected(argv: seq<string>, parse: string -> int, names: map<string, byte>, i: nat, g: Globals)
    requires WellFormedArgs(argv) && 2 <= i && i + 3 < |argv|
    requires |g.commandArguments| == MAX_NR_OF_KEYS
    requires IsKeyFlag(argv[i])
    requires parse(argv[i + 1]) < 0 || parse(argv[i + 1]) > MaxIndex(argv[i])
    ensures Scan(argv, parse, names, i, g) == (g, false)
  {
  }

  /** With fewer than three tokens after a key flag, the flag is skipped and scanning
      goes on from the token after it. */
  lemma TooFewTokensSkipped(argv: seq<string>, parse: string -> int, names: map<string, byte>, i: nat, g: Globals)
    requires WellFormedArgs(argv) && 2 <= i < |argv| <= i + 3
    requires |g.commandArguments| == MAX_NR_OF_KEYS
    requires IsKeyFlag(argv[i])
    ensures Scan(argv, parse, names, i, g) == Scan(argv, parse, names, i + 1, g)
  {
  }

  /** A key flag with its index in range and only keys after it selects its command,
      the command's byte from the table, and the stored keys. */
  lemma KeyFlagAccepted(argv: seq<string>, parse: string -> int, names: map<string, byte>, i: nat, g: Globals)
    requires WellFormedArgs(argv) && 2 <= i && i + 3 < |argv|
    requires |g.commandArguments| == MAX_NR_OF_KEYS
    requires IsKeyFlag(argv[i]) && 0 <= parse(argv[i + 1]) <= MaxIndex(argv[i])
    requires ReadKeysSpec(argv, i + 2, names, g.commandArguments).1
    ensures Scan(argv, parse, names, i, g) ==
      (g.(command := FlagCommand(argv[i]), commandChar := CommandTable()[FlagCommand(argv[i])],
          commandArguments := ReadKeysSpec(argv, i + 2, names, g.commandArguments).0), true)
  {
  }

  /** A failed `readKeys` does not end the scan: it goes on from the first key token,
      with whatever `readKeys` stored before it failed. */
  lemma FailedKeysResume(argv: seq<string>, parse: string -> int, names: map<string, byte>, i: nat, g: Globals)
    requires WellFormedArgs(argv) && 2 <= i && i + 3 < |argv|
    requires |g.commandArguments| == MAX_NR_OF_KEYS
    requires IsKeyFlag(argv[i]) && 0 <= parse(argv[i + 1]) <= MaxIndex(argv[i])
    requires !ReadKeysSpec(argv, i + 2, names, g.commandArguments).1
    ensures Scan(argv, parse, names, i, g) ==
      Scan(argv, parse, names, i + 2, g.(commandArguments := ReadKeysSpec(argv, i + 2, names, g.commandArguments).0))
  {
  }

  /** A key flag right after a device path, with its index in range and only keys
      among the (at least two) tokens after the index, is accepted. */
  lemma FirstCommandAccepted(argv: seq<string>, parse: string -> int, names: map<string, byte>, g: Globals)
    requires |argv| >= 6 && WellFormedArgs(argv)
    requires |g.commandArguments| == MAX_NR_OF_KEYS
    requires argv[1][0] == '/' && IsKeyFlag(argv[2])
    requires 0 <= parse(argv[3]) <= MaxIndex(argv[2])
    requires AllKnown(KeyWindow(argv, 4), names)
    ensures var (h, ok) := ReadArgumentsSpec(argv, parse, names, g);
      ok && AcceptedAt(argv, parse, names, 2, g.(serialPortName := argv[1]), h)
  {
    ReadKeysWindow(argv, 4, names, g.commandArguments);
  }
}
