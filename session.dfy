/** The rest of `main` in src/MAMEduino.cpp: which bytes go to the adapter, how its
    answer is judged, and which exit code results, over abstract results of the
    serial-port system calls. */
module Session {
  import opened Basics
  import opened KeyTable
  import opened Arguments
  import opened Program

  /** What the one `read` call gives: an error, or the bytes it read. */
  datatype ReadResult = ReadFailed | ReadBytes(data: seq<byte>)

  /** What the system calls on the serial device return: `open` (a descriptor, or -1
      on failure; a result of 0 is a descriptor the program still treats as a
      failure), `tcsetattr` (0 on success), the `k`-th `write` call (the number of
      bytes written), and the one `read` call. */
  datatype PortIo = PortIo(
    openResult: int,
    setAttrResult: int,
    writeResult: nat -> int,
    readResult: ReadResult)

  /** How a run ends: the exit code, whether a descriptor for the port was opened,
      whether it was closed again, and the bytes of the writes that went through in
      full. */
  datatype Outcome = Outcome(exitCode: int, portOpened: bool, portClosed: bool, sent: seq<byte>)

  /** The `write` calls `main` makes for a command, in order: the command byte, then
      the coin-reject value, or the index byte and the five key slots. A command
      outside the switch sends its byte only. */
  function Writes(g: Globals): (w: seq<seq<byte>>)
    requires |g.commandArguments| == MAX_NR_OF_KEYS
  {
    [[g.commandChar]] +
    match g.command
      case SetCoinReject => [[g.commandArguments[0]]]
      case SetButtonShort => [[g.deviceIndex], g.commandArguments]
      case SetButtonLong => [[g.deviceIndex], g.commandArguments]
      case SetCoin => [[g.deviceIndex], g.commandArguments]
      case BadCommand => []
  }

  function Concat(chunks: seq<seq<byte>>): seq<byte>
  {
    if chunks == [] then [] else chunks[0] + Concat(chunks[1..])
  }

  /** The whole frame a command puts on the line. */
  function Frame(g: Globals): seq<byte>
    requires |g.commandArguments| == MAX_NR_OF_KEYS
  {
    Concat(Writes(g))
  }

  /** The number of leading writes, from the `k`-th on, that `write` completed in full:
      `writeToPort` fails as soon as `write` returns anything but the size. */
  function CompletedWrites(chunks: seq<seq<byte>>, writeResult: nat -> int, k: nat): (n: nat)
    requires k <= |chunks|
    ensures k <= n <= |chunks|
    ensures forall j :: k <= j < n ==> writeResult(j) == |chunks[j]|
    ensures n < |chunks| ==> writeResult(n) != |chunks[n]|
    decreases |chunks| - k
  {
    if k == |chunks| then k
    else if writeResult(k) != |chunks[k]| then k
    else CompletedWrites(chunks, writeResult, k + 1)
  }

  /** The bytes of a C string: everything before the first NUL. */
  function UpToNul(data: seq<byte>): (s: seq<byte>)
    ensures |s| <= |data| && s == data[..|s|]
    ensures forall k :: 0 <= k < |s| ==> s[k] != 0
    ensures |s| < |data| ==> data[|s|] == 0
  {
    if data == [] || data[0] == 0 then [] else [data[0]] + UpToNul(data[1..])
  }

  /** The answer is "OK": at least two bytes were read, and the string they form up to
      the terminating NUL is exactly "OK". */
  predicate ResponseOk(r: ReadResult)
  {
    r.ReadBytes? && |r.data| >= 2 && UpToNul(r.data) == [ByteOf('O'), ByteOf('K')]
  }

  /** `main` after a successful `readArguments`: open and configure the port, write
      the command, read and judge the answer, close the port. */
  function Transmit(g: Globals, io: PortIo): Outcome
    requires |g.commandArguments| == MAX_NR_OF_KEYS
  {
    // 0 is a valid descriptor that the test `serialPort <= 0` still counts as a
    // failure; it is left open
    if io.openResult <= 0 then Outcome(-2, io.openResult == 0, false, [])
    else if io.setAttrResult != 0 then Outcome(-3, true, true, [])
    else
      var chunks := Writes(g);
      var n := CompletedWrites(chunks, io.writeResult, 0);
      if n < |chunks| then Outcome(-4, true, true, Concat(chunks[..n]))
      else if !ResponseOk(io.readResult) then Outcome(-5, true, true, Frame(g))
      else Outcome(0, true, true, Frame(g))
  }

  /** The whole of `main`: `setup`, the argument check, then the exchange with the
      adapter. A rejected command line gives -1 and touches no port. */
  function MainSpec(argv: seq<string>, parse: string -> int, io: PortIo): Outcome
    requires WellFormedArgs(argv)
  {
    if |argv| < 2 then Outcome(-1, false, false, [])
    else
      var (h, ok) := ReadArgumentsSpec(argv, parse, KeyNameTable(), InitialGlobals());
      if !ok || h.command == BadCommand then Outcome(-1, false, false, [])
      else Transmit(h, io)
  }

  /** `main(argc, argv)`, with the results of the system calls given by `io`. */
  method Run(argv: seq<string>, parse: string -> int, io: PortIo) returns (o: Outcome)
    requires WellFormedArgs(argv)
    ensures o == MainSpec(argv, parse, io)
  {
    var program := new Mameduino();
    program.Setup();
    if |argv| < 2 {
      return Outcome(-1, false, false, []);
    }
    var ok := program.ReadArguments(argv, parse);
    if !ok || program.command == BadCommand {
      return Outcome(-1, false, false, []);
    }
    o := Transmit(program.Snapshot(), io);
  }

  /** The frame of a button or coin command is exactly seven bytes: the command byte,
      the index byte and the five key slots; coin reject would send two bytes. */
  lemma FrameLayout(g: Globals)
    requires |g.commandArguments| == MAX_NR_OF_KEYS
    ensures g.command in {SetButtonShort, SetButtonLong, SetCoin} ==>
      Frame(g) == [g.commandChar, g.deviceIndex] + g.commandArguments && |Frame(g)| == 7
    ensures g.command == SetCoinReject ==> Frame(g) == [g.commandChar, g.commandArguments[0]]
    ensures g.command == BadCommand ==> Frame(g) == [g.commandChar]
  {
    var w := Writes(g);
    if g.command in {SetButtonShort, SetButtonLong, SetCoin} {
      assert Concat(w[2..]) == g.commandArguments + Concat([]) by { assert w[2..][1..] == []; }
      assert Concat(w[1..]) == [g.deviceIndex] + Concat(w[2..]) by { assert w[1..][1..] == w[2..]; }
    } else if g.command == SetCoinReject {
      assert Concat(w[1..]) == [g.commandArguments[0]] + Concat([]) by { assert w[1..][1..] == []; }
    }
  }

  /** The bytes of the first `n` writes come first in the bytes of all of them. */
  lemma {:induction false} ConcatPrefix(chunks: seq<seq<byte>>, n: nat)
    requires n <= |chunks|
    ensures Concat(chunks[..n]) <= Concat(chunks)
    ensures n < |chunks| && |chunks[n]| > 0 ==> |Concat(chunks[..n])| < |Concat(chunks)|
  {
    if n > 0 {
      ConcatPrefix(chunks[1..], n - 1);
      assert chunks[..n][1..] == chunks[1..][..n - 1];
    }
  }

  /** The answer counts as "OK" exactly when it starts with 'O', 'K' and either ends
      there or goes on with a NUL. */
  lemma ResponseOkIff(r: ReadResult)
    ensures ResponseOk(r) <==>
      && r.ReadBytes? && |r.data| >= 2
      && r.data[0] == ByteOf('O') && r.data[1] == ByteOf('K')
      && (|r.data| == 2 || r.data[2] == 0)
  {
    if r.ReadBytes? && |r.data| >= 2 {
      var d := r.data;
      if d[0] == ByteOf('O') && d[1] == ByteOf('K') && (|d| == 2 || d[2] == 0) {
        assert d[1..][1..] == d[2..];
        assert UpToNul(d[2..]) == [];
      }
      if UpToNul(d) == [ByteOf('O'), ByteOf('K')] {
        assert d[..2] == [ByteOf('O'), ByteOf('K')];
      }
    }
  }

  /** Exit codes after the argument check: -2 and nothing sent or closed when `open`
      returns at most 0 (descriptor 0 stays open); otherwise the port is closed again
      on every path, with -3 when it cannot be configured, -4 when a write comes up
      short (only a prefix of the frame went out), -5 when every write went through
      and the answer is not "OK", and 0 when it is (the whole frame went out). */
  lemma TransmitOutcome(g: Globals, io: PortIo)
    requires |g.commandArguments| == MAX_NR_OF_KEYS
    ensures var o := Transmit(g, io);
      && o.exitCode in {0, -2, -3, -4, -5}
      && (o.exitCode == -2 <==> io.openResult <= 0)
      && (o.exitCode == -2 ==> (o.portOpened <==> io.openResult == 0) && !o.portClosed && o.sent == [])
      && (o.exitCode != -2 ==> o.portOpened && o.portClosed)
      && (o.exitCode == -3 <==> io.openResult > 0 && io.setAttrResult != 0)
      && (o.exitCode == -4 <==>
            && io.openResult > 0 && io.setAttrResult == 0
            && exists j :: 0 <= j < |Writes(g)| && io.writeResult(j) != |Writes(g)[j]|)
      && (o.exitCode == -4 ==> o.sent < Frame(g))
      && (o.exitCode == -5 <==>
            && io.openResult > 0 && io.setAttrResult == 0
            && (forall j :: 0 <= j < |Writes(g)| ==> io.writeResult(j) == |Writes(g)[j]|)
            && !ResponseOk(io.readResult))
      && (o.exitCode in {0, -5} ==> o.sent == Frame(g))
      && (o.exitCode == 0 <==>
            && io.openResult > 0 && io.setAttrResult == 0
            && (forall j :: 0 <= j < |Writes(g)| ==> io.writeResult(j) == |Writes(g)[j]|)
            && ResponseOk(io.readResult))
  {
    var o := Transmit(g, io);
    if io.openResult > 0 && io.setAttrResult == 0 {
      var chunks := Writes(g);
      var n := CompletedWrites(chunks, io.writeResult, 0);
      if n < |chunks| {
        assert io.writeResult(n) != |chunks[n]|;
        assert chunks[n] != [];
        ConcatPrefix(chunks, n);
      }
    }
  }

  /** What a whole run promises: a rejected command line gives -1 and opens no port;
      any frame that goes out whole is seven bytes, starts with 'S', 'L' or 'C'
      (never the coin-reject 'R'), carries the index byte 0 whatever index was given,
      and then the five key slots that `readArguments` filled: the codes of the key
      tokens after the accepted flag and its index, and 0 in every unused slot. */
  lemma MainOutcome(argv: seq<string>, parse: string -> int, io: PortIo)
    requires WellFormedArgs(argv)
    ensures var o := MainSpec(argv, parse, io);
      && o.exitCode in {0, -1, -2, -3, -4, -5}
      && (o.exitCode == -1 <==> |argv| < 2 || !ReadArgumentsSpec(argv, parse, KeyNameTable(), InitialGlobals()).1)
      && (o.exitCode == -1 ==> !o.portOpened && o.sent == [])
      && (o.exitCode in {0, -5} ==>
            && |argv| >= 6
            && var h := ReadArgumentsSpec(argv, parse, KeyNameTable(), InitialGlobals()).0;
               && o.sent == [h.commandChar, 0] + h.commandArguments
               && o.sent[0] as int in {'S' as int, 'L' as int, 'C' as int}
               && o.sent[1] == 0
               && exists j ::
                    2 <= j && j + 3 < |argv| && IsKeyFlag(argv[j]) && KeysThenZeros(argv, KeyNameTable(), j, h.commandArguments))
  {
    if |argv| >= 2 {
      var g := InitialGlobals();
      var (h, ok) := ReadArgumentsSpec(argv, parse, KeyNameTable(), g);
      KeyNameTableHasNoFlags();
      AcceptedCommand(argv, parse, KeyNameTable(), g);
      if ok {
        TransmitOutcome(h, io);
        FrameLayout(h);
        UnusedSlotsZero(argv, parse, KeyNameTable());
      }
    }
  }
}
