/** The global state of src/MAMEduino.cpp and the procedures that update it in place:
    `setup`, `readKeys` and `readArguments`. */
module Program {
  import opened Basics
  import opened KeyTable
  import opened Keys
  import opened Arguments

  /** The program's globals: the two lookup tables, the device path, the selected
      command and its byte, the index byte and the fixed-size array of key slots. */
  class Mameduino {
    var commandMap: map<Command, byte>
    var keyNameMap: map<string, byte>
    var serialPortName: string
    var command: Command
    var commandChar: byte
    var deviceIndex: byte
    const commandArguments: array<byte>

    ghost predicate Valid()
      reads this
    {
      commandArguments.Length == MAX_NR_OF_KEYS
    }

    /** `setup` has run. */
    predicate TablesReady()
      reads this
    {
      commandMap == CommandTable() && keyNameMap == KeyNameTable()
    }

    /** The globals other than the tables, as a value. */
    function Snapshot(): Globals
      reads this, commandArguments
    {
      Globals(serialPortName, command, commandChar, deviceIndex, commandArguments[..])
    }

    /** The globals with their static initial values; the tables start empty. */
    constructor ()
      ensures Valid() && fresh(commandArguments)
      ensures Snapshot() == InitialGlobals()
      ensures commandMap == map[] && keyNameMap == map[]
    {
      commandMap := map[];
      keyNameMap := map[];
      serialPortName := "/dev/ttyUSB0";
      command := BadCommand;
      commandChar := 0;
      deviceIndex := 0;
      commandArguments := new byte[MAX_NR_OF_KEYS](_ => 0);
      new;
      assert commandArguments[..] == [0, 0, 0, 0, 0];
    }

    /** `setup`: fill the command table and the key-name table. */
    method Setup()
      requires Valid()
      modifies this`commandMap, this`keyNameMap
      ensures Valid() && TablesReady()
    {
      commandMap := CommandTable();
      keyNameMap := KeyNameTable();
    }

    /** `readKeys(argc, argv, startIndex)`: store the codes of up to five key tokens
        from `startIndex` on into the key slots, in argument order. */
    method ReadKeys(argv: seq<string>, startIndex: nat) returns (ok: bool)
      requires Valid() && WellFormedArgs(argv) && 1 <= startIndex
      modifies commandArguments
      ensures Valid()
      ensures (commandArguments[..], ok) == ReadKeysSpec(argv, startIndex, keyNameMap, old(commandArguments[..]))
    {
      ghost var before := commandArguments[..];
      if startIndex < |argv| {
        var argumentIndex := 0;
        var i := startIndex;
        while i < |argv| && i - startIndex < MAX_NR_OF_KEYS
          invariant startIndex <= i <= |argv| && i - startIndex <= MAX_NR_OF_KEYS
          invariant argumentIndex == i - startIndex
          invariant ReadKeysSpec(argv, startIndex, keyNameMap, before)
            == StoreKeys(argv, startIndex, keyNameMap, commandArguments[..], argumentIndex)
        {
          var key := argv[i];
          i := i + 1;
          if |key| > 1 {
            if key in keyNameMap {
              commandArguments[argumentIndex] := keyNameMap[key];
              argumentIndex := argumentIndex + 1;
            } else {
              return false;
            }
          } else {
            commandArguments[argumentIndex] := ByteOf(key[0]);
            argumentIndex := argumentIndex + 1;
          }
        }
        return true;
      } else {
        return false;
      }
    }

    /** `readArguments(argc, argv)`: check the device path, then scan the tokens for a
        command; `parse` is the integer extraction of `std::stringstream`. */
    method ReadArguments(argv: seq<string>, parse: string -> int) returns (ok: bool)
      requires Valid() && commandMap == CommandTable() && |argv| >= 2 && WellFormedArgs(argv)
      modifies this`serialPortName, this`command, this`commandChar, commandArguments
      ensures Valid()
      ensures (Snapshot(), ok) == ReadArgumentsSpec(argv, parse, keyNameMap, old(Snapshot()))
    {
      ghost var result := ReadArgumentsSpec(argv, parse, keyNameMap, Snapshot());
      var argument := argv[1];
      if argument[0] == '/' {
        serialPortName := argument;
      } else {
        return false;
      }
      var i := 2;
      while i < |argv|
        invariant 2 <= i <= |argv|
        invariant result == Scan(argv, parse, keyNameMap, i, Snapshot())
        decreases |argv| - i
      {
        ghost var g := Snapshot();
        ghost var at := i;
        argument := argv[i];
        i := i + 1;
        if argument == "-r" {
          if i < |argv| {
            var onoff := argv[i];
            // the test holds of every string, so the rest of the branch, which would
            // select SET_COIN_REJECT, is never reached
            CoinRejectTestAlwaysHolds(onoff);
            if onoff != "on" || onoff != "off" {
              CoinRejectRejected(argv, parse, keyNameMap, at, g);
              return false;
            }
            assert false;
          }
        } else if IsKeyFlag(argument) {
          // the source's "-s"/"-l" branch and its "-c" branch, which differ only in the
          // largest index they accept and in the command they select
          if i + 2 < |argv| {
            var value := parse(argv[i]);
            i := i + 1;
            if value < 0 || value > MaxIndex(argument) {
              IndexOutOfRangeRejected(argv, parse, keyNameMap, at, g);
              return false;
            }
            var keysOk := ReadKeys(argv, i);
            if keysOk {
              KeyFlagAccepted(argv, parse, keyNameMap, at, g);
              command := FlagCommand(argument);
              commandChar := commandMap[command];
              return true;
            }
            assert Snapshot() == g.(commandArguments := commandArguments[..]);
            FailedKeysResume(argv, parse, keyNameMap, at, g);
          } else {
            TooFewTokensSkipped(argv, parse, keyNameMap, at, g);
          }
        } else {
          UnknownFlagRejected(argv, parse, keyNameMap, at, g);
          return false;
        }
      }
      return false;
    }
  }
}
