# MAMEduino configuration tool, modelled in Dafny

`mameduino` is a command-line tool that configures an Arduino Leonardo–based MAME
input adapter over a serial line. It is called like this:

- `mameduino <device> -s|-l <button> <key> ...` sets the keys a short or long press of button 0–4 sends.
- `mameduino <device> -c <coin> <key> ...` sets the keys a coin insertion on coin 0–2 sends.
- `mameduino <device> -r on|off` is meant to switch coin rejection on or off.

The tool does three things:

1. It resolves every key token to a byte. A one-character token is sent as that character. A longer token must be one of 34 key names: the modifiers, the arrows, editing keys, navigation keys and F1–F12.
2. It writes a fixed frame to the adapter.
3. It judges the adapter's answer, which must be "OK".

The model follows `src/MAMEduino.cpp`.

- The tool's global variables are the class `Program.Mameduino`. The five key slots are a fixed-size `array<byte>`.
- `setup`, `readKeys` and `readArguments` are methods that update those fields in place.
- Each method is proved equal to a specification function over a value snapshot of the globals (`Arguments.Globals`). These functions are `Keys.ReadKeysSpec` and `Arguments.ReadArgumentsSpec`.
- What the program promises is proved as lemmas about those functions.
- The rest of `main` is pure. `Session.Transmit` and `Session.MainSpec` work from abstract results of the system calls. `Session.Run` puts the pieces together the way `main` does.

The model keeps the code's behaviour as written, including these quirks:

- `-r` never succeeds. The value test `onoff != "on" || onoff != "off"` holds of every string (`Arguments.CoinRejectTestAlwaysHolds`).
- The index byte sent is always 0. The parsed button or coin index is range-checked but never stored in `deviceIndex` (`Session.MainOutcome`, `Scenarios.CoinScenario`).
- A key command needs at least two key tokens. The test `(i + 2) < argc` sends a single key token to the "too few arguments" path, and the scan then goes on from the next token (`Arguments.TooFewTokensSkipped`, `Scenarios.SingleKeyScenario`).
- A failed `readKeys` does not end the scan. Scanning goes on from the first key token, with whatever codes were stored before the failure (`Arguments.FailedKeysResume`, `Scenarios.ResumeScenario`).

Modules, in dependency order:

- `Basics`: bytes, `Option`, well-formed argument vectors.
- `KeyTable`: the two `setup` tables and key resolution.
- `Keys`: what `readKeys` computes.
- `Arguments`: what `readArguments` computes.
- `Program`: the class holding the globals.
- `Session`: the frame, the answer and the exit codes.
- `Scenarios`: whole runs on the command lines the usage text shows.

## Model

| member | source | states |
|---|---|---|
| KeyTable.CommandTable | src/MAMEduino.cpp:42-46 | exactly the four real commands have a byte; BAD_COMMAND has none; no two commands share a byte |
| KeyTable.KeyNamesAreWords | src/MAMEduino.cpp:48-81 | every key name is longer than one character, starts with a capital letter, and has a code of 128 or more |
| KeyTable.KeyCodeThenName | src/MAMEduino.cpp:116-131 | a key name, or a one-character ASCII token, that resolves to a code is given back by the inverse of resolution; distinct such tokens never share a code |
| KeyTable.HighByteAliasesName | src/MAMEduino.cpp:117-133 | for every named code of 128 or more, the one-character token with that code resolves to the same code as the key name; for example, byte 218 and UP both give 218, and byte 128 and LCTRL both give 128 |
| KeyTable.KeyNameThenCode | src/MAMEduino.cpp:48-81 | every code that denotes a key (ASCII 1–127 or one of the 34 named codes) is what resolving that key's token yields |
| KeyTable.SingleCharacterKey | src/MAMEduino.cpp:117-133 | under every name table, a one-character token resolves to its own character code, which is never 0 |
| KeyTable.NoKeyCodeIsZero | src/MAMEduino.cpp:23-25 | no token resolves to 0 under the `setup` table, so 0 only ever marks an unused slot |
| KeyTable.ModifierCodes | src/MAMEduino.cpp:48-55 | codes 128–135 are the table values of LCTRL … RGUI |
| KeyTable.EditingCodes | src/MAMEduino.cpp:60-63 | codes 176–179 are the table values of RETURN, ESC, BACKSPACE, TAB |
| KeyTable.NavigationCodes | src/MAMEduino.cpp:64-69 | codes 209–214 are the table values of INSERT, HOME, PAGEUP, DELETE, END, PAGEDOWN |
| KeyTable.ArrowCodes | src/MAMEduino.cpp:56-59 | codes 215–218 are the table values of RIGHT, LEFT, DOWN, UP |
| KeyTable.FunctionKeyCodes | src/MAMEduino.cpp:70-81 | codes 194–205 are the table values of F1 … F12 |
| KeyTable.KeyCodeExamples | src/MAMEduino.cpp:116-131 | UP → 218, LEFT → 216, F12 → 205, "b" → 98; the lower-case "up" is unknown |
| Keys.KeyWindow | src/MAMEduino.cpp:114 | `readKeys` visits the tokens from the start index on, at most five of them, and all five whenever that many remain |
| Keys.ResolvedPrefix | src/MAMEduino.cpp:114-133 | the codes stored before the first unknown token, each the resolution of its token; the token after them is unknown |
| Keys.Overlay | src/MAMEduino.cpp:122-131 | the stored codes replace the leading slots and leave the others as they were |
| Keys.StoreKeys | src/MAMEduino.cpp:114-133 | the loop of `readKeys` from its k-th token on always leaves five key slots |
| Keys.ReadKeysSpec | src/MAMEduino.cpp:110-141 | `readKeys` always leaves five key slots |
| Keys.StoreKeysWindow | src/MAMEduino.cpp:114-133 | once the codes of the first k window tokens are stored, the rest of the loop stores the whole resolved prefix over the original slots, and succeeds iff every window token is a key |
| Keys.ReadKeysWindow | src/MAMEduino.cpp:110-141 | `readKeys` stores the resolved prefix of its window over the old slots, and succeeds iff the start index is in range and the whole window consists of keys |
| Keys.ReadKeysStores | src/MAMEduino.cpp:110-141 | `readKeys` succeeds iff the start index is in range and each of the first min(5, remaining) tokens is a key; then slot k holds the code of the k-th token and later slots keep their old values |
| Keys.SingleCharacterStored | src/MAMEduino.cpp:114-133 | a one-character token among the first five, after keys only, lands in its slot as its own character code, whatever the name table holds |
| Keys.KeysAfterFifthIgnored | src/MAMEduino.cpp:114 | tokens after the fifth key token do not change the outcome of `readKeys` |
| Keys.SameWindowSameKeys | src/MAMEduino.cpp:114 | from any token of the window on, two argument vectors that agree on the five tokens from the start give the same loop outcome |
| Keys.NoKeysFails | src/MAMEduino.cpp:112-140 | a start index past the last argument fails and stores nothing |
| Keys.UnknownFirstKeyStoresNothing | src/MAMEduino.cpp:119-127 | an unknown first key name fails and stores nothing |
| Arguments.InitialGlobals | src/MAMEduino.cpp:31-36 | the program starts with five zeroed key slots |
| Arguments.FlagCommand | src/MAMEduino.cpp:189-211 | "-s" selects SET_BUTTON_SHORT, "-l" SET_BUTTON_LONG, "-c" SET_COIN; never SET_COIN_REJECT |
| Arguments.Iteration | src/MAMEduino.cpp:155-223 | one pass of the scanning loop either returns or goes on at a later position within the arguments; it never changes the device path or the index byte, and keeps five slots |
| Arguments.ReadArgumentsSpec | src/MAMEduino.cpp:143-226 | `readArguments` always leaves five key slots |
| Arguments.CoinRejectTestAlwaysHolds | src/MAMEduino.cpp:163 | the value test of the "-r" branch holds of every string |
| Arguments.KeyNameTableHasNoFlags | src/MAMEduino.cpp:48-81 | none of "-r", "-s", "-l", "-c" is a key name |
| Arguments.ScanPreserves | src/MAMEduino.cpp:154-225 | the scanning loop never changes the device path or the index byte, and keeps five slots |
| Arguments.ResumeStoresNothing | src/MAMEduino.cpp:189-197 | when the scan after a failed `readKeys` succeeds, that `readKeys` failed on a flag and stored nothing |
| Arguments.ScanAccepts | src/MAMEduino.cpp:154-225 | whenever the scan succeeds, some key flag at or after the scan start was accepted with the globals the scan started from: index in range, at least two keys after it, all of the first five tokens keys, the command, its byte and the codes stored |
| Arguments.IterationAccepts | src/MAMEduino.cpp:176-219 | a pass that returns success accepted the key flag at its position: index in range, keys in the window, command, byte and slots set |
| Arguments.IterationResumes | src/MAMEduino.cpp:189-197 | a pass that goes on, followed by a successful scan, changed nothing |
| Arguments.AcceptedSlots | src/MAMEduino.cpp:188-191 | after an accepted key flag, slot k holds the code of the k-th key token when there is one and otherwise its old value |
| Arguments.UnusedSlotsZero | src/MAMEduino.cpp:22-36 | from the initial globals, a successful `readArguments` fills the slots with the codes of the key tokens after the accepted flag and its index, and 0 in every unused slot |
| Arguments.ReadArgumentsAccepts | src/MAMEduino.cpp:143-226 | a first argument not starting with '/' is rejected with nothing changed; one starting with '/' becomes the device path; success means a key flag was accepted as in ScanAccepts |
| Arguments.AcceptedCommand | src/MAMEduino.cpp:143-226 | after success the command is SET_BUTTON_SHORT, SET_BUTTON_LONG or SET_COIN (never SET_COIN_REJECT); its byte is the table's 'S', 'L' or 'C'; the index byte is unchanged; the path is the first argument; at least six arguments were given |
| Arguments.CoinRejectRejected | src/MAMEduino.cpp:158-166 | "-r" followed by any value ends the scan with failure and nothing changed |
| Arguments.UnknownFlagRejected | src/MAMEduino.cpp:220-223 | a token that is not one of the four flags ends the scan with failure and nothing changed |
| Arguments.IndexOutOfRangeRejected | src/MAMEduino.cpp:176-210 | a button index outside 0–4 or a coin index outside 0–2 ends the scan with failure before any key is read |
| Arguments.TooFewTokensSkipped | src/MAMEduino.cpp:176-219 | a key flag followed by fewer than three tokens is skipped, and the scan goes on from the next token |
| Arguments.KeyFlagAccepted | src/MAMEduino.cpp:176-219 | a key flag with two or more tokens after the index, the index in range and a successful `readKeys` ends the scan with success, the flag's command, its table byte and the stored keys |
| Arguments.FailedKeysResume | src/MAMEduino.cpp:189-197 | a failed `readKeys` does not end the scan: it goes on from the first key token, with the partly filled slots |
| Arguments.FirstCommandAccepted | src/MAMEduino.cpp:143-226 | a '/' path followed by a key flag, an index in range and only keys in the first five tokens after the index is accepted at position 2 |
| Program.Mameduino.constructor | src/MAMEduino.cpp:29-36 | the globals start as /dev/ttyUSB0, BAD_COMMAND, byte 0, index 0, five zero slots, with empty tables |
| Program.Mameduino.Setup | src/MAMEduino.cpp:40-82 | afterwards the command table and the key-name table hold exactly the `setup` entries; the slot array keeps its five slots |
| Program.Mameduino.ReadKeys | src/MAMEduino.cpp:110-141 | the loop over the key tokens leaves the slot array and the result as `Keys.ReadKeysSpec` gives them, so ReadKeysStores holds of it; the array keeps its five slots |
| Program.Mameduino.ReadArguments | src/MAMEduino.cpp:143-226 | the argument loop leaves the globals and the result as `Arguments.ReadArgumentsSpec` gives them, so ReadArgumentsAccepts and AcceptedCommand hold of it; the array keeps its five slots |
| Session.CompletedWrites | src/MAMEduino.cpp:228-237 | the writes before the first short one returned their full size; the one it stops at did not |
| Session.UpToNul | src/MAMEduino.cpp:321-323 | the answer as a C string: a prefix of the bytes read, with no NUL in it, ending where the first NUL is |
| Session.FrameLayout | src/MAMEduino.cpp:288-309 | a button or coin command puts 7 bytes on the line: command byte, index byte, five key slots; coin reject would send two and BAD_COMMAND one |
| Session.ConcatPrefix | src/MAMEduino.cpp:288-309 | what the writes before a short one send is a prefix of the frame, and a strict one when the short write had bytes to send |
| Session.ResponseOkIff | src/MAMEduino.cpp:311-332 | the answer is accepted iff at least two bytes were read and they start with 'O', 'K', followed by the end of the bytes or a NUL |
| Session.TransmitOutcome | src/MAMEduino.cpp:250-337 | exit codes: -2 iff `open` returned 0 or less, with nothing sent or closed and a descriptor left open exactly when it was 0; on every other path the port is closed again; -3 iff configuring the port fails; -4 iff the port is set up and some write comes up short, with only a strict prefix of the frame sent; -5 iff every write is complete and the answer is not "OK"; 0 iff every write is complete and the answer is "OK"; -5 and 0 with the whole frame sent |
| Session.MainOutcome | src/MAMEduino.cpp:239-337 | exit codes lie in {0, -1, …, -5}; -1 iff there are fewer than two arguments or `readArguments` fails, and then no port is opened and nothing is sent; a frame sent whole has 7 bytes, starts with 'S', 'L' or 'C' (never 'R'), has index byte 0 and then the five slots `readArguments` filled: the codes of the key tokens after the accepted flag and its index, and 0 in every unused slot |
| Session.Run | src/MAMEduino.cpp:239-337 | `main`: `setup`, then the argument check, then the exchange with the adapter, ends as `MainSpec` says, so MainOutcome holds of it |
| Scenarios.ArrowLookups | src/MAMEduino.cpp:56-58 | UP and LEFT are in the key-name table with codes 218 and 216 |
| Scenarios.ShortPressKeys | src/MAMEduino.cpp:110-141 | `readKeys` on "UP UP LEFT" stores 218, 218, 216, 0, 0 and succeeds |
| Scenarios.ShortPressParsed | src/MAMEduino.cpp:143-226 | "/dev/ttyS0 -s 0 UP UP LEFT" selects SET_BUTTON_SHORT ('S' = 83) with slots 218, 218, 216, 0, 0 |
| Scenarios.GoodPortSends | src/MAMEduino.cpp:250-337 | on a port where every call succeeds, a key command ends with 0 and its 7 bytes sent; with the answer "NO" it ends with -5 and the same bytes |
| Scenarios.AcceptedLineSends | src/MAMEduino.cpp:239-337 | any accepted command line ends, on that port, with exit code 0 and its frame on the line |
| Scenarios.ShortPressScenario | src/MAMEduino.cpp:106 | the usage example "-s 0 UP UP LEFT" sends 83, 0, 218, 218, 216, 0, 0 |
| Scenarios.CoinKeys | src/MAMEduino.cpp:110-141 | `readKeys` on "b l a r g" stores their ASCII codes and succeeds |
| Scenarios.CoinParsed | src/MAMEduino.cpp:143-226 | "/dev/ttyS0 -c 2 b l a r g" selects SET_COIN ('C' = 67) with the codes of "blarg" |
| Scenarios.CoinScenario | src/MAMEduino.cpp:107 | the usage example "-c 2 b l a r g" sends 67, 0, 98, 108, 97, 114, 103: the index byte is 0, not 2 |
| Scenarios.CoinRejectScenario | src/MAMEduino.cpp:105 | the usage example "-r on" exits with -1 and opens no port |
| Scenarios.ButtonIndexScenario | src/MAMEduino.cpp:178-188 | "-s 5 UP LEFT" exits with -1 and opens no port |
| Scenarios.SingleKeyScenario | src/MAMEduino.cpp:176-197 | "-s 0 UP" exits with -1 and opens no port, whatever "0" parses to |
| Scenarios.ResumeKeys | src/MAMEduino.cpp:110-141 | on "-s 0 -c 1 b c d", `readKeys` from "-c" fails and stores nothing, and from "b" it stores 98, 99, 100 |
| Scenarios.ResumeParsed | src/MAMEduino.cpp:154-219 | "-s 0 -c 1 b c d" is accepted as SET_COIN with slots 98, 99, 100, 0, 0 |
| Scenarios.ResumeScenario | src/MAMEduino.cpp:189-197 | with the real key table, that line sends 67, 0, 98, 99, 100, 0, 0 |

## Left out

- Console output (`printVersion`, `printUsage`, the error messages, `ConsoleStyle`) is not modelled. It does not change the state, the bytes sent or the exit code. src/consolestyle.cpp, src/consolestyle.h and src/MAMEduino.h are not part of this model.
- The serial-port system calls are parameters of the model (`Session.PortIo`). The parameters are: the result of `open`, the result of `tcsetattr`, the result of the k-th `write` call, and the one `read` call. The line settings (9600 Bd, 8N1, raw mode) are left out, because only the success or failure of `tcsetattr` affects the outcome. `tcgetattr` is left out, because its result is ignored.
- Session.TransmitOutcome: when a write comes up short, `sent` records only the writes completed before it. The bytes a partial `write` may still have put on the line are not modelled.
- Session.ResponseOkIff: the answer may have any length. The source's `read` asks for at most 15 bytes. Longer answers cannot occur, and every proved fact holds for all lengths.
- The integer extraction of `std::stringstream` is the parameter `parse`. So whitespace handling, trailing characters and the value left when extraction fails are not modelled. Every lemma holds for every `parse`. The scenarios state only what they need of it, such as `parse("0") == 0`.
- Argument tokens are strings whose characters each stand for one byte of the C string (codes 1 to 255, since a C string holds no NUL).
- Every token from the device path on is required to be non-empty. The source calls `at(0)` only on the device path and on key tokens of at most one character, and throws on an empty one there; that throw is not modelled. Empty tokens in other places, which the source handles without throwing, are left out with it. For example:
  - an empty index token (the extraction fails, so under C++11 the index is 0 and accepted);
  - an empty command token (rejected as an unknown command);
  - an empty `-r` value (only compared);
  - an empty token after the fifth key;
  - an empty token the scan never reaches, such as one after an unknown command or after an unknown key name inside the key window.
- KeyTable.KeyCodeThenName: resolution is one-to-one only on key names and ASCII one-character tokens. A one-character token with a code of 128 or more sends the same byte as the key name with that code (`KeyTable.HighByteAliasesName`).
- An `open` result of 0 is a valid descriptor, yet the test `serialPort <= 0` treats it as a failure: the run ends with -2 and the descriptor is never closed. The model records this as `portOpened` without `portClosed`.
- Program.Mameduino.ReadArguments: the "-s"/"-l" branch and the "-c" branch of the source are one branch here. They differ only in the largest index and in the command they select (`Arguments.MaxIndex`, `Arguments.FlagCommand`).
- The assignments after the "-r" value test (SET_COIN_REJECT and the on/off byte) can never run, because the test always holds. So the model has no path that selects SET_COIN_REJECT. `Session.Writes` still lays out the two bytes that command would send.
- Scenarios.ShortPressScenario, Scenarios.CoinScenario and Scenarios.ResumeScenario state the parse result and the frame on the real key table. They reach `MainSpec` through `Scenarios.AcceptedLineSends`, not in one statement.
- These features are not part of this source, so the model has none of them:
  - port auto-detection (`-a`), a dump-config command (`-d`) and a help flag;
  - a `\n` frame terminator and variable-length frames with up to six keys;
  - 38400 Bd;
  - "OK\n"/"NK\n" answer markers read with a timeout;
  - argument parsing that stops at the first error.

  In this source the frame always has 7 bytes for a key command, with unused slots 0. There are at most 5 keys, and at least 2 in practice. The answer is a single read compared with "OK". A failed key list resumes the scan.
