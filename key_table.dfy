/** The two lookup tables that `setup` fills in src/MAMEduino.cpp, and how a key
    token is resolved through them. */
module KeyTable {
  import opened Basics

  /** The commands of the adapter protocol; `BadCommand` is the "nothing selected" value. */
  datatype Command = SetCoinReject | SetButtonShort | SetButtonLong | SetCoin | BadCommand

  const MAX_BUTTON_INDEX: int := 4
  const MAX_COIN_INDEX: int := 2
  const MAX_NR_OF_KEYS: nat := 5

  /** Command -> the byte that identifies it on the serial line. */
  function CommandTable(): (m: map<Command, byte>)
    ensures forall c :: c in m <==> c.SetCoinReject? || c.SetButtonShort? || c.SetButtonLong? || c.SetCoin?
    ensures forall c, d :: c in m && d in m && c != d ==> m[c] != m[d]
  {
    map[SetCoinReject := 'R' as int as byte, SetButtonShort := 'S' as int as byte,
        SetButtonLong := 'L' as int as byte, SetCoin := 'C' as int as byte]
  }

  /** Key name -> key code sent to the adapter for that key. */
  function KeyNameTable(): map<string, byte>
  {
    map[
      "LCTRL" := 128, "LSHIFT" := 129, "LALT" := 130, "LGUI" := 131,
      "RCTRL" := 132, "RSHIFT" := 133, "RALT" := 134, "RGUI" := 135,
      "UP" := 218, "DOWN" := 217, "LEFT" := 216, "RIGHT" := 215,
      "BACKSPACE" := 178, "TAB" := 179, "RETURN" := 176, "ESC" := 177,
      "INSERT" := 209, "DELETE" := 212, "PAGEUP" := 211, "PAGEDOWN" := 214,
      "HOME" := 210, "END" := 213,
      "F1" := 194, "F2" := 195, "F3" := 196, "F4" := 197, "F5" := 198, "F6" := 199,
      "F7" := 200, "F8" := 201, "F9" := 202, "F10" := 203, "F11" := 204, "F12" := 205
    ]
  }

  /** Every key name is longer than one character and starts with a capital letter,
      and every named code lies above the ASCII range: a name never competes with
      the one-character rule, with an ASCII character's code or with a command flag. */
  lemma KeyNamesAreWords()
    ensures forall name :: name in KeyNameTable() ==>
      |name| > 1 && 'A' <= name[0] <= 'Z' && 128 <= KeyNameTable()[name]
  {
  }

  /** The code a key token stands for under the name table `names`: a one-character
      token is sent as that character's byte, a longer token must be a key name. */
  function KeyCode(token: string, names: map<string, byte>): Option<byte>
    requires IsToken(token)
  {
    if |token| > 1 then
      if token in names then Some(names[token]) else None
    else
      Some(ByteOf(token[0]))
  }

  /** A one-character token is a key under every name table: it stands for its own
      character code, which is never 0, the value of an unused slot. */
  lemma SingleCharacterKey(token: string, names: map<string, byte>)
    requires IsToken(token) && |token| == 1
    ensures KeyCode(token, names) == Some(token[0] as int as byte)
    ensures KeyCode(token, names) != Some(0)
  {
    var b := ByteOf(token[0]);
    assert b as int == token[0] as int;
  }

  /** No token resolves to 0 under the table `setup` fills. */
  lemma NoKeyCodeIsZero(token: string)
    requires IsToken(token)
    ensures KeyCode(token, KeyNameTable()) != Some(0)
  {
    if |token| > 1 && token in KeyNameTable() {
      KeyNamesAreWords();
    }
  }

  /** The key a code denotes: the single ASCII character for codes 1 to 127, the
      key name for the codes of `KeyNameTable`, nothing for any other code (0 is an
      unused key slot). This is the inverse of `KeyCode` under `KeyNameTable`. */
  function KeyName(b: byte): Option<string>
  {
    if 0 < b < 128 then Some([b as int as char])
    else match b
      case 128 => Some("LCTRL")     case 129 => Some("LSHIFT")
      case 130 => Some("LALT")      case 131 => Some("LGUI")
      case 132 => Some("RCTRL")     case 133 => Some("RSHIFT")
      case 134 => Some("RALT")      case 135 => Some("RGUI")
      case 218 => Some("UP")        case 217 => Some("DOWN")
      case 216 => Some("LEFT")      case 215 => Some("RIGHT")
      case 178 => Some("BACKSPACE") case 179 => Some("TAB")
      case 176 => Some("RETURN")    case 177 => Some("ESC")
      case 209 => Some("INSERT")    case 212 => Some("DELETE")
      case 211 => Some("PAGEUP")    case 214 => Some("PAGEDOWN")
      case 210 => Some("HOME")      case 213 => Some("END")
      case 194 => Some("F1")        case 195 => Some("F2")
      case 196 => Some("F3")        case 197 => Some("F4")
      case 198 => Some("F5")        case 199 => Some("F6")
      case 200 => Some("F7")        case 201 => Some("F8")
      case 202 => Some("F9")        case 203 => Some("F10")
      case 204 => Some("F11")       case 205 => Some("F12")
      case _ => None
  }

  /** Resolving a key name or a one-character ASCII token and then asking which key
      the code denotes gives the token back: distinct such tokens never share a code. */
  lemma KeyCodeThenName(token: string)
    requires IsToken(token)
    requires |token| > 1 || token[0] as int < 128
    ensures KeyCode(token, KeyNameTable()).Some? ==> KeyName(KeyCode(token, KeyNameTable()).value) == Some(token)
  {
    if |token| == 1 {
      assert [token[0]] == token;
    }
  }

  /** Every code that denotes a key is produced by resolving that key's token. */
  lemma KeyNameThenCode(b: byte)
    ensures KeyName(b).Some? ==> IsToken(KeyName(b).value) && KeyCode(KeyName(b).value, KeyNameTable()) == Some(b)
  {
    if 0 < b < 128 {
      var c := b as int as char;
      assert [c][0] == c;
    }
    else if 128 <= b < 136 { ModifierCodes(b); }
    else if 176 <= b < 180 { EditingCodes(b); }
    else if 194 <= b < 206 { FunctionKeyCodes(b); }
    else if 209 <= b < 215 { NavigationCodes(b); }
    else if 215 <= b < 219 { ArrowCodes(b); }
  }

  /** A one-character token with a code of 128 or more is sent as that byte, so it
      shares its code with the key name of that code, if there is one: the byte 218
      and UP send the same code, and so do the byte 128 and LCTRL. */
  lemma HighByteAliasesName(b: byte)
    requires 128 <= b && KeyName(b).Some?
    ensures IsToken([b as int as char])
    ensures KeyCode([b as int as char], KeyNameTable()) == KeyCode(KeyName(b).value, KeyNameTable()) == Some(b)
    ensures KeyCode([218 as char], KeyNameTable()) == KeyCode("UP", KeyNameTable()) == Some(218)
    ensures KeyCode([128 as char], KeyNameTable()) == KeyCode("LCTRL", KeyNameTable()) == Some(128)
  {
    SingleCharacterKey([b as int as char], KeyNameTable());
    KeyNameThenCode(b);
  }

  /** The codes of the modifier keys are looked up from their names. */
  lemma ModifierCodes(b: byte)
    requires 128 <= b < 136
    ensures KeyName(b).Some? && IsToken(KeyName(b).value) && |KeyName(b).value| > 1
    ensures KeyName(b).value in KeyNameTable() && KeyNameTable()[KeyName(b).value] == b
  {
  }

  /** The codes of RETURN, ESC, BACKSPACE and TAB are looked up from their names. */
  lemma EditingCodes(b: byte)
    requires 176 <= b < 180
    ensures KeyName(b).Some? && IsToken(KeyName(b).value) && |KeyName(b).value| > 1
    ensures KeyName(b).value in KeyNameTable() && KeyNameTable()[KeyName(b).value] == b
  {
  }

  /** The codes of F1 to F12 are looked up from their names. */
  lemma FunctionKeyCodes(b: byte)
    requires 194 <= b < 206
    ensures KeyName(b).Some? && IsToken(KeyName(b).value) && |KeyName(b).value| > 1
    ensures KeyName(b).value in KeyNameTable() && KeyNameTable()[KeyName(b).value] == b
  {
  }

  /** The codes of INSERT, HOME, PAGEUP, DELETE, END and PAGEDOWN are looked up from their names. */
  lemma NavigationCodes(b: byte)
    requires 209 <= b < 215
    ensures KeyName(b).Some? && IsToken(KeyName(b).value) && |KeyName(b).value| > 1
    ensures KeyName(b).value in KeyNameTable() && KeyNameTable()[KeyName(b).value] == b
  {
  }

  /** The codes of the arrow keys are looked up from their names. */
  lemma ArrowCodes(b: byte)
    requires 215 <= b < 219
    ensures KeyName(b).Some? && IsToken(KeyName(b).value) && |KeyName(b).value| > 1
    ensures KeyName(b).value in KeyNameTable() && KeyNameTable()[KeyName(b).value] == b
  {
  }

  /** A few entries of the name table, and the one-character rule. */
  lemma KeyCodeExamples()
    ensures KeyCode("UP", KeyNameTable()) == Some(218)
    ensures KeyCode("LEFT", KeyNameTable()) == Some(216)
    ensures KeyCode("F12", KeyNameTable()) == Some(205)
    ensures KeyCode("b", KeyNameTable()) == Some(98)
    ensures KeyCode("up", KeyNameTable()) == None
  {
  }
}
