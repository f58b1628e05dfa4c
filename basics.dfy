/** Bytes, optional values and the command-line tokens the interpreter reads. */
module Basics {

  /** An `unsigned char`: the type of every byte the program sends to the adapter. */
  newtype byte = x: int | 0 <= x < 256

  datatype Option<+T> = None | Some(value: T)

  /** A command-line token as the C runtime hands it over: a C string, each character
      of which stands for one non-NUL byte. Tokens are taken to be non-empty. */
  predicate IsToken(t: string)
  {
    |t| > 0 && forall k :: 0 <= k < |t| ==> 0 < t[k] as int < 256
  }

  /** Every token of the argument vector after the program name is a token. */
  predicate WellFormedArgs(argv: seq<string>)
  {
    forall i :: 1 <= i < |argv| ==> IsToken(argv[i])
  }

  /** The byte a character of a token stands for (`char` stored as `unsigned char`). */
  function ByteOf(c: char): (b: byte)
    requires c as int < 256
    ensures b as int == c as int
  {
    c as int as byte
  }
}
