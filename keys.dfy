/** What `readKeys` in src/MAMEduino.cpp computes: which tokens it looks at, which
    key codes it stores and whether it reports success. `StoreKeys` follows the loop
    step by step; `KeyWindow`, `ResolvedPrefix` and `Overlay` describe the same
    outcome as a whole, and `ReadKeysWindow` proves that the two agree. */
module Keys {
  import opened Basics
  import opened KeyTable

  /** The tokens `readKeys` visits when it starts at `start`: the tokens from `start`
      on, at most MAX_NR_OF_KEYS of them. */
  function KeyWindow(argv: seq<string>, start: nat): (w: seq<string>)
    ensures |w| <= MAX_NR_OF_KEYS
    ensures forall k :: 0 <= k < |w| ==> start + k < |argv| && w[k] == argv[start + k]
    ensures |w| == MAX_NR_OF_KEYS || start + |w| >= |argv|
  {
    if start >= |argv| then []
    else if |argv| - start <= MAX_NR_OF_KEYS then argv[start..]
    else argv[start..start + MAX_NR_OF_KEYS]
  }

  predicate AllTokens(tokens: seq<string>)
  {
    forall k :: 0 <= k < |tokens| ==> IsToken(tokens[k])
  }

  /** Every token is a key: a single character, or a name `names` knows. */
  predicate AllKnown(tokens: seq<string>, names: map<string, byte>)
    requires AllTokens(tokens)
  {
    forall k :: 0 <= k < |tokens| ==> KeyCode(tokens[k], names).Some?
  }

  /** The codes of the tokens that come before the first token that is not a key. */
  function ResolvedPrefix(tokens: seq<string>, names: map<string, byte>): (r: seq<byte>)
    requires AllTokens(tokens)
    ensures |r| <= |tokens|
    ensures forall k :: 0 <= k < |r| ==> KeyCode(tokens[k], names) == Some(r[k])
    ensures |r| < |tokens| ==> KeyCode(tokens[|r|], names) == None
  {
    if tokens == [] then []
    else match KeyCode(tokens[0], names)
      case None => []
      case Some(b) => [b] + ResolvedPrefix(tokens[1..], names)
  }

  /** `slots` with its first `|prefix|` entries replaced by `prefix`. */
  function Overlay(slots: seq<byte>, prefix: seq<byte>): (r: seq<byte>)
    requires |prefix| <= |slots|
    ensures |r| == |slots|
    ensures forall k :: 0 <= k < |prefix| ==> r[k] == prefix[k]
    ensures forall k :: |prefix| <= k < |slots| ==> r[k] == slots[k]
  {
    prefix + slots[|prefix|..]
  }

  /** The loop of `readKeys` from its `k`-th visited token on, with the key slots at
      `slots`: each key token stores its code in slot `k` and moves on; the first
      token that is not a key ends the loop with failure; the fifth key or the last
      argument ends it with success. */
  function StoreKeys(argv: seq<string>, start: nat, names: map<string, byte>, slots: seq<byte>, k: nat): (r: (seq<byte>, bool))
    requires WellFormedArgs(argv) && 1 <= start
    requires |slots| == MAX_NR_OF_KEYS && k <= MAX_NR_OF_KEYS
    ensures |r.0| == MAX_NR_OF_KEYS
    decreases MAX_NR_OF_KEYS - k
  {
    if k == MAX_NR_OF_KEYS || start + k >= |argv| then (slots, true)
    else match KeyCode(argv[start + k], names)
      case None => (slots, false)
      case Some(b) => StoreKeys(argv, start, names, slots[k := b], k + 1)
  }

  /** The outcome of `readKeys(argc, argv, start)` with key-name table `names`, when
      the key slots hold `slots` beforehand: the slots after, and whether it succeeds.
      A start past the last argument fails at once. */
  function ReadKeysSpec(argv: seq<string>, start: nat, names: map<string, byte>, slots: seq<byte>): (r: (seq<byte>, bool))
    requires WellFormedArgs(argv) && 1 <= start
    requires |slots| == MAX_NR_OF_KEYS
    ensures |r.0| == MAX_NR_OF_KEYS
  {
    if start < |argv| then StoreKeys(argv, start, names, slots, 0) else (slots, false)
  }

  /** From the `k`-th token on, with the codes of the tokens before it already stored,
      the loop stores the codes of the whole resolved prefix of the window, and
      succeeds exactly when every token of the window is a key. */
  lemma {:induction false} StoreKeysWindow(argv: seq<string>, start: nat, names: map<string, byte>, original: seq<byte>, slots: seq<byte>, k: nat)
    requires WellFormedArgs(argv) && 1 <= start < |argv|
    requires |original| == MAX_NR_OF_KEYS && k <= MAX_NR_OF_KEYS
    requires k <= |ResolvedPrefix(KeyWindow(argv, start), names)|
    requires slots == Overlay(original, ResolvedPrefix(KeyWindow(argv, start), names)[..k])
    ensures StoreKeys(argv, start, names, slots, k) ==
      (Overlay(original, ResolvedPrefix(KeyWindow(argv, start), names)),
       AllKnown(KeyWindow(argv, start), names))
    decreases MAX_NR_OF_KEYS - k
  {
    var w := KeyWindow(argv, start);
    var r := ResolvedPrefix(w, names);
    if k == MAX_NR_OF_KEYS || start + k >= |argv| {
      assert |w| == k && |r| == k;
      assert r[..k] == r;
    } else {
      assert w[k] == argv[start + k];
      match KeyCode(argv[start + k], names)
      case None =>
        assert |r| == k && r[..k] == r;
      case Some(b) =>
        assert |r| > k && r[k] == b;
        assert slots[k := b] == Overlay(original, r[..k + 1]);
        StoreKeysWindow(argv, start, names, original, slots[k := b], k + 1);
    }
  }

  /** `readKeys` stores the codes of the tokens of its window up to the first one
      that is not a key, and succeeds when there is a window and all of it are keys. */
  lemma ReadKeysWindow(argv: seq<string>, start: nat, names: map<string, byte>, slots: seq<byte>)
    requires WellFormedArgs(argv) && 1 <= start
    requires |slots| == MAX_NR_OF_KEYS
    ensures ReadKeysSpec(argv, start, names, slots) ==
      (Overlay(slots, ResolvedPrefix(KeyWindow(argv, start), names)),
       start < |argv| && AllKnown(KeyWindow(argv, start), names))
  {
    assert Overlay(slots, []) == slots;
    if start < |argv| {
      assert ResolvedPrefix(KeyWindow(argv, start), names)[..0] == [];
      StoreKeysWindow(argv, start, names, slots, slots, 0);
    }
  }

  /** On success the keys land in argument order in the first slots, one per visited
      token; the remaining slots keep their values; fewer than one key, or an unknown
      key among the first five tokens, is a failure. */
  lemma {:induction false} ReadKeysStores(argv: seq<string>, start: nat, names: map<string, byte>, slots: seq<byte>)
    requires WellFormedArgs(argv) && 1 <= start
    requires |slots| == MAX_NR_OF_KEYS
    ensures var (after, ok) := ReadKeysSpec(argv, start, names, slots);
      var n := if |argv| - start < MAX_NR_OF_KEYS then |argv| - start else MAX_NR_OF_KEYS;
      && (ok <==> start < |argv| && forall j :: start <= j < start + n ==> KeyCode(argv[j], names).Some?)
      && (ok ==> forall k :: 0 <= k < n ==> Some(after[k]) == KeyCode(argv[start + k], names))
      && (ok ==> forall k :: n <= k < MAX_NR_OF_KEYS ==> after[k] == slots[k])
  {
    ReadKeysWindow(argv, start, names, slots);
    var w := KeyWindow(argv, start);
    var r := ResolvedPrefix(w, names);
    if start < |argv| {
      assert |w| == if |argv| - start < MAX_NR_OF_KEYS then |argv| - start else MAX_NR_OF_KEYS;
      if AllKnown(w, names) {
        assert |r| == |w|;
      }
    }
  }

  /** A one-character token among the first five, after keys only, lands in its slot
      as its own character code, whatever the name table holds and whether or not
      `readKeys` succeeds. */
  lemma SingleCharacterStored(argv: seq<string>, start: nat, names: map<string, byte>, slots: seq<byte>, k: nat)
    requires WellFormedArgs(argv) && 1 <= start
    requires |slots| == MAX_NR_OF_KEYS && k < MAX_NR_OF_KEYS && start + k < |argv|
    requires |argv[start + k]| == 1
    requires forall j :: start <= j < start + k ==> KeyCode(argv[j], names).Some?
    ensures ReadKeysSpec(argv, start, names, slots).0[k] as int == argv[start + k][0] as int
  {
    ReadKeysWindow(argv, start, names, slots);
    var w := KeyWindow(argv, start);
    var r := ResolvedPrefix(w, names);
    SingleCharacterKey(argv[start + k], names);
    assert w[k] == argv[start + k];
  }

  /** Tokens after the fifth key token play no part. */
  lemma KeysAfterFifthIgnored(argv: seq<string>, argv': seq<string>, start: nat, names: map<string, byte>, slots: seq<byte>)
    requires WellFormedArgs(argv) && WellFormedArgs(argv') && 1 <= start
    requires |slots| == MAX_NR_OF_KEYS
    requires |argv| >= start + MAX_NR_OF_KEYS && |argv'| >= start + MAX_NR_OF_KEYS
    requires argv[start..start + MAX_NR_OF_KEYS] == argv'[start..start + MAX_NR_OF_KEYS]
    ensures ReadKeysSpec(argv, start, names, slots) == ReadKeysSpec(argv', start, names, slots)
  {
    SameWindowSameKeys(argv, argv', start, names, slots, 0);
  }

  /** The loop from its `k`-th token on sees only the first five tokens from `start`. */
  lemma {:induction false} SameWindowSameKeys(argv: seq<string>, argv': seq<string>, start: nat, names: map<string, byte>, slots: seq<byte>, k: nat)
    requires WellFormedArgs(argv) && WellFormedArgs(argv') && 1 <= start
    requires |slots| == MAX_NR_OF_KEYS && k <= MAX_NR_OF_KEYS
    requires |argv| >= start + MAX_NR_OF_KEYS && |argv'| >= start + MAX_NR_OF_KEYS
    requires argv[start..start + MAX_NR_OF_KEYS] == argv'[start..start + MAX_NR_OF_KEYS]
    ensures StoreKeys(argv, start, names, slots, k) == StoreKeys(argv', start, names, slots, k)
    decreases MAX_NR_OF_KEYS - k
  {
    if k < MAX_NR_OF_KEYS {
      assert argv[start + k] == argv[start..start + MAX_NR_OF_KEYS][k] == argv'[start + k];
      match KeyCode(argv[start + k], names)
      case None =>
      case Some(b) => SameWindowSameKeys(argv, argv', start, names, slots[k := b], k + 1);
    }
  }

  /** Starting past the last token is a failure that stores nothing. */
  lemma NoKeysFails(argv: seq<string>, start: nat, names: map<string, byte>, slots: seq<byte>)
    requires WellFormedArgs(argv) && 1 <= start
    requires |slots| == MAX_NR_OF_KEYS
    requires start >= |argv|
    ensures ReadKeysSpec(argv, start, names, slots) == (slots, false)
  {
  }

  /** A first token that is not a key stores nothing. */
  lemma UnknownFirstKeyStoresNothing(argv: seq<string>, start: nat, names: map<string, byte>, slots: seq<byte>)
    requires WellFormedArgs(argv) && 1 <= start < |argv|
    requires |slots| == MAX_NR_OF_KEYS
    requires KeyCode(argv[start], names) == None
    ensures ReadKeysSpec(argv, start, names, slots) == (slots, false)
  {
  }
}
