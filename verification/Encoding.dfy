/** Byte layouts: left-padded 32-byte words and the identifiers hashed from them. */
module Encoding {
  import opened Primitives

  /** Big-endian bytes of `n`, `width` of them; higher digits are dropped. */
  function BigEndian(n: nat, width: nat): (s: seq<Byte>)
    ensures |s| == width
  {
    if width == 0 then [] else BigEndian(n / 256, width - 1) + [n % 256]
  }

  function Power256(width: nat): nat {
    if width == 0 then 1 else 256 * Power256(width - 1)
  }

  /** The number a big-endian byte string denotes. */
  function Value(s: seq<Byte>): nat {
    if s == [] then 0 else 256 * Value(s[..|s| - 1]) + s[|s| - 1]
  }

  lemma {:induction false} ValueOfBigEndian(n: nat, width: nat)
    requires n < Power256(width)
    ensures Value(BigEndian(n, width)) == n
  {
    if width != 0 {
      ValueOfBigEndian(n / 256, width - 1);
      var s := BigEndian(n, width);
      assert s[..|s| - 1] == BigEndian(n / 256, width - 1);
    }
  }

  lemma {:induction false} ValueBelowPower(s: seq<Byte>)
    ensures Value(s) < Power256(|s|)
  {
    if s != [] {
      ValueBelowPower(s[..|s| - 1]);
    }
  }

  /** Lexicographic order on byte strings, as Rust compares arrays and slices. */
  predicate LexLess(a: seq<Byte>, b: seq<Byte>) {
    if a == [] then b != []
    else b != [] && (a[0] < b[0] || (a[0] == b[0] && LexLess(a[1..], b[1..])))
  }

  lemma {:induction false} ValueFromFront(s: seq<Byte>)
    requires s != []
    ensures Value(s) == s[0] * Power256(|s| - 1) + Value(s[1..])
  {
    if |s| > 1 {
      var front := s[..|s| - 1];
      ValueFromFront(front);
      assert front[1..] == s[1..][..|s| - 2];
      assert Value(s[1..]) == 256 * Value(front[1..]) + s[|s| - 1];
      assert Power256(|s| - 1) == 256 * Power256(|s| - 2);
      assert 256 * (s[0] * Power256(|s| - 2)) == s[0] * Power256(|s| - 1);
    } else {
      assert s[..0] == [] && s[1..] == [];
    }
  }

  lemma LeadingDigitDecides(x: nat, y: nat, p: nat, u: nat, v: nat)
    requires x < y && u < p
    ensures x * p + u < y * p + v
  {
    assert (x + 1) * p <= y * p;
  }

  /**
   * For equal lengths the byte-wise order is the numeric order, so comparing
   * two 32-byte digests, or a signature's s with half the curve order, is a
   * comparison of numbers.
   */
  lemma {:induction false} LexIsNumeric(a: seq<Byte>, b: seq<Byte>)
    requires |a| == |b|
    ensures LexLess(a, b) <==> Value(a) < Value(b)
  {
    if a != [] {
      LexIsNumeric(a[1..], b[1..]);
      ValueFromFront(a);
      ValueFromFront(b);
      ValueBelowPower(a[1..]);
      ValueBelowPower(b[1..]);
      var p := Power256(|a| - 1);
      if a[0] < b[0] {
        LeadingDigitDecides(a[0], b[0], p, Value(a[1..]), Value(b[1..]));
      } else if b[0] < a[0] {
        LeadingDigitDecides(b[0], a[0], p, Value(b[1..]), Value(a[1..]));
      }
    }
  }

  /** abi.encode of static 32-byte fields: each left-padded, one after the other. */
  function AbiWords(fields: seq<Word>): (s: seq<Byte>)
    ensures |s| == 32 * |fields|
  {
    if fields == [] then [] else BigEndian(fields[0], 32) + AbiWords(fields[1..])
  }

  lemma WordWidth()
    ensures Power256(20) == 0x1_0000_0000_0000_0000_0000_0000_0000_0000_0000_0000
    ensures Power256(32) == WORD_MAX + 1
  {
    assert Power256(8) == 0x1_0000_0000_0000_0000;
    assert Power256(16) == 0x1_0000_0000_0000_0000_0000_0000_0000_0000;
    assert Power256(20) == 0x1_0000_0000_0000_0000_0000_0000_0000_0000_0000_0000;
    assert Power256(24) == 0x1_0000_0000_0000_0000_0000_0000_0000_0000_0000_0000_0000_0000;
  }

  /** Distinct field lists of one length never share an encoding. */
  lemma {:induction false} AbiWordsInjective(a: seq<Word>, b: seq<Word>)
    requires |a| == |b|
    requires AbiWords(a) == AbiWords(b)
    ensures a == b
  {
    if a != [] {
      WordWidth();
      ValueOfBigEndian(a[0], 32);
      ValueOfBigEndian(b[0], 32);
      assert AbiWords(a)[..32] == BigEndian(a[0], 32) && AbiWords(b)[..32] == BigEndian(b[0], 32);
      assert AbiWords(a)[32..] == AbiWords(a[1..]) && AbiWords(b)[32..] == AbiWords(b[1..]);
      AbiWordsInjective(a[1..], b[1..]);
    }
  }

  function Zeros(n: nat): (s: seq<Byte>)
    ensures |s| == n
  {
    if n == 0 then [] else [0] + Zeros(n - 1)
  }

  /** A field written as zero padding and its own bytes is the same 32-byte word. */
  lemma {:induction false} PaddedIsWord(n: nat, width: nat, pad: nat)
    requires n < Power256(width)
    ensures Zeros(pad) + BigEndian(n, width) == BigEndian(n, pad + width)
  {
    if width == 0 {
      ZeroBytes(pad);
      assert Zeros(pad) + BigEndian(n, 0) == Zeros(pad);
    } else {
      PaddedIsWord(n / 256, width - 1, pad);
      assert Zeros(pad) + BigEndian(n, width)
          == Zeros(pad) + BigEndian(n / 256, width - 1) + [n % 256];
    }
  }

  lemma {:induction false} ZeroBytes(width: nat)
    ensures BigEndian(0, width) == Zeros(width)
  {
    if width != 0 {
      ZeroBytes(width - 1);
      ZerosFromBack(width);
    }
  }

  lemma {:induction false} ZerosFromBack(n: nat)
    requires n > 0
    ensures Zeros(n) == Zeros(n - 1) + [0]
  {
    if n > 1 {
      ZerosFromBack(n - 1);
    }
  }

  /** Two inputs that keccak256 does not tell apart. */
  ghost predicate Collides(a: seq<Byte>, b: seq<Byte>) {
    a != b && KECCAK256(a) == KECCAK256(b)
  }

  function LockFields(
    sender: Address, recipient: Address, token: Address, amount: Word, hashlock: Word, timelock: Word
  ): seq<Word> {
    [sender, recipient, token, amount, hashlock, timelock]
  }

  function ContractId(
    sender: Address, recipient: Address, token: Address, amount: Word, hashlock: Word, timelock: Word
  ): Word {
    KECCAK256(AbiWords(LockFields(sender, recipient, token, amount, hashlock, timelock)))
  }

  /** Unless keccak256 collides on these two inputs, one id means one lock. */
  lemma ContractIdBindsEveryField(
    s: Address, r: Address, k: Address, a: Word, h: Word, t: Word,
    s': Address, r': Address, k': Address, a': Word, h': Word, t': Word)
    requires !Collides(AbiWords(LockFields(s, r, k, a, h, t)), AbiWords(LockFields(s', r', k', a', h', t')))
    requires ContractId(s, r, k, a, h, t) == ContractId(s', r', k', a', h', t')
    ensures s == s' && r == r' && k == k' && a == a' && h == h' && t == t'
  {
    var x, y := LockFields(s, r, k, a, h, t), LockFields(s', r', k', a', h', t');
    AbiWordsInjective(x, y);
    assert x[0] == y[0] && x[1] == y[1] && x[2] == y[2] && x[3] == y[3] && x[4] == y[4] && x[5] == y[5];
  }

  // -------- where each field stands --------

  lemma {:induction false} AbiWordsAt(fields: seq<Word>, k: nat)
    requires k < |fields|
    ensures AbiWords(fields)[32 * k..32 * (k + 1)] == BigEndian(fields[k], 32)
  {
    var bytes := AbiWords(fields);
    if k > 0 {
      AbiWordsAt(fields[1..], k - 1);
      assert bytes[32..] == AbiWords(fields[1..]);
      assert bytes[32 * k..32 * (k + 1)] == bytes[32..][32 * (k - 1)..32 * k];
    }
  }

  predicate WordStandsAt(bytes: seq<Byte>, at: nat, value: Word) {
    at + 32 <= |bytes| && bytes[at..at + 32] == BigEndian(value, 32)
  }

  /** A lock's id hashes its six fields in the order of the contract's event and storage. */
  lemma LockLayout(sender: Address, recipient: Address, token: Address, amount: Word, hashlock: Word, timelock: Word)
    ensures var b := AbiWords(LockFields(sender, recipient, token, amount, hashlock, timelock));
      && |b| == 192 && ContractId(sender, recipient, token, amount, hashlock, timelock) == KECCAK256(b)
      && WordStandsAt(b, 0, sender) && WordStandsAt(b, 32, recipient) && WordStandsAt(b, 64, token)
      && WordStandsAt(b, 96, amount) && WordStandsAt(b, 128, hashlock) && WordStandsAt(b, 160, timelock)
  {
    var f := LockFields(sender, recipient, token, amount, hashlock, timelock);
    forall k: nat | k < 6 ensures WordStandsAt(AbiWords(f), 32 * k, f[k]) {
      AbiWordsAt(f, k);
    }
    assert WordStandsAt(AbiWords(f), 32 * 0, f[0]) && WordStandsAt(AbiWords(f), 32 * 1, f[1]);
    assert WordStandsAt(AbiWords(f), 32 * 2, f[2]) && WordStandsAt(AbiWords(f), 32 * 3, f[3]);
    assert WordStandsAt(AbiWords(f), 32 * 4, f[4]) && WordStandsAt(AbiWords(f), 32 * 5, f[5]);
  }
}
