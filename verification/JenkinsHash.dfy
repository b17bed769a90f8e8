/**
 The version of a unit file: a 64-bit one-at-a-time hash of its text.  Every round and the final
 mix can be undone modulo 2^64, so replacing one byte of a text always changes its hash.
 */
module JenkinsHash {

  const RANGE := 0x1_0000_0000_0000_0000

  /** guint64 */
  type Word = x: int | 0 <= x < RANGE

  /** A character of a C string, its terminator excluded; plain char is signed. */
  type Char = c: int | -128 <= c < 128 && c != 0 witness 1

  /** (guint64)key[i]: a negative character wraps around. */
  function Extend(c: Char): Word {
    if c >= 0 then c else c + RANGE
  }

  function Xor(x: nat, y: nat): nat {
    if x == 0 && y == 0 then 0 else (x % 2 + y % 2) % 2 + 2 * Xor(x / 2, y / 2)
  }

  function Pow2(n: nat): nat {
    if n == 0 then 1 else 2 * Pow2(n - 1)
  }

  lemma Pow2At64()
    ensures Pow2(64) == RANGE
  {
    assert Pow2(8) == 0x100;
    assert Pow2(16) == 0x1_0000;
    assert Pow2(24) == 0x100_0000;
    assert Pow2(32) == 0x1_0000_0000;
    assert Pow2(40) == 0x100_0000_0000;
    assert Pow2(48) == 0x1_0000_0000_0000;
    assert Pow2(56) == 0x100_0000_0000_0000;
  }

  lemma {:induction false} XorBelow(x: nat, y: nat, n: nat)
    requires x < Pow2(n) && y < Pow2(n)
    ensures Xor(x, y) < Pow2(n)
  {
    if n > 0 { XorBelow(x / 2, y / 2, n - 1); }
  }

  /** x >> k */
  function Shr(x: nat, k: nat): (r: nat)
    ensures r <= x
    decreases x + k
  {
    if k == 0 then x else Shr(x / 2, k - 1)
  }

  /** x ^ (x >> k) */
  function XorShift(x: Word, k: nat): Word {
    Pow2At64();
    XorBelow(x, Shr(x, k), 64);
    Xor(x, Shr(x, k))
  }

  /** Unsigned 64-bit arithmetic wraps around. */
  function Wrap(n: nat): Word {
    if n < RANGE then n else Wrap(n - RANGE)
  }

  function Add(x: Word, y: Word): Word { Wrap(x + y) }

  /** x << k, for the three shifts of the hash */
  function Shl3(x: Word): Word { Wrap(x * 8) }

  function Shl10(x: Word): Word { Wrap(x * 1024) }

  function Shl15(x: Word): Word { Wrap(x * 32768) }

  // ---- The hash ----

  /** One turn of the loop, after the character has been added. */
  function Mix(h: Word): Word {
    XorShift(Add(h, Shl10(h)), 6)
  }

  function Round(h: Word, c: Char): Word {
    Mix(Add(h, Extend(c)))
  }

  function Finish(h: Word): Word {
    var h' := XorShift(Add(h, Shl3(h)), 11);
    Add(h', Shl15(h'))
  }

  /** The state of the loop after the characters of `text`, started in state `h`. */
  function Rounds(h: Word, text: seq<Char>): Word {
    if text == [] then h else Round(Rounds(h, text[..|text| - 1]), text[|text| - 1])
  }

  function Hash(text: seq<Char>): Word {
    Finish(Rounds(0, text))
  }

  method ComputeHash(key: seq<Char>) returns (hash: Word)
    ensures hash == Hash(key)
  {
    hash := 0;
    var i := 0;
    while i < |key|
      invariant i <= |key| && hash == Rounds(0, key[..i])
    {
      assert key[..i + 1][..i] == key[..i];
      hash := Add(hash, Extend(key[i]));
      hash := Add(hash, Shl10(hash));
      hash := XorShift(hash, 6);
      assert hash == Round(Rounds(0, key[..i]), key[i]);
      i := i + 1;
    }
    assert key[..|key|] == key;
    hash := Add(hash, Shl3(hash));
    hash := XorShift(hash, 11);
    hash := Add(hash, Shl15(hash));
  }

  // ---- Each step is injective ----

  lemma {:induction false} WrapIsMod(n: nat)
    ensures Wrap(n) == n % RANGE
  {
    if n >= RANGE {
      WrapIsMod(n - RANGE);
      assert n == RANGE * ((n - RANGE) / RANGE + 1) + (n - RANGE) % RANGE;
    }
  }

  /** Wrapping a summand first makes no difference. */
  lemma AddWraps(x: nat, y: nat)
    ensures Wrap(x + Wrap(y)) == (x + y) % RANGE
  {
    WrapIsMod(y);
    WrapIsMod(x + Wrap(y));
    var q, q' := y / RANGE, (x + y % RANGE) / RANGE;
    assert x + y == RANGE * (q + q') + (x + y % RANGE) % RANGE;
  }

  /** Odd factors have inverses modulo 2^64: here those of 1025, 9 and 32769. */
  lemma Times1025Injective(x: Word, y: Word)
    requires (x + x * 1024) % RANGE == (y + y * 1024) % RANGE
    ensures x == y
  {
    var q := (x + x * 1024) / RANGE - (y + y * 1024) / RANGE;
    assert 1025 * (x - y) == RANGE * q;
    assert x - y == RANGE * (1151796703138937857 * q - 64 * (x - y));
  }

  lemma Times9Injective(x: Word, y: Word)
    requires (x + x * 8) % RANGE == (y + y * 8) % RANGE
    ensures x == y
  {
    var q := (x + x * 8) / RANGE - (y + y * 8) / RANGE;
    assert 9 * (x - y) == RANGE * q;
    assert x - y == RANGE * (10248191152060862009 * q - 5 * (x - y));
  }

  lemma Times32769Injective(x: Word, y: Word)
    requires (x + x * 32768) % RANGE == (y + y * 32768) % RANGE
    ensures x == y
  {
    var q := (x + x * 32768) / RANGE - (y + y * 32768) / RANGE;
    assert 32769 * (x - y) == RANGE * q;
    assert x - y == RANGE * (1152886321308467201 * q - 2048 * (x - y));
  }

  lemma AddShift10Injective(x: Word, y: Word)
    requires Add(x, Shl10(x)) == Add(y, Shl10(y))
    ensures x == y
  {
    AddWraps(x, x * 1024);
    AddWraps(y, y * 1024);
    Times1025Injective(x, y);
  }

  lemma AddShift3Injective(x: Word, y: Word)
    requires Add(x, Shl3(x)) == Add(y, Shl3(y))
    ensures x == y
  {
    AddWraps(x, x * 8);
    AddWraps(y, y * 8);
    Times9Injective(x, y);
  }

  lemma AddShift15Injective(x: Word, y: Word)
    requires Add(x, Shl15(x)) == Add(y, Shl15(y))
    ensures x == y
  {
    AddWraps(x, x * 32768);
    AddWraps(y, y * 32768);
    Times32769Injective(x, y);
  }

  lemma {:induction false} ShrHalves(x: nat, k: nat)
    ensures Shr(x, k) / 2 == Shr(x / 2, k)
    decreases k
  {
    if k > 0 { ShrHalves(x / 2, k - 1); }
  }

  /** Bit 0 of the shifted word and the higher bits of the word determine the word. */
  lemma LowBit(x: nat, y: nat, s: nat)
    requires x / 2 == y / 2 && Xor(x, s) == Xor(y, s)
    ensures x == y
  {
    assert Xor(x, s) % 2 == (x % 2 + s % 2) % 2 && Xor(y, s) % 2 == (y % 2 + s % 2) % 2;
  }

  lemma HigherBits(x: nat, s: nat)
    ensures Xor(x, s) / 2 == Xor(x / 2, s / 2)
  {
  }

  /** The higher bits determine the shifted word, so the bits can be recovered from the top. */
  lemma {:induction false} XorShiftInjective(x: nat, y: nat, k: nat)
    requires k > 0 && Xor(x, Shr(x, k)) == Xor(y, Shr(y, k))
    ensures x == y
    decreases x + y
  {
    if x != 0 || y != 0 {
      assert x / 2 == y / 2 by {
        ShrHalves(x, k);
        ShrHalves(y, k);
        HigherBits(x, Shr(x, k));
        HigherBits(y, Shr(y, k));
        XorShiftInjective(x / 2, y / 2, k);
      }
      assert Shr(x, k) == Shr(x / 2, k - 1) && Shr(y, k) == Shr(y / 2, k - 1);
      LowBit(x, y, Shr(x, k));
    }
  }

  lemma AddInjective(h: Word, k: Word, x: Word, y: Word)
    ensures Add(h, x) == Add(h, y) ==> x == y
    ensures Add(h, x) == Add(k, x) ==> h == k
  {
    WrapIsMod(h + x);
    WrapIsMod(h + y);
    WrapIsMod(k + x);
  }

  lemma MixInjective(x: Word, y: Word)
    requires Mix(x) == Mix(y)
    ensures x == y
  {
    XorShiftInjective(Add(x, Shl10(x)), Add(y, Shl10(y)), 6);
    AddShift10Injective(x, y);
  }

  lemma FinishInjective(x: Word, y: Word)
    requires Finish(x) == Finish(y)
    ensures x == y
  {
    AddShift15Injective(XorShift(Add(x, Shl3(x)), 11), XorShift(Add(y, Shl3(y)), 11));
    XorShiftInjective(Add(x, Shl3(x)), Add(y, Shl3(y)), 11);
    AddShift3Injective(x, y);
  }

  lemma RoundInjective(h: Word, c: Char, k: Word, d: Char)
    requires h == k || c == d
    ensures Round(h, c) == Round(k, d) <==> h == k && c == d
  {
    if Round(h, c) == Round(k, d) {
      MixInjective(Add(h, Extend(c)), Add(k, Extend(d)));
      AddInjective(h, k, Extend(c), Extend(d));
    }
  }

  // ---- What the hash tells apart ----

  /** Two loop states are told apart by any common continuation. */
  lemma {:induction false} RoundsInjective(h: Word, k: Word, s: seq<Char>)
    requires h != k
    ensures Rounds(h, s) != Rounds(k, s)
  {
    if s != [] {
      var front, c := s[..|s| - 1], s[|s| - 1];
      RoundsInjective(h, k, front);
      RoundInjective(Rounds(h, front), c, Rounds(k, front), c);
    }
  }

  lemma {:induction false} RoundsConcat(h: Word, p: seq<Char>, s: seq<Char>)
    ensures Rounds(h, p + s) == Rounds(Rounds(h, p), s)
  {
    if s == [] {
      assert p + s == p;
    } else {
      assert (p + s)[..|p + s| - 1] == p + s[..|s| - 1];
      RoundsConcat(h, p, s[..|s| - 1]);
    }
  }

  /** A common suffix neither hides nor creates a difference. */
  lemma HashSuffix(p: seq<Char>, q: seq<Char>, s: seq<Char>)
    ensures Hash(p + s) == Hash(q + s) <==> Hash(p) == Hash(q)
  {
    RoundsConcat(0, p, s);
    RoundsConcat(0, q, s);
    if Rounds(0, p) != Rounds(0, q) { RoundsInjective(Rounds(0, p), Rounds(0, q), s); }
    if Hash(p + s) == Hash(q + s) { FinishInjective(Rounds(0, p + s), Rounds(0, q + s)); }
    if Hash(p) == Hash(q) { FinishInjective(Rounds(0, p), Rounds(0, q)); }
  }

  /** Replacing one byte of a text, anywhere, always changes its hash. */
  lemma HashSeesEveryByte(p: seq<Char>, a: Char, b: Char, s: seq<Char>)
    requires a != b
    ensures Hash(p + [a] + s) != Hash(p + [b] + s)
  {
    HashSuffix(p + [a], p + [b], s);
    var h := Rounds(0, p);
    assert (p + [a])[..|p|] == p && (p + [b])[..|p|] == p;
    RoundInjective(h, a, h, b);
    if Hash(p + [a]) == Hash(p + [b]) { FinishInjective(Round(h, a), Round(h, b)); }
  }

  // ---- The numbers of the algorithm ----

  lemma DivUnique(x: nat, n: nat, q: nat, r: nat)
    requires x == n * q + r && r < n
    ensures x / n == q
  {
    var d := x / n - q;
    assert n * d == r - x % n;
  }

  lemma HalfOf(x: nat, n: nat)
    requires n > 0
    ensures x / 2 / n == x / (2 * n)
  {
    var h := x / 2;
    var q, r := h / n, h % n;
    assert h == n * q + r;
    assert x == 2 * n * q + (2 * r + x % 2);
    DivUnique(x, 2 * n, q, 2 * r + x % 2);
  }

  /** A right shift divides. */
  lemma {:induction false} ShrDivides(x: nat, k: nat)
    ensures Pow2(k) > 0 && Shr(x, k) == x / Pow2(k)
    decreases k
  {
    if k > 0 {
      ShrDivides(x / 2, k - 1);
      HalfOf(x, Pow2(k - 1));
    }
  }

  lemma {:induction false} XorZero(x: nat)
    ensures Xor(x, 0) == x
  {
    if x > 0 { XorZero(x / 2); }
  }

  lemma XorBit(x: nat, y: nat)
    ensures Xor(x, y) == (x % 2 + y % 2) % 2 + 2 * Xor(x / 2, y / 2)
  {
  }

  lemma XorsOfOne()
    ensures Xor(1025, 16) == 1041 && Xor(9369, 4) == 9373
  {
    hide Xor;
    XorBit(1025, 16);
    XorBit(512, 8);
    XorBit(256, 4);
    XorBit(128, 2);
    XorBit(64, 1);
    XorZero(32);
    XorBit(9369, 4);
    XorBit(4684, 2);
    XorBit(2342, 1);
    XorZero(1171);
  }

  lemma ShrsOfOne()
    ensures Shr(1025, 6) == 16 && Shr(9369, 11) == 4
  {
  }

  lemma FirstRound()
    ensures Round(0, 1) == 1041
  {
    hide Xor, Shr;
    XorsOfOne();
    ShrsOfOne();
    assert Add(0, Extend(1)) == 1 && Add(1, Shl10(1)) == 1025;
  }

  lemma FinalMix()
    ensures Finish(1041) == 307143837
  {
    hide Xor, Shr;
    XorsOfOne();
    ShrsOfOne();
    assert Add(1041, Shl3(1041)) == 9369;
    assert Add(9373, Shl15(9373)) == 307143837;
  }

  /** A known answer: the shifts are 10 and 6 in a round, and 3, 11 and 15 at the end. */
  lemma HashOfOne()
    ensures Hash([1]) == 307143837
  {
    hide XorShift, Add, Shl3, Shl10, Shl15;
    FirstRound();
    FinalMix();
    assert [1][..0] == [];
    assert Rounds(0, [1]) == Round(0, 1);
  }

  /** A character above 127 is negative: it is subtracted from the state, modulo 2^64. */
  lemma CharactersAreSigned(h: Word, c: Char)
    ensures Add(h, Extend(c)) == (h + c) % RANGE
  {
    WrapIsMod(h + Extend(c));
  }
}
