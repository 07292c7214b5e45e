/**
 The bit vector under the checker's memo table: an array of 64-bit words, bit `p` of the set
 being bit `p % 64` of word `p / 64`.  A word is a natural number below 2^64 and the bitwise
 operators are given by their binary digits.  Every operation is specified by the set of
 positions that the words stand for.
 */
module Bitset {

  type Word = w: nat | w < Pow2(64)

  // ----- binary digits

  function Pow2(k: nat): (r: nat)
    ensures r > 0
  {
    if k == 0 then 1 else 2 * Pow2(k - 1)
  }

  predicate Bit(w: nat, k: nat)
  {
    if k == 0 then w % 2 == 1 else Bit(w / 2, k - 1)
  }

  /** Go's `a | b`. */
  function Or(a: nat, b: nat): nat
    decreases a + b
  {
    if a + b == 0 then 0
    else (if a % 2 == 1 || b % 2 == 1 then 1 else 0) + 2 * Or(a / 2, b / 2)
  }

  /** Go's `a &^ b`. */
  function AndNot(a: nat, b: nat): nat
  {
    if a == 0 then 0
    else (if a % 2 == 1 && b % 2 == 0 then 1 else 0) + 2 * AndNot(a / 2, b / 2)
  }

  /** Go's `a ^ b`. */
  function Xor(a: nat, b: nat): nat
    decreases a + b
  {
    if a + b == 0 then 0
    else (if a % 2 != b % 2 then 1 else 0) + 2 * Xor(a / 2, b / 2)
  }

  lemma {:induction false} PowBit(m: nat, k: nat)
    ensures Bit(Pow2(m), k) <==> k == m
  {
    if m == 0 {
      if k > 0 {
        ZeroBit(k - 1);
      }
    } else if k > 0 {
      PowBit(m - 1, k - 1);
    }
  }

  lemma {:induction false} ZeroBit(k: nat)
    ensures !Bit(0, k)
  {
    if k > 0 {
      ZeroBit(k - 1);
    }
  }

  lemma {:induction false} OrBit(a: nat, b: nat, k: nat)
    ensures Bit(Or(a, b), k) <==> Bit(a, k) || Bit(b, k)
  {
    if a + b == 0 {
      ZeroBit(k);
    } else if k > 0 {
      OrBit(a / 2, b / 2, k - 1);
    }
  }

  lemma {:induction false} AndNotBit(a: nat, b: nat, k: nat)
    ensures Bit(AndNot(a, b), k) <==> Bit(a, k) && !Bit(b, k)
  {
    if a == 0 {
      ZeroBit(k);
    } else if k > 0 {
      AndNotBit(a / 2, b / 2, k - 1);
    }
  }

  lemma {:induction false} OrBound(a: nat, b: nat, n: nat)
    requires a < Pow2(n) && b < Pow2(n)
    ensures Or(a, b) < Pow2(n)
  {
    if n > 0 && a + b > 0 {
      OrBound(a / 2, b / 2, n - 1);
    }
  }

  lemma {:induction false} XorBound(a: nat, b: nat, n: nat)
    requires a < Pow2(n) && b < Pow2(n)
    ensures Xor(a, b) < Pow2(n)
  {
    if n > 0 && a + b > 0 {
      XorBound(a / 2, b / 2, n - 1);
    }
  }

  lemma {:induction false} AndNotBound(a: nat, b: nat)
    ensures AndNot(a, b) <= a
  {
    if a > 0 {
      AndNotBound(a / 2, b / 2);
    }
  }

  lemma {:induction false} PowBound(m: nat, n: nat)
    requires m < n
    ensures Pow2(m) < Pow2(n)
  {
    if m == 0 {
      if n > 1 {
        PowBound(0, n - 1);
      }
    } else {
      PowBound(m - 1, n - 1);
    }
  }

  /** A word is determined by its binary digits. */
  lemma {:induction false} DigitsDetermine(a: nat, b: nat, n: nat)
    requires a < Pow2(n) && b < Pow2(n)
    requires forall k: nat :: k < n ==> (Bit(a, k) <==> Bit(b, k))
    ensures a == b
  {
    if n > 0 {
      forall k: nat | k < n - 1 ensures Bit(a / 2, k) <==> Bit(b / 2, k) {
        assert Bit(a, k + 1) <==> Bit(b, k + 1);
      }
      DigitsDetermine(a / 2, b / 2, n - 1);
      assert Bit(a, 0) <==> Bit(b, 0);
    }
  }

  // ----- words

  /** `word | (1 << minor)`. */
  function OrMask(w: Word, minor: nat): Word
    requires minor < 64
  {
    PowBound(minor, 64);
    OrBound(w, Pow2(minor), 64);
    Or(w, Pow2(minor))
  }

  /** `word &^ (1 << minor)`. */
  function AndNotMask(w: Word, minor: nat): Word
    requires minor < 64
  {
    AndNotBound(w, Pow2(minor));
    AndNot(w, Pow2(minor))
  }

  function XorWord(a: Word, b: Word): Word
  {
    XorBound(a, b, 64);
    Xor(a, b)
  }

  // ----- whole vectors

  /** The positions a bit vector stands for. */
  ghost function Positions(words: seq<Word>): set<nat>
  {
    set p: nat | p < 64 * |words| && Bit(words[p / 64], p % 64)
  }

  function Chunks(bits: nat): nat
  {
    bits / 64 + if bits % 64 != 0 then 1 else 0
  }

  /** `b.set(pos)` on values. */
  function WithBit(words: seq<Word>, pos: nat): seq<Word>
    requires pos < 64 * |words|
  {
    words[pos / 64 := OrMask(words[pos / 64], pos % 64)]
  }

  /** `b.clear(pos)` on values. */
  function WithoutBit(words: seq<Word>, pos: nat): seq<Word>
    requires pos < 64 * |words|
  {
    words[pos / 64 := AndNotMask(words[pos / 64], pos % 64)]
  }

  lemma WithBitPositions(words: seq<Word>, pos: nat)
    requires pos < 64 * |words|
    ensures Positions(WithBit(words, pos)) == Positions(words) + {pos}
  {
    var r := WithBit(words, pos);
    forall p: nat | p < 64 * |words|
      ensures Bit(r[p / 64], p % 64) <==> p == pos || Bit(words[p / 64], p % 64)
    {
      OrBit(words[pos / 64], Pow2(pos % 64), p % 64);
      PowBit(pos % 64, p % 64);
    }
  }

  lemma WithoutBitPositions(words: seq<Word>, pos: nat)
    requires pos < 64 * |words|
    ensures Positions(WithoutBit(words, pos)) == Positions(words) - {pos}
  {
    var r := WithoutBit(words, pos);
    forall p: nat | p < 64 * |words|
      ensures Bit(r[p / 64], p % 64) <==> p != pos && Bit(words[p / 64], p % 64)
    {
      AndNotBit(words[pos / 64], Pow2(pos % 64), p % 64);
      PowBit(pos % 64, p % 64);
    }
  }

  /** Two bit vectors of one length are the same words exactly when they are the same set. */
  lemma SameWordsIffSamePositions(a: seq<Word>, b: seq<Word>)
    requires |a| == |b|
    ensures a == b <==> Positions(a) == Positions(b)
  {
    if Positions(a) == Positions(b) {
      forall i | 0 <= i < |a| ensures a[i] == b[i] {
        forall k: nat | k < 64 ensures Bit(a[i], k) <==> Bit(b[i], k) {
          var p: nat := 64 * i + k;
          assert p / 64 == i && p % 64 == k;
          assert p in Positions(a) <==> p in Positions(b);
        }
        DigitsDetermine(a[i], b[i], 64);
      }
    }
  }

  // ----- the hash

  /** `bits.OnesCount64`. */
  function Ones(w: nat): nat
  {
    if w == 0 then 0 else w % 2 + Ones(w / 2)
  }

  function OnesCount(words: seq<Word>): nat
  {
    if words == [] then 0 else OnesCount(words[..|words| - 1]) + Ones(words[|words| - 1])
  }

  /** The ones among the lowest `n` digits. */
  ghost function OnesBelow(w: nat, n: nat): nat
  {
    if n == 0 then 0 else OnesBelow(w, n - 1) + if Bit(w, n - 1) then 1 else 0
  }

  lemma {:induction false} OnesBelowHalf(w: nat, n: nat)
    requires n > 0
    ensures OnesBelow(w, n) == w % 2 + OnesBelow(w / 2, n - 1)
  {
    if n > 1 {
      OnesBelowHalf(w, n - 1);
    }
  }

  lemma {:induction false} OnesAreBelow(w: nat, n: nat)
    requires w < Pow2(n)
    ensures OnesBelow(w, n) == Ones(w)
  {
    if n > 0 {
      OnesBelowHalf(w, n);
      OnesAreBelow(w / 2, n - 1);
    }
  }

  ghost function PositionsBelow(words: seq<Word>, m: nat): set<nat>
    requires m <= 64 * |words|
  {
    set p: nat | p < m && Bit(words[p / 64], p % 64)
  }

  lemma NextPosition(words: seq<Word>, p: nat)
    requires p < 64 * |words|
    ensures PositionsBelow(words, p + 1) == PositionsBelow(words, p) + if Bit(words[p / 64], p % 64) then {p} else {}
    ensures p !in PositionsBelow(words, p)
  {
    hide Bit;
  }

  lemma DigitAt(i: nat, k: nat)
    requires k < 64
    ensures (64 * i + k) / 64 == i && (64 * i + k) % 64 == k
  {}

  lemma CountNext(words: seq<Word>, i: nat, k: nat)
    requires i < |words| && k < 64
    ensures OnesBelow(words[i], 0) == 0
    ensures OnesBelow(words[i], k + 1) == OnesBelow(words[i], k) + if Bit(words[i], k) then 1 else 0
    ensures OnesCount(words[..i + 1]) == OnesCount(words[..i]) + Ones(words[i]) && OnesCount(words[..0]) == 0
    ensures PositionsBelow(words, 0) == {}
  {
    assert words[..i + 1][..i] == words[..i];
  }

  lemma {:induction false} PositionsCount(words: seq<Word>, i: nat, k: nat)
    requires i < |words| && k <= 64
    ensures |PositionsBelow(words, 64 * i + k)| == OnesCount(words[..i]) + OnesBelow(words[i], k)
    decreases i, k
  {
    hide *;
    if k > 0 {
      PositionsCount(words, i, k - 1);
      DigitAt(i, k - 1);
      NextPosition(words, 64 * i + (k - 1));
      CountNext(words, i, k - 1);
    } else if i > 0 {
      PositionsCount(words, i - 1, 64);
      OnesAreBelow(words[i - 1], 64);
      CountNext(words, i - 1, 0);
      CountNext(words, i, 0);
      assert 64 * i + k == 64 * (i - 1) + 64;
    } else {
      CountNext(words, 0, 0);
    }
  }

  /** The number of ones is the size of the set. */
  lemma OnesCountIsSize(words: seq<Word>)
    ensures OnesCount(words) == |Positions(words)|
  {
    if words == [] {
      assert Positions(words) == {};
    } else {
      var n := |words| - 1;
      PositionsCount(words, n, 64);
      OnesAreBelow(words[n], 64);
      assert Positions(words) == PositionsBelow(words, 64 * n + 64);
    }
  }

  function XorWords(start: Word, words: seq<Word>): Word
  {
    if words == [] then start else XorWord(XorWords(start, words[..|words| - 1]), words[|words| - 1])
  }

  /** The value `hash` computes; the conversion to `uint64` truncates. */
  function Hash(words: seq<Word>): Word
  {
    XorWords(OnesCount(words) % Pow2(64), words)
  }

  // ----- the operations of bitset.go

  method NewBitset(bits: nat) returns (b: array<Word>)
    ensures fresh(b) && b.Length == Chunks(bits) && bits <= 64 * b.Length
    ensures Positions(b[..]) == {}
  {
    var extra := 0;
    if bits % 64 != 0 {
      extra := 1;
    }
    b := new Word[bits / 64 + extra](_ => 0);
    forall m: nat ensures !Bit(0, m) {
      ZeroBit(m);
    }
  }

  method Clone(b: array<Word>) returns (r: array<Word>)
    ensures fresh(r) && r[..] == b[..]
  {
    r := new Word[b.Length](i requires 0 <= i < b.Length reads b => b[i]);
  }

  method Set(b: array<Word>, pos: nat)
    requires pos < 64 * b.Length
    modifies b
    ensures b[..] == WithBit(old(b[..]), pos)
    ensures Positions(b[..]) == Positions(old(b[..])) + {pos}
  {
    WithBitPositions(b[..], pos);
    b[pos / 64] := OrMask(b[pos / 64], pos % 64);
    assert b[..] == WithBit(old(b[..]), pos);
  }

  method Clear(b: array<Word>, pos: nat)
    requires pos < 64 * b.Length
    modifies b
    ensures b[..] == WithoutBit(old(b[..]), pos)
    ensures Positions(b[..]) == Positions(old(b[..])) - {pos}
  {
    WithoutBitPositions(b[..], pos);
    b[pos / 64] := AndNotMask(b[pos / 64], pos % 64);
    assert b[..] == WithoutBit(old(b[..]), pos);
  }

  method Get(b: array<Word>, pos: nat) returns (r: bool)
    requires pos < 64 * b.Length
    ensures r <==> pos in Positions(b[..])
  {
    r := Bit(b[pos / 64], pos % 64);
  }

  method Popcnt(words: seq<Word>) returns (total: nat)
    ensures total == OnesCount(words) == |Positions(words)|
  {
    OnesCountIsSize(words);
    hide Positions;
    total := 0;
    for i := 0 to |words|
      invariant total == OnesCount(words[..i])
    {
      assert words[..i + 1][..i] == words[..i];
      total := total + Ones(words[i]);
    }
    assert words[..|words|] == words;
  }

  method HashOf(words: seq<Word>) returns (h: Word)
    ensures h == Hash(words)
  {
    var count := Popcnt(words);
    h := count % Pow2(64);
    ghost var start := h;
    for i := 0 to |words|
      invariant h == XorWords(start, words[..i])
    {
      assert words[..i + 1][..i] == words[..i];
      h := XorWord(h, words[i]);
    }
    assert words[..|words|] == words;
  }

  method Equals(a: seq<Word>, b: seq<Word>) returns (r: bool)
    ensures r <==> a == b
    ensures |a| == |b| ==> (r <==> Positions(a) == Positions(b))
  {
    if |a| == |b| {
      SameWordsIffSamePositions(a, b);
    }
    if |a| != |b| {
      return false;
    }
    for i := 0 to |a|
      invariant a[..i] == b[..i]
    {
      if a[i] != b[i] {
        return false;
      }
    }
    return true;
  }
}
