/**
 Sets of operation numbers as arrays of 64-bit words: bits 0 to 63 are in the
 first word, the next 64 in the second, and so on.
 */
module Bitset {
  import opened Collections

  // ---------------------------------------------------------------------
  // One word
  // ---------------------------------------------------------------------

  /** `1 << m` */
  function BitAt(m: bv7): bv64
    requires m < 64
  {
    (1 as bv64) << m
  }

  predicate HasAt(w: bv64, m: bv7) {
    m < 64 && w & BitAt(m) != 0
  }

  lemma OrBit(w: bv64, x: bv7, y: bv7)
    requires x < 64 && y < 64
    ensures ((w | BitAt(x)) & BitAt(y) != 0) <==> y == x || w & BitAt(y) != 0
  {
  }

  lemma AndNotBit(w: bv64, x: bv7, y: bv7)
    requires x < 64 && y < 64
    ensures ((w & !BitAt(x)) & BitAt(y) != 0) <==> y != x && w & BitAt(y) != 0
  {
  }

  /** Sets one bit. */
  method SetBit(w: bv64, x: bv7) returns (r: bv64)
    requires x < 64
    ensures forall y: bv7 :: HasAt(r, y) <==> y == x || HasAt(w, y)
  {
    r := w | BitAt(x);
    forall y: bv7 ensures HasAt(r, y) <==> y == x || HasAt(w, y) {
      if y < 64 { OrBit(w, x, y); }
    }
  }

  /** Clears one bit. */
  method ClearBit(w: bv64, x: bv7) returns (r: bv64)
    requires x < 64
    ensures forall y: bv7 :: HasAt(r, y) <==> y != x && HasAt(w, y)
  {
    r := w & !BitAt(x);
    forall y: bv7 ensures HasAt(r, y) <==> y != x && HasAt(w, y) {
      if y < 64 { AndNotBit(w, x, y); }
    }
  }

  // Two different words differ in a bit, found by halving.

  lemma SomeByte(x: bv64) returns (m: bv7)
    requires x != 0
    ensures m <= 56 && (x >> m) & 0xFF != 0
  {
    m := 0;
    if x & 0xFFFF_FFFF == 0 { m := 32; }
    if (x >> m) & 0xFFFF == 0 { m := m + 16; }
    if (x >> m) & 0xFF == 0 { m := m + 8; }
  }

  lemma SomeBit(x: bv64, k: bv7) returns (m: bv7)
    requires k <= 56 && (x >> k) & 0xFF != 0
    ensures m < 64 && (x >> m) & 1 != 0
  {
    m := k;
    if (x >> m) & 0xF == 0 { m := m + 4; }
    if (x >> m) & 3 == 0 { m := m + 2; }
    if (x >> m) & 1 == 0 { m := m + 1; }
  }

  lemma XorBit(v: bv64, w: bv64, m: bv7)
    requires m < 64 && ((v ^ w) >> m) & 1 != 0
    ensures HasAt(v, m) != HasAt(w, m)
  {
  }

  lemma DifferentBit(v: bv64, w: bv64) returns (m: bv7)
    requires v != w
    ensures m < 64 && HasAt(v, m) != HasAt(w, m)
  {
    var x := v ^ w;
    var k := SomeByte(x);
    m := SomeBit(x, k);
    XorBit(v, w, m);
  }

  /** The place of a position within its word. */
  function Minor(pos: nat): (m: bv7)
    ensures m < 64
  {
    (pos % 64) as bv7
  }

  lemma MinorRoundTrip(a: nat)
    requires a < 64
    ensures (a as bv7) as nat == a
  {
  }

  lemma MinorInjective(a: nat, b: nat)
    ensures Minor(a) == Minor(b) <==> a % 64 == b % 64
  {
    MinorRoundTrip(a % 64);
    MinorRoundTrip(b % 64);
  }

  lemma MinorOf(k: nat, m: bv7)
    requires m < 64
    ensures (64 * k + (m as nat)) / 64 == k && Minor(64 * k + (m as nat)) == m
  {
    var a := m as nat;
    assert (64 * k + a) % 64 == a;
  }

  // ---------------------------------------------------------------------
  // Many words, for any kind of word
  // ---------------------------------------------------------------------

  predicate Contains<W, M>(has: (W, M) -> bool, minor: nat -> M, words: seq<W>, a: nat) {
    a / 64 < |words| && has(words[a / 64], minor(a))
  }

  function Collect<W, M>(has: (W, M) -> bool, minor: nat -> M, words: seq<W>): set<nat> {
    set a | a in Below(64 * |words|) && Contains(has, minor, words, a)
  }

  lemma CollectIff<W, M>(has: (W, M) -> bool, minor: nat -> M, words: seq<W>, a: nat)
    ensures a in Collect(has, minor, words) <==> Contains(has, minor, words, a)
  {
  }

  ghost predicate InjectiveFor<M>(minor: nat -> M, key: int) {
    forall a: nat, b: nat :: minor(a) == minor(b) <==> a % 64 == b % 64
  }

  /** Places within a word are numbered one to one. */
  ghost predicate Injective<M>(minor: nat -> M) {
    forall key {:trigger InjectiveFor(minor, key)} :: InjectiveFor(minor, key)
  }

  lemma CollectPlus<W, M>(has: (W, M) -> bool, minor: nat -> M, words: seq<W>, pos: nat, w: W)
    requires pos < 64 * |words| && Injective(minor)
    requires forall b: nat :: has(w, minor(b)) <==> minor(b) == minor(pos) || has(words[pos / 64], minor(b))
    ensures Collect(has, minor, words[pos / 64 := w]) == Collect(has, minor, words) + {pos}
  {
    assert InjectiveFor(minor, 0);
    var words' := words[pos / 64 := w];
    forall a: nat ensures a in Collect(has, minor, words') <==> a in Collect(has, minor, words) + {pos} {
      CollectIff(has, minor, words, a);
      CollectIff(has, minor, words', a);
    }
  }

  lemma CollectMinus<W, M>(has: (W, M) -> bool, minor: nat -> M, words: seq<W>, pos: nat, w: W)
    requires pos < 64 * |words| && Injective(minor)
    requires forall b: nat :: has(w, minor(b)) <==> minor(b) != minor(pos) && has(words[pos / 64], minor(b))
    ensures Collect(has, minor, words[pos / 64 := w]) == Collect(has, minor, words) - {pos}
  {
    assert InjectiveFor(minor, 0);
    var words' := words[pos / 64 := w];
    forall a: nat ensures a in Collect(has, minor, words') <==> a in Collect(has, minor, words) - {pos} {
      CollectIff(has, minor, words, a);
      CollectIff(has, minor, words', a);
    }
  }

  lemma CollectDiffers<W, M>(has: (W, M) -> bool, minor: nat -> M, v: seq<W>, w: seq<W>, a: nat)
    requires |v| == |w| && a / 64 < |v| && has(v[a / 64], minor(a)) != has(w[a / 64], minor(a))
    ensures Collect(has, minor, v) != Collect(has, minor, w)
  {
    CollectIff(has, minor, v, a);
    CollectIff(has, minor, w, a);
  }

  /** A set and its copy further up have one size. */
  lemma {:induction false} ShiftedSize(s: set<nat>, t: set<nat>, m: nat)
    requires (forall a: nat :: a in t ==> a >= m) && forall a: nat :: a in s <==> a + m in t
    ensures |s| == |t|
    decreases |t|
  {
    if t == {} {
      assert s == {};
    } else {
      var b :| b in t;
      var a: nat := b - m;
      assert a in s;
      ShiftedSize(s - {a}, t - {b}, m);
    }
  }

  lemma CollectBefore<W, M>(has: (W, M) -> bool, minor: nat -> M, words: seq<W>, w: W, a: nat)
    ensures a in Collect(has, minor, words) <==> a in Collect(has, minor, words + [w]) && a < 64 * |words|
  {
    CollectIff(has, minor, words, a);
    CollectIff(has, minor, words + [w], a);
  }

  lemma PlaceShift(a: nat, n: nat)
    ensures (a + 64 * n) / 64 == n + a / 64 && (a + 64 * n) % 64 == a % 64
  {
  }

  lemma MinorShift<M>(minor: nat -> M, a: nat, n: nat)
    requires Injective(minor)
    ensures minor(a + 64 * n) == minor(a)
  {
    assert InjectiveFor(minor, 0);
    PlaceShift(a, n);
  }

  lemma ContainsAfter<W, M>(has: (W, M) -> bool, minor: nat -> M, words: seq<W>, w: W, a: nat, b: nat)
    requires b / 64 == |words| + a / 64 && minor(b) == minor(a)
    ensures Contains(has, minor, [w], a) <==> Contains(has, minor, words + [w], b)
  {
  }

  lemma CollectAt<W, M>(has: (W, M) -> bool, minor: nat -> M, words: seq<W>, w: W, a: nat, b: nat)
    requires Contains(has, minor, [w], a) <==> Contains(has, minor, words + [w], b)
    ensures a in Collect(has, minor, [w]) <==> b in Collect(has, minor, words + [w])
  {
    CollectIff(has, minor, [w], a);
    CollectIff(has, minor, words + [w], b);
  }

  lemma ContainsShift<W, M>(has: (W, M) -> bool, minor: nat -> M, words: seq<W>, w: W, a: nat)
    requires Injective(minor)
    ensures Contains(has, minor, [w], a) <==> Contains(has, minor, words + [w], a + 64 * |words|)
  {
    PlaceShift(a, |words|);
    MinorShift(minor, a, |words|);
    ContainsAfter(has, minor, words, w, a, a + 64 * |words|);
  }

  lemma CollectAfter<W, M>(has: (W, M) -> bool, minor: nat -> M, words: seq<W>, w: W, a: nat)
    requires Injective(minor)
    ensures a in Collect(has, minor, [w]) <==> a + 64 * |words| in Collect(has, minor, words + [w])
  {
    ContainsShift(has, minor, words, w, a);
    CollectAt(has, minor, words, w, a, a + 64 * |words|);
  }

  /** One more word adds as many members as it has alone. */
  lemma CollectSnoc<W, M>(has: (W, M) -> bool, minor: nat -> M, words: seq<W>, w: W)
    requires Injective(minor)
    ensures |Collect(has, minor, words + [w])| == |Collect(has, minor, words)| + |Collect(has, minor, [w])|
  {
    forall a: nat
      ensures a in Collect(has, minor, words) <==> a in Collect(has, minor, words + [w]) && a < 64 * |words|
      ensures a in Collect(has, minor, [w]) <==> a + 64 * |words| in Collect(has, minor, words + [w])
    {
      CollectBefore(has, minor, words, w, a);
      CollectAfter(has, minor, words, w, a);
    }
    SplitSize(Collect(has, minor, words + [w]), Collect(has, minor, words), Collect(has, minor, [w]), 64 * |words|);
  }

  lemma SplitSize(all: set<nat>, low: set<nat>, high: set<nat>, m: nat)
    requires forall a: nat :: a in low <==> a in all && a < m
    requires forall a: nat :: a in high <==> a + m in all
    ensures |all| == |low| + |high|
  {
    assert all == low + (all - low);
    ShiftedSize(high, all - low, m);
  }

  lemma MinorsInjective()
    ensures Injective(Minor)
  {
    forall a: nat, b: nat ensures Minor(a) == Minor(b) <==> a % 64 == b % 64 {
      MinorInjective(a, b);
    }
  }

  /** The set the words stand for. */
  function Elements(words: seq<bv64>): set<nat> {
    Collect(HasAt, Minor, words)
  }

  /** Equal sets of one capacity have equal words. */
  lemma SameElements(v: seq<bv64>, w: seq<bv64>)
    requires |v| == |w| && Elements(v) == Elements(w)
    ensures v == w
  {
    forall k | 0 <= k < |v| ensures v[k] == w[k] {
      if v[k] != w[k] {
        var m := DifferentBit(v[k], w[k]);
        MinorOf(k, m);
        CollectDiffers(HasAt, Minor, v, w, 64 * k + (m as nat));
      }
    }
  }

  // ---------------------------------------------------------------------
  // Hashing
  // ---------------------------------------------------------------------

  /** The number of set bits of a word. */
  function OnesCount(w: bv64): nat {
    |Elements([w])|
  }

  function Popcnt(words: seq<bv64>): nat {
    if words == [] then 0 else Popcnt(words[..|words| - 1]) + OnesCount(words[|words| - 1])
  }

  /** Counting word by word counts the members. */
  lemma {:induction false} PopcntIsSize(words: seq<bv64>)
    ensures Popcnt(words) == |Elements(words)|
  {
    if words == [] {
      assert Elements(words) == {};
    } else {
      var last := |words| - 1;
      PopcntIsSize(words[..last]);
      MinorsInjective();
      assert words[..last] + [words[last]] == words;
      CollectSnoc(HasAt, Minor, words[..last], words[last]);
    }
  }

  function Word(n: nat): bv64 {
    (n % 0x1_0000_0000_0000_0000) as bv64
  }

  function XorAll(words: seq<bv64>, start: bv64): bv64 {
    if words == [] then start else XorAll(words[..|words| - 1], start) ^ words[|words| - 1]
  }

  function Hash(words: seq<bv64>): bv64 {
    XorAll(words, Word(|Elements(words)|))
  }

  /** The hash as a number, to look it up by. */
  function HashKey(words: seq<bv64>): nat {
    Hash(words) as nat
  }

  // ---------------------------------------------------------------------
  // The operations
  // ---------------------------------------------------------------------

  method NewBitset(bits: nat) returns (b: array<bv64>)
    ensures fresh(b) && bits <= 64 * b.Length < bits + 64
    ensures Elements(b[..]) == {}
  {
    var extra := 0;
    if bits % 64 != 0 {
      extra := 1;
    }
    b := new bv64[bits / 64 + extra](_ => 0);
    forall a: nat ensures a !in Elements(b[..]) {
      CollectIff(HasAt, Minor, b[..], a);
    }
  }

  method Clone(b: array<bv64>) returns (c: array<bv64>)
    ensures fresh(c) && c[..] == b[..]
  {
    c := new bv64[b.Length](i requires 0 <= i < b.Length reads b => b[i]);
  }

  method Set(b: array<bv64>, pos: nat)
    requires pos < 64 * b.Length
    modifies b
    ensures Elements(b[..]) == old(Elements(b[..])) + {pos}
  {
    var major, minor := pos / 64, Minor(pos);
    ghost var words := b[..];
    var w := SetBit(b[major], minor);
    MinorsInjective();
    CollectPlus(HasAt, Minor, words, pos, w);
    b[major] := w;
    assert b[..] == words[major := w];
  }

  method Clear(b: array<bv64>, pos: nat)
    requires pos < 64 * b.Length
    modifies b
    ensures Elements(b[..]) == old(Elements(b[..])) - {pos}
  {
    var major, minor := pos / 64, Minor(pos);
    ghost var words := b[..];
    var w := ClearBit(b[major], minor);
    MinorsInjective();
    CollectMinus(HasAt, Minor, words, pos, w);
    b[major] := w;
    assert b[..] == words[major := w];
  }

  method Get(b: array<bv64>, pos: nat) returns (r: bool)
    requires pos < 64 * b.Length
    ensures r <==> pos in Elements(b[..])
  {
    CollectIff(HasAt, Minor, b[..], pos);
    r := HasAt(b[pos / 64], Minor(pos));
  }

  method ComputePopcnt(words: seq<bv64>) returns (total: nat)
    ensures total == |Elements(words)|
  {
    total := 0;
    for i := 0 to |words|
      invariant total == Popcnt(words[..i])
    {
      assert words[..i + 1][..i] == words[..i];
      total := total + OnesCount(words[i]);
    }
    assert words[..|words|] == words;
    PopcntIsSize(words);
  }

  method ComputeHash(words: seq<bv64>) returns (key: nat)
    ensures key == HashKey(words)
  {
    var count := ComputePopcnt(words);
    var hash := Word(count);
    for i := 0 to |words|
      invariant hash == XorAll(words[..i], Word(count))
    {
      assert words[..i + 1][..i] == words[..i];
      hash := hash ^ words[i];
    }
    assert words[..|words|] == words;
    return hash as nat;
  }

  /** Comparing words compares the sets they stand for. */
  method Equals(v: seq<bv64>, w: seq<bv64>) returns (r: bool)
    ensures r <==> v == w
    ensures |v| == |w| ==> (r <==> Elements(v) == Elements(w))
  {
    if |v| == |w| && Elements(v) == Elements(w) { SameElements(v, w); }
    if |v| != |w| {
      return false;
    }
    for i := 0 to |v|
      invariant v[..i] == w[..i]
    {
      if v[i] != w[i] {
        return false;
      }
    }
    return true;
  }
}
