/**
  Two workers that mark chunks in the same bitmap byte. Each of them asks for a chunk that it sees
  missing, later reads the byte, and later still writes it back with its bit set; the other one may
  do anything in between, so marks get lost. This module has a rank of the byte that no step raises and
  every write lowers: two writers can set each other back only so often.
 */
module TwoWriters {
  import opened Machine

  /** A worker as far as one byte is concerned; `b` are the marks of the byte when it was read. */
  datatype Writer = Idle | Asked(c: nat) | Holding(c: nat, b: set<nat>)

  const BITS: set<nat> := set k: nat | k < 8

  predicate Fits(w: Writer) {
    match w
    case Idle => true
    case Asked(c) => c in BITS
    case Holding(c, b) => c in BITS && b <= BITS
  }

  /** What it will write. */
  function Promise(w: Writer): set<nat>
    requires w.Holding?
  {
    w.b + {w.c}
  }

  /** The fewest marks the byte has or will have by a write that is already prepared. */
  function Level(m: set<nat>, x: Writer, y: Writer): nat {
    var a := if x.Holding? then Min(|m|, |Promise(x)|) else |m|;
    if y.Holding? then Min(a, |Promise(y)|) else a
  }

  /** Asked for a chunk that is marked by now. */
  predicate Late(m: set<nat>, w: Writer) {
    w.Asked? && w.c in m
  }

  predicate Low(w: Writer, level: nat) {
    w.Holding? && |Promise(w)| == level
  }

  /** `x` is the one that keeps the byte at its level: asked late, or about to write a set that low. */
  function Trouble(m: set<nat>, level: nat, x: Writer, y: Writer): nat
    requires Late(m, x) || Low(x, level)
  {
    if Late(m, x) then
      if Late(m, y) then 6 else if Low(y, level) then 5 else if y.Holding? && !(m <= Promise(y)) then 4 else 2
    else
      if Late(m, y) then 5 else if Low(y, level) then 4
      else if Promise(x) <= m && (y.Holding? ==> Promise(x) <= Promise(y)) then 1 else 3
  }

  /** How far the two are from a byte whose next write has more marks. */
  function Stage(m: set<nat>, x: Writer, y: Writer): nat {
    var level := Level(m, x, y);
    if Late(m, x) || Low(x, level) then Trouble(m, level, x, y)
    else if Late(m, y) || Low(y, level) then Trouble(m, level, y, x)
    else 0
  }

  function Weight(m: set<nat>, w: Writer): int {
    if w.Holding? then 2 * (8 - |Promise(w)|) + 1 else 2 * (8 - |m|)
  }

  predicate Ok(m: set<nat>, x: Writer, y: Writer) {
    m <= BITS && Fits(x) && Fits(y)
  }

  lemma {:induction false} FewBits(s: set<nat>, n: nat)
    requires forall k :: k in s ==> k < n
    ensures |s| <= n
  {
    if n > 0 {
      FewBits(s - {n - 1}, n - 1);
      assert |s| <= |s - {n - 1}| + 1;
    } else {
      assert s == {};
    }
  }

  lemma Sizes(m: set<nat>, x: Writer, y: Writer)
    requires Ok(m, x, y)
    ensures |m| <= 8 && (x.Holding? ==> |Promise(x)| <= 8) && (y.Holding? ==> |Promise(y)| <= 8)
    ensures 0 <= Weight(m, x) <= 17 && 0 <= Weight(m, y) <= 17
  {
    FewBits(m, 8);
    if x.Holding? {
      FewBits(Promise(x), 8);
    }
    if y.Holding? {
      FewBits(Promise(y), 8);
    }
  }

  function Rank(m: set<nat>, x: Writer, y: Writer): (r: nat)
    requires Ok(m, x, y)
    ensures Level(m, x, y) <= 8 && 1000 * (8 - Level(m, x, y)) <= r < 1000 * (9 - Level(m, x, y))
  {
    Sizes(m, x, y);
    1000 * (8 - Level(m, x, y)) + 100 * Stage(m, x, y) + Weight(m, x) + Weight(m, y)
  }

  /** The rank as long as some mark is missing from the byte or from what will be written. */
  function Main(m: set<nat>, x: Writer, y: Writer): nat
    requires Ok(m, x, y)
  {
    if Level(m, x, y) == 8 then 0 else Rank(m, x, y)
  }

  lemma Symmetric(m: set<nat>, x: Writer, y: Writer)
    requires Ok(m, x, y)
    ensures Rank(m, x, y) == Rank(m, y, x) && Main(m, x, y) == Main(m, y, x)
  {
  }

  lemma Subset(a: set<nat>, b: set<nat>)
    requires a <= b
    ensures |a| <= |b| && (|a| == |b| ==> a == b)
  {
    var rest := b - a;
    assert b == a + rest && |b| == |a| + |rest|;
    if |a| == |b| {
      assert rest == {};
    }
  }

  /** Asking for a missing chunk does not raise the rank. */
  lemma AskRank(m: set<nat>, x: Writer, y: Writer, c: nat)
    requires Ok(m, x, y) && x.Idle? && c in BITS && c !in m
    ensures Rank(m, Asked(c), y) == Rank(m, x, y)
  {
  }

  /** Neither does giving up. */
  lemma DropRank(m: set<nat>, x: Writer, y: Writer)
    requires Ok(m, x, y) && x.Asked?
    ensures Rank(m, Idle, y) <= Rank(m, x, y)
  {
    Sizes(m, x, y);
  }

  /** Reading the byte lowers the rank. */
  lemma ReadRank(m: set<nat>, x: Writer, y: Writer)
    requires Ok(m, x, y) && x.Asked?
    ensures Rank(m, Holding(x.c, m), y) < Rank(m, x, y)
  {
    var x' := Holding(x.c, m);
    Sizes(m, x, y);
    Sizes(m, x', y);
    Subset(m, Promise(x'));
    assert x.c in m ==> Promise(x') == m;
    assert Level(m, x', y) == Level(m, x, y);
  }

  /** And so does writing it back, whatever marks get lost. */
  lemma WriteRank(m: set<nat>, x: Writer, y: Writer)
    requires Ok(m, x, y) && x.Holding?
    ensures Rank(Promise(x), Idle, y) < Rank(m, x, y)
  {
    var m' := Promise(x);
    Sizes(m, x, y);
    Sizes(m', Idle, y);
    if y.Holding? {
      if m' <= Promise(y) {
        Subset(m', Promise(y));
      }
    }
    if m' <= m {
      Subset(m', m);
    }
  }

  /** A lower rank is a lower main rank too, as long as the main rank is not 0. */
  lemma MainFollows(m: set<nat>, x: Writer, y: Writer, m': set<nat>, x': Writer, y': Writer)
    requires Ok(m, x, y) && Ok(m', x', y') && Rank(m', x', y') <= Rank(m, x, y)
    ensures Main(m', x', y') <= Main(m, x, y)
    ensures Level(m, x, y) < 8 && Rank(m', x', y') < Rank(m, x, y) ==> Main(m', x', y') < Main(m, x, y)
  {
  }

  lemma MissingIsLow(m: set<nat>, x: Writer, y: Writer)
    requires Ok(m, x, y)
    ensures m != BITS ==> Level(m, x, y) < 8
  {
    if m != BITS {
      var k :| k in BITS && k !in m;
      FewBits(m + {k}, 8);
    }
  }

  lemma EightBits()
    ensures |BITS| == 8
  {
    assert BITS == {0, 1, 2, 3, 4, 5, 6, 7};
  }
}
