/**
  Two live messages of one upload: two workers may erase each other's marks again and again, but not for ever.
  Each bitmap byte has the rank of two writers; no step raises the sum of the ranks and every write lowers it.
 */
module TwoMessages {
  import opened Machine
  import opened Sums
  import opened Metadata
  import opened Storage
  import opened Transfer
  import opened Motion
  import opened Bounds
  import W = TwoWriters

  function BitsOf(b: byte): (r: set<nat>)
    ensures r <= W.BITS
  {
    set k: nat | k < 8 && Bit(b, k)
  }

  /**
    With 65536 chunks a search that finds nothing leads to a request for chunk 65535. A search
    that can find nothing any more counts as that request.
   */
  ghost predicate InVain(t: Upload, d: Files, k: Token) {
    NumChunks(|t.content|) == INDEX_LIMIT && k.Serving? && k.w.Seeking? && FullFrom(t, d, k.w.j)
  }

  /** The message as a writer of bitmap byte `j`. */
  ghost function Role(t: Upload, d: Files, k: Option<Token>, j: nat): (r: W.Writer)
    ensures W.Fits(r)
  {
    if k.None? then W.Idle
    else match AimOf(t, k.value)
      case Fetching(i) => if i / 8 == j then W.Asked(i % 8) else W.Idle
      case Stamping(i, b) => if i / 8 == j then W.Holding(i % 8, BitsOf(b)) else W.Idle
      case Aimless => if InVain(t, d, k.value) && j == (INDEX_LIMIT - 1) / 8 then W.Asked(7) else W.Idle
  }

  /** One byte with its two writers. */
  datatype Duel = Duel(m: set<nat>, x: W.Writer, y: W.Writer)

  predicate Ok(u: Duel) {
    W.Ok(u.m, u.x, u.y)
  }

  ghost function DuelAt(t: Upload, s: State, x: nat, y: nat, j: nat): (u: Duel)
    ensures Ok(u)
  {
    Duel(BitsOf(Cell(s.disk, j)), Role(t, s.disk, At(s, x), j), Role(t, s.disk, At(s, y), j))
  }

  function DuelRank(u: Duel): nat
    requires Ok(u)
  {
    W.Rank(u.m, u.x, u.y)
  }

  function DuelMain(u: Duel): nat
    requires Ok(u)
  {
    W.Main(u.m, u.x, u.y)
  }

  /** `u'` is at most `u`, in both ranks. */
  predicate AtMost(u': Duel, u: Duel)
    requires Ok(u') && Ok(u)
  {
    DuelRank(u') <= DuelRank(u) && DuelMain(u') <= DuelMain(u)
  }

  // ---------------------------------------------------------------- the moves of one writer

  lemma DuelAsk(u: Duel, c: nat)
    requires Ok(u) && u.x.Idle? && c in W.BITS && c !in u.m
    ensures Ok(u.(x := W.Asked(c))) && AtMost(u.(x := W.Asked(c)), u)
  {
    W.AskRank(u.m, u.x, u.y, c);
    W.MainFollows(u.m, u.x, u.y, u.m, W.Asked(c), u.y);
  }

  lemma DuelDrop(u: Duel)
    requires Ok(u) && u.x.Asked?
    ensures AtMost(u.(x := W.Idle), u)
  {
    W.DropRank(u.m, u.x, u.y);
    W.MainFollows(u.m, u.x, u.y, u.m, W.Idle, u.y);
  }

  lemma DuelRead(u: Duel)
    requires Ok(u) && u.x.Asked?
    ensures var u' := u.(x := W.Holding(u.x.c, u.m)); Ok(u') && AtMost(u', u)
  {
    W.ReadRank(u.m, u.x, u.y);
    W.MainFollows(u.m, u.x, u.y, u.m, W.Holding(u.x.c, u.m), u.y);
  }

  /** A write; at the same time the search of the other one may come to see something missing again. */
  lemma DuelWrite(u: Duel, y': W.Writer)
    requires Ok(u) && u.x.Holding? && (y' == u.y || (u.y.Asked? && y'.Idle?))
    ensures var u' := Duel(W.Promise(u.x), W.Idle, y');
      && Ok(u') && AtMost(u', u) && DuelRank(u') < DuelRank(u)
      && (u.m != W.BITS ==> DuelMain(u') < DuelMain(u))
  {
    var m' := W.Promise(u.x);
    W.WriteRank(u.m, u.x, u.y);
    if y' != u.y {
      W.Symmetric(m', W.Idle, u.y);
      W.DropRank(m', u.y, W.Idle);
      W.Symmetric(m', W.Idle, y');
    }
    W.MainFollows(u.m, u.x, u.y, m', W.Idle, y');
    W.MissingIsLow(u.m, u.x, u.y);
  }

  lemma Swapped(u: Duel)
    requires Ok(u)
    ensures DuelRank(Duel(u.m, u.y, u.x)) == DuelRank(u) && DuelMain(Duel(u.m, u.y, u.x)) == DuelMain(u)
  {
    W.Symmetric(u.m, u.x, u.y);
  }

  // ---------------------------------------------------------------- the moves of the messages

  lemma WithBitAdds(b: byte, k: nat)
    requires k < 8
    ensures BitsOf(WithBit(b, k, true)) == BitsOf(b) + {k}
  {
    hide Bit;
  }

  lemma SameFull(t: Upload, d: Files, d': Files, j: nat)
    requires SameCells(d, d')
    ensures FullFrom(t, d, j) <==> FullFrom(t, d', j)
  {
    hide Bit;
    assert forall i: nat :: Cell(d', i / 8) == Cell(d, i / 8) && (Has(d, i) <==> Has(d', i));
    hide Has;
  }

  lemma RoleSame(t: Upload, d: Files, d': Files, k: Option<Token>, j: nat)
    requires SameCells(d, d')
    ensures Role(t, d', k, j) == Role(t, d, k, j)
  {
    hide FullFrom, AimOf;
    if k.Some? && k.value.Serving? && k.value.w.Seeking? {
      SameFull(t, d, d', k.value.w.j);
    }
  }

  /** A step that does not write leaves the role, or asks for something missing, gives up, or reads. */
  predicate RoleMoves(m: set<nat>, r: W.Writer, r': W.Writer) {
    || r' == r
    || (r.Idle? && r'.Asked? && r'.c !in m)
    || (r.Asked? && r'.Idle?)
    || (r.Asked? && r' == W.Holding(r.c, m))
  }

  lemma NoWriteMoves(t: Upload, d: Files, k: Token, d': Files, k': Option<Token>, j: nat)
    requires NumChunks(|t.content|) <= INDEX_LIMIT
    requires Goes(t, d, k, d', k') && Searches(t, d, k, k') && !AimOf(t, k).Stamping?
    ensures RoleMoves(BitsOf(Cell(d, j)), Role(t, d, Some(k), j), Role(t, d', k', j))
  {
    RoleSame(t, d, d', k', j);
    hide FullFrom, Bit, Ahead;
  }

  lemma DuelMoves(u: Duel, u': Duel)
    requires Ok(u) && Ok(u') && u'.m == u.m && u'.y == u.y && RoleMoves(u.m, u.x, u'.x)
    ensures AtMost(u', u)
  {
    hide W.Main, W.Rank;
    if u'.x == u.x {
      assert u' == u;
    } else if u.x.Idle? {
      DuelAsk(u, u'.x.c);
      assert u' == u.(x := W.Asked(u'.x.c));
    } else if u'.x.Idle? {
      DuelDrop(u);
      assert u' == u.(x := W.Idle);
    } else {
      DuelRead(u);
      assert u' == u.(x := W.Holding(u.x.c, u.m));
    }
  }

  /** The message `x` makes a step that does not write. */
  lemma QuietStep(t: Upload, h: HashFunction, s: State, x: nat, y: nat, j: nat)
    requires NumChunks(|t.content|) <= INDEX_LIMIT && x != y && Enabled(t, s, Advance(x)) && Advances(t, h, s, x)
    requires !AimOf(t, s.tokens[x]).Stamping?
    ensures AtMost(DuelAt(t, Moved(t, h, s, x), x, y, j), DuelAt(t, s, x, y, j))
  {
    var s' := Moved(t, h, s, x);
    hide Moved, Role, AimOf;
    assert Goes(t, s.disk, s.tokens[x], s'.disk, At(s', x)) && SameCells(s.disk, s'.disk);
    assert At(s', y) == At(s, y);
    NoWriteMoves(t, s.disk, s.tokens[x], s'.disk, At(s', x), j);
    RoleSame(t, s.disk, s'.disk, At(s, y), j);
    hide Goes, Searches;
    DuelMoves(DuelAt(t, s, x, y, j), DuelAt(t, s', x, y, j));
  }

  /** The write makes the search of `k` one that can find nothing any more. */
  ghost predicate Dooms(t: Upload, d: Files, d': Files, k: Option<Token>) {
    k.Some? && !InVain(t, d, k.value) && InVain(t, d', k.value)
  }

  lemma NotDoomed(t: Upload, d: Files, d': Files, k: Option<Token>, j: nat)
    requires !Dooms(t, d, d', k)
    ensures var r, r' := Role(t, d, k, j), Role(t, d', k, j); r' == r || (r.Asked? && r'.Idle?)
  {
    hide FullFrom, AimOf, BitsOf;
  }

  ghost predicate OnlyCell(d: Files, d': Files, j: nat) {
    forall k: nat :: k != j ==> Cell(d', k) == Cell(d, k)
  }

  lemma AllBits(d: Files, j: nat)
    requires forall i: nat :: 8 * j <= i < 8 * j + 8 ==> Has(d, i)
    ensures BitsOf(Cell(d, j)) == W.BITS
  {
    hide Bit;
    forall k: nat | k < 8
      ensures Bit(Cell(d, j), k)
    {
      var i := 8 * j + k;
      assert Has(d, i) && i / 8 == j && i % 8 == k;
    }
  }

  /** Only a write to a byte that was not full does that, and then the last byte is full. */
  lemma Doomed(t: Upload, d: Files, d': Files, k: Option<Token>, j: nat)
    requires Dooms(t, d, d', k) && OnlyCell(d, d', j)
    ensures BitsOf(Cell(d, j)) != W.BITS && BitsOf(Cell(d', (INDEX_LIMIT - 1) / 8)) == W.BITS
  {
    hide Bit;
    var lo := k.value.w.j;
    var i: nat :| 8 * lo <= i < NumChunks(|t.content|) && !Has(d, i);
    assert Has(d', i);
    assert i / 8 == j && i % 8 !in BitsOf(Cell(d, j));
    forall i: nat | 65528 <= i < 65536
      ensures Has(d', i)
    {
    }
    AllBits(d', 8191);
  }

  lemma DoomedRoles(t: Upload, d: Files, d': Files, k: Option<Token>, j: nat)
    requires Dooms(t, d, d', k)
    ensures Role(t, d, k, j) == W.Idle
    ensures Role(t, d', k, j) == if j == (INDEX_LIMIT - 1) / 8 then W.Asked(7) else W.Idle
  {
    hide FullFrom;
  }

  lemma FullIsZero(u: Duel)
    requires Ok(u) && u.m == W.BITS && !u.x.Holding? && !u.y.Holding?
    ensures DuelMain(u) == 0
  {
    W.EightBits();
  }

  lemma DropOther(u: Duel)
    requires Ok(u) && u.y.Asked?
    ensures AtMost(u.(y := W.Idle), u)
  {
    hide W.Rank, W.Main;
    Swapped(u);
    DuelDrop(Duel(u.m, u.y, u.x));
    Swapped(u.(y := W.Idle));
  }

  lemma BelowFull(u: Duel)
    requires Ok(u) && u.m != W.BITS
    ensures DuelMain(u) > 0
  {
    W.MissingIsLow(u.m, u.x, u.y);
  }

  /** What the write of `x` does to the byte `j`. */
  lemma WriteAtByte(t: Upload, d: Files, d': Files, x: Token, x': Token, j: nat)
    requires Goes(t, d, x, d', Some(x')) && AimOf(t, x).Stamping?
    ensures OnlyCell(d, d', AimOf(t, x).i / 8) && Role(t, d', Some(x'), j) == W.Idle
    ensures var r := Role(t, d, Some(x), j);
      if j == AimOf(t, x).i / 8 then r.Holding? && BitsOf(Cell(d', j)) == W.Promise(r)
      else r.Idle? && Cell(d', j) == Cell(d, j)
  {
    hide FullFrom, Bit;
    WithBitAdds(AimOf(t, x).b, AimOf(t, x).i % 8);
  }

  /** A byte after the write; where it was written the rank is lower. */
  lemma WriteStep(t: Upload, h: HashFunction, s: State, x: nat, y: nat, j: nat)
    requires x != y && Enabled(t, s, Advance(x)) && Advances(t, h, s, x) && AimOf(t, s.tokens[x]).Stamping?
    ensures var s' := Moved(t, h, s, x);
      var u, u', here := DuelAt(t, s, x, y, j), DuelAt(t, s', x, y, j), j == AimOf(t, s.tokens[x]).i / 8;
      if Dooms(t, s.disk, s'.disk, At(s, y)) then DuelMain(u') <= DuelMain(u) && (here ==> DuelMain(u') < DuelMain(u))
      else AtMost(u', u) && (here ==> DuelRank(u') < DuelRank(u))
  {
    var s', i := Moved(t, h, s, x), AimOf(t, s.tokens[x]).i;
    var u, u' := DuelAt(t, s, x, y, j), DuelAt(t, s', x, y, j);
    assert At(s', x).Some? && At(s', y) == At(s, y);
    WriteAtByte(t, s.disk, s'.disk, s.tokens[x], At(s', x).value, j);
    hide Moved, Role, AimOf, Advances, BitsOf, Dooms, W.Rank, W.Main, W.Promise;
    if Dooms(t, s.disk, s'.disk, At(s, y)) {
      Doomed(t, s.disk, s'.disk, At(s, y), i / 8);
      DoomedRoles(t, s.disk, s'.disk, At(s, y), j);
      if j == 8191 {
        FullIsZero(u');
        if j == i / 8 {
          BelowFull(u);
        }
      } else if j == i / 8 {
        DuelWrite(u, u'.y);
      } else {
        assert u' == u;
      }
    } else {
      NotDoomed(t, s.disk, s'.disk, At(s, y), j);
      if j == i / 8 {
        DuelWrite(u, u'.y);
      } else if u'.y == u.y {
        assert u' == u;
      } else {
        DropOther(u);
        assert u' == u.(y := W.Idle);
      }
    }
  }

  // ---------------------------------------------------------------- all bytes together

  ghost function Mains(t: Upload, s: State, x: nat, y: nat): (r: seq<nat>)
    ensures |r| == BitmapSize(|t.content|)
  {
    seq(BitmapSize(|t.content|), (j: nat) => DuelMain(DuelAt(t, s, x, y, j)))
  }

  ghost function Ranks(t: Upload, s: State, x: nat, y: nat): (r: seq<nat>)
    ensures |r| == BitmapSize(|t.content|)
  {
    seq(BitmapSize(|t.content|), (j: nat) => DuelRank(DuelAt(t, s, x, y, j)))
  }

  lemma SwapSums(t: Upload, s: State, x: nat, y: nat)
    ensures Mains(t, s, x, y) == Mains(t, s, y, x) && Ranks(t, s, x, y) == Ranks(t, s, y, x)
  {
    forall j: nat | j < BitmapSize(|t.content|)
      ensures DuelMain(DuelAt(t, s, x, y, j)) == DuelMain(DuelAt(t, s, y, x, j))
      ensures DuelRank(DuelAt(t, s, x, y, j)) == DuelRank(DuelAt(t, s, y, x, j))
    {
      Swapped(DuelAt(t, s, x, y, j));
    }
    hide DuelAt, DuelMain, DuelRank;
  }

  lemma QuietSums(t: Upload, h: HashFunction, s: State, x: nat, y: nat)
    requires NumChunks(|t.content|) <= INDEX_LIMIT && x != y && Enabled(t, s, Advance(x)) && Advances(t, h, s, x)
    requires !AimOf(t, s.tokens[x]).Stamping?
    ensures var s' := Moved(t, h, s, x);
      NoneAbove(Mains(t, s', x, y), Mains(t, s, x, y)) && NoneAbove(Ranks(t, s', x, y), Ranks(t, s, x, y))
  {
    hide Moved, Advances, AimOf, DuelAt, DuelMain, DuelRank;
    forall j: nat | j < BitmapSize(|t.content|)
      ensures AtMost(DuelAt(t, Moved(t, h, s, x), x, y, j), DuelAt(t, s, x, y, j))
    {
      QuietStep(t, h, s, x, y, j);
    }
  }

  lemma WriteSums(t: Upload, h: HashFunction, s: State, x: nat, y: nat)
    requires x != y && Enabled(t, s, Advance(x)) && Advances(t, h, s, x) && AimOf(t, s.tokens[x]).Stamping?
    ensures var s', here := Moved(t, h, s, x), AimOf(t, s.tokens[x]).i / 8;
      && NoneAbove(Mains(t, s', x, y), Mains(t, s, x, y))
      && (here < BitmapSize(|t.content|) ==>
            || Mains(t, s', x, y)[here] < Mains(t, s, x, y)[here]
            || (NoneAbove(Ranks(t, s', x, y), Ranks(t, s, x, y)) && Ranks(t, s', x, y)[here] < Ranks(t, s, x, y)[here]))
  {
    hide Moved, Advances, AimOf, DuelAt, DuelMain, DuelRank, Dooms;
    forall j: nat | j < BitmapSize(|t.content|)
      ensures var s' := Moved(t, h, s, x);
        var u, u', here := DuelAt(t, s, x, y, j), DuelAt(t, s', x, y, j), j == AimOf(t, s.tokens[x]).i / 8;
        if Dooms(t, s.disk, s'.disk, At(s, y)) then DuelMain(u') <= DuelMain(u) && (here ==> DuelMain(u') < DuelMain(u))
        else AtMost(u', u) && (here ==> DuelRank(u') < DuelRank(u))
    {
      WriteStep(t, h, s, x, y, j);
    }
  }

  /** The three sums, the first one first. */
  datatype Effort = Effort(main: nat, rank: nat, steps: nat)

  ghost function EffortOf(t: Upload, s: State, x: nat, y: nat, n: nat): Effort {
    Effort(Total(Mains(t, s, x, y)), Total(Ranks(t, s, x, y)), Total(Steps(t, s, n)))
  }

  predicate Less(a: Effort, b: Effort) {
    a.main < b.main || (a.main == b.main && (a.rank < b.rank || (a.rank == b.rank && a.steps < b.steps)))
  }

  lemma TwoLess(t: Upload, h: HashFunction, s: State, x: nat, y: nat, n: nat)
    requires Offerable(t) && Inv(t, h, s) && NumChunks(|t.content|) <= INDEX_LIMIT
    requires x != y && Enabled(t, s, Advance(x)) && x < n
    ensures Less(EffortOf(t, Moved(t, h, s, x), x, y, n), EffortOf(t, s, x, y, n))
  {
    EveryAdvance(t, h, s, x);
    assert TokenOk(t, h, s.disk, s.tokens[x]);
    AimIsChunk(t, h, s.disk, s.tokens[x]);
    var s', a := Moved(t, h, s, x), AimOf(t, s.tokens[x]);
    hide Inv, TokenOk, Moved, Mains, Ranks, Total, Steps;
    if a.Stamping? {
      InRange(a.i, |t.content|);
      WriteSums(t, h, s, x, y);
      TotalLeq(Mains(t, s', x, y), Mains(t, s, x, y));
      if Mains(t, s', x, y)[a.i / 8] < Mains(t, s, x, y)[a.i / 8] {
        TotalLess(Mains(t, s', x, y), Mains(t, s, x, y), a.i / 8);
      } else {
        TotalLess(Ranks(t, s', x, y), Ranks(t, s, x, y), a.i / 8);
      }
    } else {
      QuietSums(t, h, s, x, y);
      TotalLeq(Mains(t, s', x, y), Mains(t, s, x, y));
      TotalLeq(Ranks(t, s', x, y), Ranks(t, s, x, y));
      StepsLess(t, s, s', x, n);
    }
  }

  lemma SwapEffort(t: Upload, s: State, x: nat, y: nat, n: nat)
    ensures EffortOf(t, s, x, y, n) == EffortOf(t, s, y, x, n)
  {
    SwapSums(t, s, x, y);
  }

  /** At most 65536 chunks and two live messages: fault-free runs are bounded. */
  lemma {:induction false} TwoMessagesEnd(t: Upload, h: HashFunction, s: State, x: nat, y: nat, n: nat)
    requires Offerable(t) && Inv(t, h, s) && NumChunks(|t.content|) <= INDEX_LIMIT
    requires x != y && s.tokens.Keys <= {x, y} && x < n && y < n
    ensures Bounded(t, h, s)
    decreases EffortOf(t, s, x, y, n).main, EffortOf(t, s, x, y, n).rank, EffortOf(t, s, x, y, n).steps
  {
    AlwaysEnabled(t, h, s);
    forall id | id in s.tokens
      ensures Enabled(t, s, Advance(id)) && Bounded(t, h, Moved(t, h, s, id))
    {
      var other := if id == x then y else x;
      TwoLess(t, h, s, id, other, n);
      SwapEffort(t, s, x, y, n);
      SwapEffort(t, Moved(t, h, s, id), x, y, n);
      ApplyKeepsInv(t, h, s, Advance(id));
      EveryAdvance(t, h, s, id);
      hide Inv, Moved, EffortOf;
      TwoMessagesEnd(t, h, Moved(t, h, s, id), x, y, n);
    }
    BoundedNext(t, h, s);
  }
}
