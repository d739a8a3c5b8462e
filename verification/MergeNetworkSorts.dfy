/** When mergeBase sorts: exactly if SIZE % 8 is at most 1, or SIZE is less than 8. */
module MergeNetworkSorts {
  import opened Ranges
  import opened MergeNetwork
  import opened MergeNetworkProgress

  // The loop of merge::fire as a function

  /** What the loop of `merge::fire` writes for the two halves of its input. */
  function MergeTwo(a: seq<int>, b: seq<int>): (r: seq<int>)
    ensures |r| == |a| + |b|
  {
    if a == [] then b
    else if b == [] then a
    else if a[0] < b[0] then [a[0]] + MergeTwo(a[1..], b)
    else [b[0]] + MergeTwo(a, b[1..])
  }

  /** It divides its input at size / 2. */
  function MergeHalves(s: seq<int>): (r: seq<int>)
    ensures |r| == |s|
  {
    MergeTwo(s[..|s| / 2], s[|s| / 2..])
  }

  ghost predicate BaseAt(f: Kernel, s: seq<int>) {
    f.sort(s) == SortedSeq(s) && f.merge(s) == MergeHalves(s)
  }

  /** f is what the codelets of mergeBase do. */
  ghost predicate IsBase(f: Kernel) {
    forall s: seq<int> :: BaseAt(f, s)
  }

  lemma BaseKeepsLength(f: Kernel)
    requires IsBase(f)
    ensures LengthKeeping(f)
  {
    forall s
      ensures KeepsLength(f, s)
    {
      assert BaseAt(f, s);
    }
  }

  ghost const BASE: Kernel := Kernel((s: seq<int>) => SortedSeq(s), (s: seq<int>) => MergeHalves(s))

  lemma BaseIsBase()
    ensures IsBase(BASE)
  {
    forall s: seq<int>
      ensures BaseAt(BASE, s)
    {
    }
  }

  ghost predicate InOrder(s: seq<int>) {
    Sorted(s, 0, |s|)
  }

  lemma InOrderParts(s: seq<int>, k: nat)
    requires InOrder(s) && k <= |s|
    ensures InOrder(s[..k]) && InOrder(s[k..])
  {
    forall i: nat, j: nat | i <= j < |s| - k
      ensures Elem(s[k..], i) <= Elem(s[k..], j)
    {
      assert Elem(s, k + i) <= Elem(s, k + j);
    }
    forall i: nat, j: nat | i <= j < k
      ensures Elem(s[..k], i) <= Elem(s[..k], j)
    {
      assert Elem(s, i) <= Elem(s, j);
    }
  }

  lemma InOrderAfter(v: int, s: seq<int>)
    requires InOrder(s) && (s != [] ==> v <= s[0])
    ensures InOrder([v] + s)
  {
    forall i: nat, j: nat | i <= j < |s| + 1
      ensures Elem([v] + s, i) <= Elem([v] + s, j)
    {
      if 0 < i {
        assert Elem(s, i - 1) <= Elem(s, j - 1);
      } else if 0 < j {
        assert Elem(s, 0) <= Elem(s, j - 1);
      }
    }
  }

  lemma {:induction false} MergeTwoKeeps(a: seq<int>, b: seq<int>)
    ensures multiset(MergeTwo(a, b)) == multiset(a) + multiset(b)
    decreases |a| + |b|
  {
    if a != [] && b != [] {
      if a[0] < b[0] {
        MergeTwoKeeps(a[1..], b);
        assert a == [a[0]] + a[1..];
      } else {
        MergeTwoKeeps(a, b[1..]);
        assert b == [b[0]] + b[1..];
      }
    }
  }

  /** The first element of a merge is the first element of one of its inputs. */
  lemma {:induction false} MergeTwoSorts(a: seq<int>, b: seq<int>)
    requires InOrder(a) && InOrder(b)
    ensures InOrder(MergeTwo(a, b))
    ensures MergeTwo(a, b) != [] ==>
      (a != [] && MergeTwo(a, b)[0] == a[0]) || (b != [] && MergeTwo(a, b)[0] == b[0])
    decreases |a| + |b|
  {
    if a != [] && b != [] {
      if a[0] < b[0] {
        InOrderParts(a, 1);
        MergeTwoSorts(a[1..], b);
        assert |a| > 1 ==> Elem(a, 0) <= Elem(a, 1);
        InOrderAfter(a[0], MergeTwo(a[1..], b));
      } else {
        InOrderParts(b, 1);
        MergeTwoSorts(a, b[1..]);
        assert |b| > 1 ==> Elem(b, 0) <= Elem(b, 1);
        InOrderAfter(b[0], MergeTwo(a, b[1..]));
      }
    }
  }

  lemma SortedSeqKeeps(s: seq<int>)
    ensures InOrder(SortedSeq(s)) && multiset(SortedSeq(s)) == multiset(s)
  {
    var r := SortedSeq(s);
    SortedSeqOk(s, 0);
    forall x
      ensures multiset(r)[x] == multiset(s)[x]
    {
      SortedSeqOk(s, x);
      OccIsMultiset(r, 0, |r|, x);
      OccIsMultiset(s, 0, |s|, x);
      assert r[0..|r|] == r && s[0..|s|] == s;
    }
  }

  // The network permutes its input, whatever the sizes

  lemma {:induction false} NetworkKeeps(f: Kernel, depth: nat, div: nat, x: seq<int>)
    requires Width(depth, div) <= |x| && IsBase(f) && LengthKeeping(f)
    ensures multiset(Network(f, depth, div, x)) == multiset(x)
    decreases depth
  {
    if depth == 0 {
      assert BaseAt(f, x);
      SortedSeqKeeps(x);
    } else {
      var w := Width(depth - 1, div);
      var a, b := Network(f, depth - 1, div, x[..w]), Network(f, depth - 1, div, x[w..]);
      NetworkKeeps(f, depth - 1, div, x[..w]);
      NetworkKeeps(f, depth - 1, div, x[w..]);
      assert BaseAt(f, a + b);
      HalvesKeep(a + b);
      assert x == x[..w] + x[w..];
    }
  }

  lemma HalvesKeep(s: seq<int>)
    ensures multiset(MergeHalves(s)) == multiset(s)
  {
    var h := |s| / 2;
    MergeTwoKeeps(s[..h], s[h..]);
    assert s == s[..h] + s[h..];
  }

  // When it sorts

  /** The halves are the outputs of the two inputs, or the whole is in order already. */
  lemma {:induction false} NetworkSorts(f: Kernel, depth: nat, div: nat, x: seq<int>)
    requires Width(depth, div) <= |x| && IsBase(f) && LengthKeeping(f) && (|x| <= Width(depth, div) + 1 || div == 0)
    ensures InOrder(Network(f, depth, div, x))
    decreases depth
  {
    if depth == 0 {
      assert BaseAt(f, x);
      SortedSeqKeeps(x);
    } else {
      var w := Width(depth - 1, div);
      var a, b := Network(f, depth - 1, div, x[..w]), Network(f, depth - 1, div, x[w..]);
      NetworkSorts(f, depth - 1, div, x[..w]);
      NetworkSorts(f, depth - 1, div, x[w..]);
      assert BaseAt(f, a + b);
      if div == 0 {
        NoWidth(depth - 1);
        assert a + b == b;
        HalvesOfSorted(b);
      } else {
        HalvesSort(a, b);
      }
    }
  }

  lemma {:induction false} NoWidth(depth: nat)
    ensures Width(depth, 0) == 0
  {
    if depth > 0 {
      NoWidth(depth - 1);
    }
  }

  lemma HalvesOfSorted(s: seq<int>)
    requires InOrder(s)
    ensures InOrder(MergeHalves(s))
  {
    InOrderParts(s, |s| / 2);
    MergeTwoSorts(s[..|s| / 2], s[|s| / 2..]);
  }

  lemma HalvesSort(a: seq<int>, b: seq<int>)
    requires InOrder(a) && InOrder(b) && |a| <= |b| <= |a| + 1
    ensures InOrder(MergeHalves(a + b))
  {
    assert (a + b)[..|a + b| / 2] == a && (a + b)[|a + b| / 2..] == b;
    MergeTwoSorts(a, b);
  }

  // When it does not: a single 1 among zeros, at the place where the seventh quicksort starts

  function Zeros(n: nat): (s: seq<int>)
    ensures |s| == n
  {
    seq(n, i => 0)
  }

  function Spike(n: nat, p: nat): (s: seq<int>)
    ensures |s| == n
  {
    seq(n, i => if i == p then 1 else 0)
  }

  lemma {:induction false} InsertZero(n: nat)
    ensures Insert(Zeros(n), 0) == Zeros(n + 1)
  {
    assert Zeros(n) + [0] == Zeros(n + 1);
  }

  lemma {:induction false} SortZeros(n: nat)
    ensures SortedSeq(Zeros(n)) == Zeros(n)
  {
    if n > 0 {
      SortZeros(n - 1);
      InsertZero(n - 1);
      assert Zeros(n)[..n - 1] == Zeros(n - 1);
    }
  }

  lemma {:induction false} SortSpike(n: nat)
    requires n > 0
    ensures SortedSeq(Spike(n, 0)) == Spike(n, n - 1)
  {
    if n == 1 {
      assert SortedSeq([]) == [];
      assert Spike(1, 0)[..0] == [];
      assert Insert([], 1) == [1];
      assert Spike(1, 0) == [1];
    } else {
      SortSpike(n - 1);
      assert Spike(n, 0)[..n - 1] == Spike(n - 1, 0);
      var t := Spike(n - 1, n - 2);
      assert t[..n - 2] == Zeros(n - 2);
      InsertZero(n - 2);
      assert Zeros(n - 1) + [1] == Spike(n, n - 1);
    }
  }

  /** Equal elements are taken from the second half first. */
  lemma {:induction false} MergeWithZeros(a: seq<int>, k: nat)
    requires forall i :: 0 <= i < |a| ==> a[i] >= 0
    ensures MergeTwo(a, Zeros(k)) == Zeros(k) + a
  {
    if k > 0 && a != [] {
      MergeWithZeros(a, k - 1);
      assert Zeros(k)[1..] == Zeros(k - 1);
      assert Zeros(k) == [0] + Zeros(k - 1);
    } else {
      assert k == 0 ==> Zeros(k) + a == a;
    }
  }

  lemma {:induction false} MergeZerosWith(h: nat, k: nat, p: nat)
    requires p < k
    ensures MergeTwo(Zeros(h), Spike(k, p)) == Spike(h + k, h + p)
    decreases h + k
  {
    if h == 0 {
      assert Zeros(0) == [];
    } else if p == 0 {
      MergeZerosWith(h - 1, k, 0);
      assert Zeros(h)[1..] == Zeros(h - 1);
      assert [0] + Spike(h - 1 + k, h - 1) == Spike(h + k, h);
    } else {
      MergeZerosWith(h, k - 1, p - 1);
      assert Spike(k, p)[1..] == Spike(k - 1, p - 1);
      assert [0] + Spike(h + k - 1, h + p - 1) == Spike(h + k, h + p);
    }
  }

  lemma HalvesOfZeros(n: nat)
    ensures MergeHalves(Zeros(n)) == Zeros(n)
  {
    MergeWithZeros(Zeros(n / 2), n - n / 2);
    assert Zeros(n)[..n / 2] == Zeros(n / 2) && Zeros(n)[n / 2..] == Zeros(n - n / 2);
  }

  lemma SplitZeros(n: nat, w: nat)
    requires w <= n
    ensures Zeros(n)[..w] == Zeros(w) && Zeros(n)[w..] == Zeros(n - w) && Zeros(w) + Zeros(n - w) == Zeros(n)
  {
  }

  lemma SplitSpike(n: nat, p: nat, w: nat)
    requires w <= n && p < n
    ensures w <= p ==> Spike(n, p)[..w] == Zeros(w) && Spike(n, p)[w..] == Spike(n - w, p - w)
    ensures w <= p ==> Zeros(w) + Spike(n - w, p - w) == Spike(n, p)
    ensures p < w ==> Spike(n, p)[..w] == Spike(w, p) && Spike(n, p)[w..] == Zeros(n - w)
    ensures p < w ==> Spike(w, p) + Zeros(n - w) == Spike(n, p)
  {
  }

  ghost predicate OnZeros(f: Kernel, n: nat) {
    f.sort(Zeros(n)) == Zeros(n) && f.merge(Zeros(n)) == Zeros(n)
  }

  ghost predicate OnSpike(f: Kernel, n: nat, p: nat) {
    p < n ==>
      && (p == 0 ==> f.sort(Spike(n, p)) == Spike(n, n - 1))
      && f.merge(Spike(n, p)) == Spike(n, if p < n / 2 then n - n / 2 + p else p)
  }

  /** What the codelets do to zeros and to a spike. */
  ghost predicate SpikeKernel(f: Kernel) {
    LengthKeeping(f) && (forall n: nat :: OnZeros(f, n)) && (forall n: nat, p: nat :: OnSpike(f, n, p))
  }

  lemma BaseOnSpikes(f: Kernel)
    requires IsBase(f)
    ensures SpikeKernel(f)
  {
    BaseKeepsLength(f);
    forall n: nat
      ensures OnZeros(f, n)
    {
      assert BaseAt(f, Zeros(n));
      SortZeros(n);
      HalvesOfZeros(n);
    }
    forall n: nat, p: nat
      ensures OnSpike(f, n, p)
    {
      if p < n {
        assert BaseAt(f, Spike(n, p));
        SortSpike(n);
        if p < n / 2 { HalvesMoveSpike(n, p); } else { HalvesKeepSpike(n, p); }
      }
    }
  }

  /** One level of the network, with what its two parts receive and produce. */
  lemma NetworkNode(f: Kernel, depth: nat, div: nat, x: seq<int>, l: seq<int>, r: seq<int>, a: seq<int>, b: seq<int>)
    requires SpikeKernel(f) && depth > 0 && Width(depth, div) <= |x| && Width(depth - 1, div) <= |x|
    requires l == x[..Width(depth - 1, div)] && r == x[Width(depth - 1, div)..] && Width(depth - 1, div) <= |r|
    requires Network(f, depth - 1, div, l) == a && Network(f, depth - 1, div, r) == b
    ensures Network(f, depth, div, x) == f.merge(a + b)
  {
  }

  lemma NetworkLeaf(f: Kernel, div: nat, x: seq<int>)
    requires SpikeKernel(f) && div <= |x|
    ensures Network(f, 0, div, x) == f.sort(x)
  {
  }

  lemma {:induction false} NetworkOfZeros(f: Kernel, depth: nat, div: nat, n: nat)
    requires Width(depth, div) <= n && SpikeKernel(f)
    ensures Network(f, depth, div, Zeros(n)) == Zeros(n)
    decreases depth
  {
    if depth == 0 {
      assert OnZeros(f, n);
      NetworkLeaf(f, div, Zeros(n));
    } else {
      var w := Width(depth - 1, div);
      SplitZeros(n, w);
      NetworkOfZeros(f, depth - 1, div, w);
      NetworkOfZeros(f, depth - 1, div, n - w);
      NetworkNode(f, depth, div, Zeros(n), Zeros(w), Zeros(n - w), Zeros(w), Zeros(n - w));
      assert OnZeros(f, n);
    }
  }

  /** The spike is in the second half, and stays where it is. */
  lemma HalvesKeepSpike(n: nat, p: nat)
    requires n / 2 <= p < n
    ensures MergeHalves(Spike(n, p)) == Spike(n, p)
  {
    var h := n / 2;
    assert Spike(n, p)[..h] == Zeros(h) && Spike(n, p)[h..] == Spike(n - h, p - h);
    MergeZerosWith(h, n - h, p - h);
  }

  /** The spike is in the first half: the whole second half goes before it. */
  lemma HalvesMoveSpike(n: nat, p: nat)
    requires p < n / 2
    ensures MergeHalves(Spike(n, p)) == Spike(n, n - n / 2 + p)
  {
    var h := n / 2;
    assert Spike(n, p)[..h] == Spike(h, p) && Spike(n, p)[h..] == Zeros(n - h);
    MergeWithZeros(Spike(h, p), n - h);
    assert Zeros(n - h) + Spike(h, p) == Spike(n, n - h + p);
  }

  /** The last pair: the first merge divides its input behind the boundary of the two sorted runs. */
  lemma LastPair(f: Kernel, div: nat, last: nat)
    requires 0 < div && 2 <= last < 8 && SpikeKernel(f)
    ensures Width(1, div) == 2 * div
    ensures var n := 2 * div + last; Network(f, 1, div, Spike(n, 0)) == Spike(n, n - 1 - last / 2)
  {
    var n := 2 * div + last;
    Widths(div);
    SplitSpike(n, 0, div);
    assert OnSpike(f, div, 0);
    NetworkLeaf(f, div, Spike(div, 0));
    assert OnZeros(f, div + last);
    NetworkLeaf(f, div, Zeros(div + last));
    NetworkNode(f, 1, div, Spike(n, 0), Spike(div, 0), Zeros(div + last), Spike(div, div - 1), Zeros(div + last));
    SplitSpike(n, div - 1, div);
    assert OnSpike(f, n, div - 1);
  }

  /** The enclosing subtrees find zeros on their left, and leave the spike where it is. */
  lemma SpikeStays(f: Kernel, depth: nat, div: nat, w: nat, n: nat, p: nat, q: nat)
    requires depth > 0 && w == Width(depth - 1, div) && Width(depth, div) <= n && w <= p < n && w <= q && n / 2 <= q < n
    requires SpikeKernel(f) && Network(f, depth - 1, div, Spike(n - w, p - w)) == Spike(n - w, q - w)
    ensures Network(f, depth, div, Spike(n, p)) == Spike(n, q)
  {
    SplitSpike(n, p, w);
    SplitSpike(n, q, w);
    NetworkOfZeros(f, depth - 1, div, w);
    NetworkNode(f, depth, div, Spike(n, p), Zeros(w), Spike(n - w, p - w), Zeros(w), Spike(n - w, q - w));
    assert OnSpike(f, n, q);
  }

  lemma Widths(div: nat)
    ensures Width(0, div) == div && Width(1, div) == 2 * div && Width(2, div) == 4 * div && Width(3, div) == 8 * div
  {
    assert Width(1, div) == 2 * Width(0, div);
    assert Width(2, div) == 2 * Width(1, div);
    assert Width(3, div) == 2 * Width(2, div);
  }

  lemma SpikeEscapes(f: Kernel, div: nat, last: nat)
    requires 0 < div && 2 <= last < 8 && SpikeKernel(f)
    ensures Width(3, div) == 8 * div
    ensures var n := 8 * div + last; Network(f, 3, div, Spike(n, 6 * div)) == Spike(n, n - 1 - last / 2)
  {
    Widths(div);
    LastFour(f, div, last);
    SpikeStays(f, 3, div, 4 * div, 8 * div + last, 6 * div, 8 * div + last - 1 - last / 2);
  }

  lemma LastFour(f: Kernel, div: nat, last: nat)
    requires 0 < div && 2 <= last < 8 && SpikeKernel(f)
    ensures Width(2, div) == 4 * div
    ensures var n := 4 * div + last; Network(f, 2, div, Spike(n, 2 * div)) == Spike(n, n - 1 - last / 2)
  {
    Widths(div);
    LastPair(f, div, last);
    SpikeStays(f, 2, div, 2 * div, 4 * div + last, 2 * div, 4 * div + last - 1 - last / 2);
  }

  /** The input on which a network of this size goes wrong. */
  lemma SpikeFails(f: Kernel, div: nat, last: nat)
    requires IsBase(f) && 0 < div && 2 <= last < 8
    ensures LengthKeeping(f) && Width(3, div) == 8 * div
    ensures !InOrder(Network(f, 3, div, Spike(8 * div + last, 6 * div)))
  {
    BaseOnSpikes(f);
    SpikeEscapes(f, div, last);
    SpikeOutOfOrder(8 * div + last, 8 * div + last - 1 - last / 2);
  }

  lemma SpikeOutOfOrder(n: nat, p: nat)
    requires p + 1 < n
    ensures !InOrder(Spike(n, p))
  {
    assert Elem(Spike(n, p), p) > Elem(Spike(n, p), n - 1);
  }

  /** mergeBase's network sorts all inputs of a size if and only if size % 8 <= 1 or size < 8. */
  lemma SortsExactly(f: Kernel, size: nat)
    requires IsBase(f) && LengthKeeping(f)
    ensures Width(3, size / 8) <= size
    ensures (forall x: seq<int> :: |x| == size ==> InOrder(Network(f, 3, size / 8, x))) <==> (size % 8 <= 1 || size < 8)
  {
    var div, last := size / 8, size % 8;
    Widths(div);
    if last <= 1 || size < 8 {
      forall x: seq<int> | |x| == size
        ensures InOrder(Network(f, 3, div, x))
      {
        NetworkSorts(f, 3, div, x);
      }
    } else {
      SpikeFails(f, div, last);
      assert |Spike(size, 6 * div)| == size;
    }
  }

  lemma FifteenCodelets()
    ensures Codelets(3) == 15
  {
    assert Codelets(0) == 1 && Codelets(1) == 3 && Codelets(2) == 7;
  }

  /** The instance of the general result for mergeBase: fifteen codelets fire, each once, and the last writes OUT. */
  lemma BaseResult(f: Kernel, m0: Mem, moves: seq<seq<bool>>, to: State)
    requires |m0.inp| <= |m0.out| && IsBase(f) && LengthKeeping(f)
    requires Run(f, 3, |m0.inp| / 8, |m0.inp|, State(NewNet(3), m0, 0), moves, to)
    ensures |moves| <= 15 && to.signals <= 1 && Width(3, |m0.inp| / 8) <= |m0.inp|
    ensures to.signals == 1 <==> |moves| == 15
    ensures to.signals == 1 <==> Ended(to.t)
    ensures to.signals == 1 ==> |m0.inp| <= |to.m.out| && to.m.out[..|m0.inp|] == Network(f, 3, |m0.inp| / 8, m0.inp)
  {
    Widths(|m0.inp| / 8);
    OddDepth();
    FifteenCodelets();
    EveryScheduleEnds(f, 3, |m0.inp| / 8, m0, moves, to);
    EveryScheduleAgrees(f, 3, |m0.inp| / 8, m0, moves, to);
  }

  /** For SIZE % 8 <= 1, or SIZE < 8, every order of the eight quicksorts and seven merges leaves in OUT a sorted
      permutation of IN: a schedule can be continued until all fifteen have fired. */
  lemma EveryScheduleSorts(f: Kernel, m0: Mem, moves: seq<seq<bool>>, to: State)
    requires |m0.inp| <= |m0.out| && (|m0.inp| % 8 <= 1 || |m0.inp| < 8) && IsBase(f) && LengthKeeping(f)
    requires Run(f, 3, |m0.inp| / 8, |m0.inp|, State(NewNet(3), m0, 0), moves, to)
    ensures |moves| <= 15 && (to.signals == 1 <==> |moves| == 15) && (to.signals == 1 <==> Ended(to.t))
    ensures Ended(to.t) ==>
      && |m0.inp| <= |to.m.out|
      && InOrder(to.m.out[..|m0.inp|]) && multiset(to.m.out[..|m0.inp|]) == multiset(m0.inp)
  {
    var x, div := m0.inp, |m0.inp| / 8;
    BaseResult(f, m0, moves, to);
    Widths(div);
    if to.signals == 1 {
      NetworkSorts(f, 3, div, x);
      NetworkKeeps(f, 3, div, x);
    }
  }

  lemma OddDepth()
    ensures WritesOut(3)
  {
    assert !WritesOut(0) && WritesOut(1) && !WritesOut(2);
  }

  /** For the remaining sizes every schedule fails to sort this input: it ends after fifteen firings, out of order. */
  lemma EveryScheduleFails(f: Kernel, div: nat, last: nat, m0: Mem, moves: seq<seq<bool>>, to: State)
    requires 0 < div && 2 <= last < 8 && m0.inp == Spike(8 * div + last, 6 * div) && |m0.inp| <= |m0.out|
    requires IsBase(f) && LengthKeeping(f) && Run(f, 3, |m0.inp| / 8, |m0.inp|, State(NewNet(3), m0, 0), moves, to)
    ensures |moves| <= 15 && (to.signals == 1 <==> |moves| == 15) && (to.signals == 1 <==> Ended(to.t))
    ensures Ended(to.t) ==> |m0.inp| <= |to.m.out| && !InOrder(to.m.out[..|m0.inp|])
  {
    assert |m0.inp| / 8 == div;
    SpikeFails(f, div, last);
    BaseResult(f, m0, moves, to);
  }

  /** A complete schedule that leaves that input out of order. */
  lemma ScheduleThatFails(div: nat, last: nat, m0: Mem) returns (moves: seq<seq<bool>>, to: State)
    requires 0 < div && 2 <= last < 8 && m0.inp == Spike(8 * div + last, 6 * div) && |m0.inp| <= |m0.out|
    ensures LengthKeeping(BASE) && Run(BASE, 3, |m0.inp| / 8, |m0.inp|, State(NewNet(3), m0, 0), moves, to)
    ensures |moves| == 15 && to.signals == 1 && |m0.inp| <= |to.m.out| && !InOrder(to.m.out[..|m0.inp|])
  {
    var d := |m0.inp| / 8;
    BaseIsBase();
    BaseKeepsLength(BASE);
    Widths(d);
    NewNetOk(BASE, 3, d, 0, m0.inp, m0);
    moves, to := CanFinish(BASE, 3, d, State(NewNet(3), m0, 0), m0.inp);
    EveryScheduleFails(BASE, div, last, m0, moves, to);
  }
}
