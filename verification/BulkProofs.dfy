/** What every state of the bulk-synchronous Cannon program keeps, under every interleaving. */
module BulkProofs {
  import opened Grid
  import opened SyncSlots
  import opened CannonJob
  import opened BulkCannon
  import P = Pipeline
  import PP = PipelineProofs

  /** The loop codelet has already exchanged the buffers of tile i. */
  predicate Swapped(l: Loop, i: nat) {
    l.pc.LSwapping? && i < l.pc.next
  }

  /** The side of tile i that is read in the current round; the other one is written. */
  function Side(side: seq<bool>, l: Loop, i: nat): bool
    requires i < |side|
  {
    if Swapped(l, i) then !side[i] else side[i]
  }

  /** In round 0 the skew codelets send tiles, in the others the compute codelets. */
  function SourceA<T>(j: Job<T>, l: Loop, k: nat): nat
    requires WellWired(j.g) && k < j.g.n
  {
    if l.cur == 0 then j.g.fromRow[k] else j.g.left[k]
  }

  function SourceB<T>(j: Job<T>, l: Loop, k: nat): nat
    requires WellWired(j.g) && k < j.g.n
  {
    if l.cur == 0 then j.g.fromCol[k] else j.g.up[k]
  }

  /** Tile i has put its A tile where it goes in the current round. */
  predicate SentA<T>(skew: seq<SkewPc>, e: Engine<T>, l: Loop, i: nat)
    requires i < |skew| && i < |e.pc| && i < |e.sent|
  {
    e.sent[i] == l.cur + 1 || (if l.cur == 0 then skew[i].KCopyB? || skew[i].KSignal? else e.pc[i].BCopyB? || e.pc[i].BSignal?)
  }

  predicate SentB<T>(skew: seq<SkewPc>, e: Engine<T>, l: Loop, i: nat)
    requires i < |skew| && i < |e.pc| && i < |e.sent|
  {
    e.sent[i] == l.cur + 1 || (if l.cur == 0 then skew[i].KSignal? else e.pc[i].BSignal?)
  }

  /** The buffers of tile k: the one being read holds the tile of this round, and the one being written
      that of the next round as soon as it has been sent. */
  ghost predicate Holds<T>(b: Buffers<T>, side: bool, k: nat, copied: bool, sent: bool, first: bool, own: T, now: T, next: T)
    requires k < |b.off| == |b.on|
  {
    && (sent ==> Get(b, !side, k) == next)
    && (first && copied ==> Get(b, side, k) == own)
    && (!first ==> Get(b, side, k) == now)
  }

  ghost predicate InA<T>(j: Job<T>, u: Setup, m: Mem<T>, e: Engine<T>, l: Loop, k: nat)
    requires ValidJob(j) && SizedSetup(j.g.n, u) && SizedMem(j.g.n, m) && SizedEngine(j.g.n, e) && l.cur <= j.g.s && k < j.g.n
  {
    Holds(m.a, Side(m.side, l, k), k, !u.copyA[k].Ready?, SentA(u.pc, e, l, SourceA(j, l, k)), l.cur == 0,
          j.a[j.g.row[k]][j.g.col[k]], OperandA(j, k, if l.cur == 0 then 0 else l.cur - 1), OperandA(j, k, l.cur))
  }

  ghost predicate InB<T>(j: Job<T>, u: Setup, m: Mem<T>, e: Engine<T>, l: Loop, k: nat)
    requires ValidJob(j) && SizedSetup(j.g.n, u) && SizedMem(j.g.n, m) && SizedEngine(j.g.n, e) && l.cur <= j.g.s && k < j.g.n
  {
    Holds(m.b, Side(m.side, l, k), k, !u.copyB[k].Ready?, SentB(u.pc, e, l, SourceB(j, l, k)), l.cur == 0,
          j.b[j.g.row[k]][j.g.col[k]], OperandB(j, k, if l.cur == 0 then 0 else l.cur - 1), OperandB(j, k, l.cur))
  }

  /** The copy codelets and the skew codelet of tile i. */
  ghost predicate SetupOk(g: Torus, u: Setup, side: seq<bool>, l: Loop, i: nat)
    requires WellWired(g) && SizedSetup(g.n, u) && |side| == g.n && i < g.n
  {
    && u.dep[i] == (if u.copyA[i].Signalled? then 0 else 1) + (if u.copyB[i].Signalled? then 0 else 1)
    && (u.pc[i].KWaiting? <==> u.dep[i] > 0)
    && (!u.pc[i].KDone? ==> l.pc.LWaiting? && l.cur == 0)
    && (u.pc[i].KCopyA? || u.pc[i].KCopyB? ==>
          u.pc[i].rd == side[i] && u.pc[i].wa == !side[g.destRow[i]] && u.pc[i].wb == !side[g.destCol[i]])
  }

  /** Products that tile i has added up. */
  function Products<T>(e: Engine<T>, l: Loop, i: nat): nat
    requires i < |e.pc| && i < |e.sent|
  {
    if l.cur == 0 then 0
    else if e.sent[i] == l.cur + 1 || e.pc[i].BCopyA? || e.pc[i].BCopyB? || e.pc[i].BSignal? then l.cur
    else l.cur - 1
  }

  /** The compute codelet of tile i. */
  ghost predicate ComputeOk<T>(j: Job<T>, skew: seq<SkewPc>, side: seq<bool>, e: Engine<T>, l: Loop, i: nat)
    requires ValidJob(j) && |skew| == |side| == j.g.n && SizedEngine(j.g.n, e) && l.cur <= j.g.s && i < j.g.n
  {
    var pc := e.pc[i];
    && e.dep[i] == (if pc.BEnabled? then 0 else 1)
    && (l.cur == 0 ==> pc.BWaiting? && e.sent[i] == if skew[i].KDone? then 1 else 0)
    && (l.cur > 0 ==> (e.sent[i] == l.cur || e.sent[i] == l.cur + 1))
    && (!pc.BWaiting? ==> e.sent[i] == l.cur && (l.pc.LWaiting? || (l.pc.LSignalling? && i < l.pc.next)))
    && (l.cur > 0 && e.sent[i] == l.cur && pc.BWaiting? ==> l.pc.LSignalling? && l.pc.next <= i)
    && (l.pc.LSignalling? && l.pc.next <= i ==> e.sent[i] == l.cur && pc.BWaiting?)
    && (pc.BMultiply? ==> pc.rd == side[i])
    && (pc.BCopyA? || pc.BCopyB? ==> pc.rd == side[i] && pc.wa == !side[j.g.nextRow[i]] && pc.wb == !side[j.g.nextCol[i]])
    && e.tileC[i] == Accumulated(j, i, Products(e, l, i))
  }

  ghost predicate AllSent(sent: seq<nat>, k: nat) {
    forall i :: 0 <= i < |sent| ==> sent[i] == k
  }

  ghost predicate LoopOk(n: nat, s: nat, sent: seq<nat>, l: Loop) {
    && l.cur <= s
    && match l.pc
       case LWaiting => l.dep == Count(sent, l.cur) && 0 < l.dep && l.fires == l.cur
       case LSignalling(k) => k < n && 0 < l.cur && l.dep == Count(sent, l.cur) && l.fires == l.cur
       case LEnabled => l.dep == 0 && AllSent(sent, l.cur + 1) && l.fires == l.cur
       case LSwapping(k) => k <= n && l.dep == n && AllSent(sent, l.cur + 1) && l.cur < s && l.fires == l.cur + 1
       case LCopying(k) => k <= n && l.dep == n && AllSent(sent, l.cur + 1) && l.cur == s && l.fires == l.cur + 1
  }

  /** The tiles whose C has been handed to the copy codelets, in the terms of the pipelined program. */
  function Released(n: nat, l: Loop): (pcs: seq<P.ComputePc>)
    ensures |pcs| == n
  {
    seq(n, i requires 0 <= i < n => if l.pc.LCopying? && i < l.pc.next then P.Finished else P.Waiting)
  }

  ghost predicate BuffersA<T>(j: Job<T>, u: Setup, m: Mem<T>, e: Engine<T>, l: Loop)
    requires ValidJob(j) && SizedSetup(j.g.n, u) && SizedMem(j.g.n, m) && SizedEngine(j.g.n, e) && l.cur <= j.g.s
  {
    forall k :: 0 <= k < j.g.n ==> InA(j, u, m, e, l, k)
  }

  ghost predicate BuffersB<T>(j: Job<T>, u: Setup, m: Mem<T>, e: Engine<T>, l: Loop)
    requires ValidJob(j) && SizedSetup(j.g.n, u) && SizedMem(j.g.n, m) && SizedEngine(j.g.n, e) && l.cur <= j.g.s
  {
    forall k :: 0 <= k < j.g.n ==> InB(j, u, m, e, l, k)
  }

  ghost predicate Setups(g: Torus, u: Setup, side: seq<bool>, l: Loop)
    requires WellWired(g) && SizedSetup(g.n, u) && |side| == g.n
  {
    forall i :: 0 <= i < g.n ==> SetupOk(g, u, side, l, i)
  }

  ghost predicate Computes<T>(j: Job<T>, skew: seq<SkewPc>, side: seq<bool>, e: Engine<T>, l: Loop)
    requires ValidJob(j) && |skew| == |side| == j.g.n && SizedEngine(j.g.n, e) && l.cur <= j.g.s
  {
    forall i :: 0 <= i < j.g.n ==> ComputeOk(j, skew, side, e, l, i)
  }

  ghost predicate Drains<T>(j: Job<T>, tileC: seq<T>, l: Loop, d: P.Drain<T>)
    requires ValidJob(j) && |tileC| == j.g.n && P.SizedDrain(j.g.n, d)
  {
    && IsGrid(d.c, j.g.s) && PP.EndOk(j.g.n, d)
    && forall i :: 0 <= i < j.g.n ==> PP.DrainOk(j, Released(j.g.n, l), tileC, d, i)
  }

  /** The invariant of every run. */
  ghost predicate Inv<T>(j: Job<T>, st: State<T>) {
    && ValidJob(j) && Sized(j.g.n, st)
    && LoopOk(j.g.n, j.g.s, st.engine.sent, st.loop)
    && Setups(j.g, st.setup, st.mem.side, st.loop)
    && Computes(j, st.setup.pc, st.mem.side, st.engine, st.loop)
    && BuffersA(j, st.setup, st.mem, st.engine, st.loop)
    && BuffersB(j, st.setup, st.mem, st.engine, st.loop)
    && Drains(j, st.engine.tileC, st.loop, st.drain)
  }

  lemma InitBuffers<T>(j: Job<T>, c: seq<seq<T>>)
    requires ValidJob(j) && IsGrid(c, j.g.s)
    ensures var st := Init(j, c);
      BuffersA(j, st.setup, st.mem, st.engine, st.loop) && BuffersB(j, st.setup, st.mem, st.engine, st.loop)
  {
    forall k | 0 <= k < j.g.n
      ensures var st := Init(j, c);
        InA(j, st.setup, st.mem, st.engine, st.loop, k) && InB(j, st.setup, st.mem, st.engine, st.loop, k)
    {
      assert Wired(j.g, k);
    }
  }

  lemma InitInv<T>(j: Job<T>, c: seq<seq<T>>)
    requires ValidJob(j) && IsGrid(c, j.g.s)
    ensures Inv(j, Init(j, c))
  {
    var st := Init(j, c);
    CountAll(st.engine.sent, 0);
    CountNone(st.drain.pc, P.CDone);
    InitBuffers(j, c);
  }

  // What does not change the buffers of A, or those of B

  ghost predicate SameSentA<T>(u: Setup, e: Engine<T>, u': Setup, e': Engine<T>, l: Loop, i: nat) {
    && i < |u.pc| && i < |u'.pc| && i < |u.copyA| && i < |u'.copyA| && i < |e.pc| && i < |e'.pc| && i < |e.sent| && i < |e'.sent|
    && SentA(u'.pc, e', l, i) == SentA(u.pc, e, l, i) && u'.copyA[i].Ready? == u.copyA[i].Ready?
  }

  ghost predicate SameSentB<T>(u: Setup, e: Engine<T>, u': Setup, e': Engine<T>, l: Loop, i: nat) {
    && i < |u.pc| && i < |u'.pc| && i < |u.copyB| && i < |u'.copyB| && i < |e.pc| && i < |e'.pc| && i < |e.sent| && i < |e'.sent|
    && SentB(u'.pc, e', l, i) == SentB(u.pc, e, l, i) && u'.copyB[i].Ready? == u.copyB[i].Ready?
  }

  /** The round goes on: only the position within a loop other than the swapping one may differ. */
  predicate SameRound(l: Loop, l': Loop) {
    l'.cur == l.cur && !l.pc.LSwapping? && !l'.pc.LSwapping?
  }

  lemma KeepA<T>(j: Job<T>, u: Setup, m: Mem<T>, e: Engine<T>, l: Loop, u': Setup, m': Mem<T>, e': Engine<T>, l': Loop)
    requires ValidJob(j) && SizedSetup(j.g.n, u) && SizedMem(j.g.n, m) && SizedEngine(j.g.n, e) && l.cur <= j.g.s
    requires SizedSetup(j.g.n, u') && SizedMem(j.g.n, m') && SizedEngine(j.g.n, e') && SameRound(l, l')
    requires BuffersA(j, u, m, e, l) && m'.a == m.a && m'.side == m.side
    requires forall i: nat :: i < j.g.n ==> SameSentA(u, e, u', e', l, i)
    ensures BuffersA(j, u', m', e', l')
  {
    forall k | 0 <= k < j.g.n
      ensures InA(j, u', m', e', l', k)
    {
      assert InA(j, u, m, e, l, k) && SameSentA(u, e, u', e', l, k) && SameSentA(u, e, u', e', l, SourceA(j, l, k));
    }
  }

  lemma KeepB<T>(j: Job<T>, u: Setup, m: Mem<T>, e: Engine<T>, l: Loop, u': Setup, m': Mem<T>, e': Engine<T>, l': Loop)
    requires ValidJob(j) && SizedSetup(j.g.n, u) && SizedMem(j.g.n, m) && SizedEngine(j.g.n, e) && l.cur <= j.g.s
    requires SizedSetup(j.g.n, u') && SizedMem(j.g.n, m') && SizedEngine(j.g.n, e') && SameRound(l, l')
    requires BuffersB(j, u, m, e, l) && m'.b == m.b && m'.side == m.side
    requires forall i: nat :: i < j.g.n ==> SameSentB(u, e, u', e', l, i)
    ensures BuffersB(j, u', m', e', l')
  {
    forall k | 0 <= k < j.g.n
      ensures InB(j, u', m', e', l', k)
    {
      assert InB(j, u, m, e, l, k) && SameSentB(u, e, u', e', l, k) && SameSentB(u, e, u', e', l, SourceB(j, l, k));
    }
  }

  // Tile i sends its A tile, or its B tile, to tile d

  lemma DeliverA<T>(j: Job<T>, u: Setup, m: Mem<T>, e: Engine<T>, l: Loop, u': Setup, e': Engine<T>, i: nat, d: nat, t: T)
    requires ValidJob(j) && SizedSetup(j.g.n, u) && SizedMem(j.g.n, m) && SizedEngine(j.g.n, e) && l.cur <= j.g.s
    requires SizedSetup(j.g.n, u') && SizedEngine(j.g.n, e') && !l.pc.LSwapping? && i < j.g.n && d < j.g.n
    requires BuffersA(j, u, m, e, l) && t == OperandA(j, d, l.cur)
    requires forall k: nat :: k < j.g.n && SourceA(j, l, k) == i ==> k == d
    requires forall k: nat :: k < j.g.n && k != i ==> SameSentA(u, e, u', e', l, k)
    requires u'.copyA == u.copyA
    ensures BuffersA(j, u', m.(a := Set(m.a, !m.side[d], d, t)), e', l)
  {
    var m' := m.(a := Set(m.a, !m.side[d], d, t));
    forall k | 0 <= k < j.g.n
      ensures InA(j, u', m', e', l, k)
    {
      assert InA(j, u, m, e, l, k);
      assert SourceA(j, l, k) != i ==> SameSentA(u, e, u', e', l, SourceA(j, l, k));
    }
  }

  lemma DeliverB<T>(j: Job<T>, u: Setup, m: Mem<T>, e: Engine<T>, l: Loop, u': Setup, e': Engine<T>, i: nat, d: nat, t: T)
    requires ValidJob(j) && SizedSetup(j.g.n, u) && SizedMem(j.g.n, m) && SizedEngine(j.g.n, e) && l.cur <= j.g.s
    requires SizedSetup(j.g.n, u') && SizedEngine(j.g.n, e') && !l.pc.LSwapping? && i < j.g.n && d < j.g.n
    requires BuffersB(j, u, m, e, l) && t == OperandB(j, d, l.cur)
    requires forall k: nat :: k < j.g.n && SourceB(j, l, k) == i ==> k == d
    requires forall k: nat :: k < j.g.n && k != i ==> SameSentB(u, e, u', e', l, k)
    requires u'.copyB == u.copyB
    ensures BuffersB(j, u', m.(b := Set(m.b, !m.side[d], d, t)), e', l)
  {
    var m' := m.(b := Set(m.b, !m.side[d], d, t));
    forall k | 0 <= k < j.g.n
      ensures InB(j, u', m', e', l, k)
    {
      assert InB(j, u, m, e, l, k);
      assert SourceB(j, l, k) != i ==> SameSentB(u, e, u', e', l, SourceB(j, l, k));
    }
  }

  // The copy codelets

  lemma CopyFillsA<T>(j: Job<T>, u: Setup, m: Mem<T>, e: Engine<T>, l: Loop, i: nat)
    requires ValidJob(j) && SizedSetup(j.g.n, u) && SizedMem(j.g.n, m) && SizedEngine(j.g.n, e) && l.cur == 0
    requires !l.pc.LSwapping? && i < j.g.n && BuffersA(j, u, m, e, l)
    ensures BuffersA(j, u.(copyA := u.copyA[i := P.Copied]), m.(a := Set(m.a, m.side[i], i, j.a[j.g.row[i]][j.g.col[i]])), e, l)
  {
    var u', m' := u.(copyA := u.copyA[i := P.Copied]), m.(a := Set(m.a, m.side[i], i, j.a[j.g.row[i]][j.g.col[i]]));
    forall k | 0 <= k < j.g.n
      ensures InA(j, u', m', e, l, k)
    {
      assert InA(j, u, m, e, l, k);
    }
  }

  lemma CopyFillsB<T>(j: Job<T>, u: Setup, m: Mem<T>, e: Engine<T>, l: Loop, i: nat)
    requires ValidJob(j) && SizedSetup(j.g.n, u) && SizedMem(j.g.n, m) && SizedEngine(j.g.n, e) && l.cur == 0
    requires !l.pc.LSwapping? && i < j.g.n && BuffersB(j, u, m, e, l)
    ensures BuffersB(j, u.(copyB := u.copyB[i := P.Copied]), m.(b := Set(m.b, m.side[i], i, j.b[j.g.row[i]][j.g.col[i]])), e, l)
  {
    var u', m' := u.(copyB := u.copyB[i := P.Copied]), m.(b := Set(m.b, m.side[i], i, j.b[j.g.row[i]][j.g.col[i]]));
    forall k | 0 <= k < j.g.n
      ensures InB(j, u', m', e, l, k)
    {
      assert InB(j, u, m, e, l, k);
    }
  }

  /** What happens in the setup of tile i leaves the other tiles' setup and all compute codelets alone. */
  lemma SetupFrame<T>(j: Job<T>, u: Setup, side: seq<bool>, e: Engine<T>, l: Loop, u': Setup, i: nat)
    requires ValidJob(j) && SizedSetup(j.g.n, u) && SizedSetup(j.g.n, u') && |side| == j.g.n && SizedEngine(j.g.n, e) && i < j.g.n
    requires l.cur <= j.g.s && Setups(j.g, u, side, l) && Computes(j, u.pc, side, e, l)
    requires u'.copyA == u.copyA[i := u'.copyA[i]] && u'.copyB == u.copyB[i := u'.copyB[i]]
    requires u'.dep == u.dep[i := u'.dep[i]] && u'.pc == u.pc[i := u'.pc[i]] && SetupOk(j.g, u', side, l, i)
    requires u'.pc[i].KDone? == u.pc[i].KDone?
    ensures Setups(j.g, u', side, l) && Computes(j, u'.pc, side, e, l)
  {
    forall k | 0 <= k < j.g.n
      ensures SetupOk(j.g, u', side, l, k) && ComputeOk(j, u'.pc, side, e, l, k)
    {
      assert SetupOk(j.g, u, side, l, k) && ComputeOk(j, u.pc, side, e, l, k);
    }
  }

  lemma CopyAInv<T>(j: Job<T>, st: State<T>, i: nat)
    requires Inv(j, st) && Runnable(j, st, CopyA(i))
    ensures Inv(j, StepCopyA(j, st, i))
  {
    var u, u' := st.setup, StepCopyA(j, st, i).setup;
    var m, m', e, l := st.mem, StepCopyA(j, st, i).mem, st.engine, st.loop;
    assert SetupOk(j.g, u, m.side, l, i);
    SetupFrame(j, u, m.side, e, l, u', i);
    if u.copyA[i].Ready? {
      CopyFillsA(j, u, m, e, l, i);
    } else {
      KeepA(j, u, m, e, l, u', m', e, l);
    }
    KeepB(j, u, m, e, l, u', m', e, l);
  }

  lemma CopyBInv<T>(j: Job<T>, st: State<T>, i: nat)
    requires Inv(j, st) && Runnable(j, st, CopyB(i))
    ensures Inv(j, StepCopyB(j, st, i))
  {
    var u, u' := st.setup, StepCopyB(j, st, i).setup;
    var m, m', e, l := st.mem, StepCopyB(j, st, i).mem, st.engine, st.loop;
    assert SetupOk(j.g, u, m.side, l, i);
    SetupFrame(j, u, m.side, e, l, u', i);
    if u.copyB[i].Ready? {
      CopyFillsB(j, u, m, e, l, i);
    } else {
      KeepB(j, u, m, e, l, u', m', e, l);
    }
    KeepA(j, u, m, e, l, u', m', e, l);
  }

  // The skew codelets

  lemma SkewTarget<T>(j: Job<T>, l: Loop, i: nat)
    requires ValidJob(j) && i < j.g.n && l.cur == 0
    ensures forall k: nat :: k < j.g.n && SourceA(j, l, k) == i ==> k == j.g.destRow[i]
    ensures forall k: nat :: k < j.g.n && SourceB(j, l, k) == i ==> k == j.g.destCol[i]
    ensures j.a[j.g.row[i]][j.g.col[i]] == OperandA(j, j.g.destRow[i], 0)
    ensures j.b[j.g.row[i]][j.g.col[i]] == OperandB(j, j.g.destCol[i], 0)
  {
    forall k: nat | k < j.g.n
      ensures SourceA(j, l, k) == i ==> k == j.g.destRow[i]
      ensures SourceB(j, l, k) == i ==> k == j.g.destCol[i]
    {
      assert Wired(j.g, k);
    }
    SkewStarts(j.g, i);
    assert Wired(j.g, i);
  }

  lemma SkewBuffersA<T>(j: Job<T>, st: State<T>, i: nat)
    requires Inv(j, st) && Runnable(j, st, Skew(i)) && !st.setup.pc[i].KSignal?
    ensures var st' := StepSkew(j, st, i); BuffersA(j, st'.setup, st'.mem, st.engine, st.loop)
  {
    var st' := StepSkew(j, st, i);
    var u, u', m, e, l := st.setup, st'.setup, st.mem, st.engine, st.loop;
    assert SetupOk(j.g, u, m.side, l, i) && ComputeOk(j, u.pc, m.side, e, l, i);
    if u.pc[i].KCopyA? {
      SkewTarget(j, l, i);
      assert InA(j, u, m, e, l, i);
      DeliverA(j, u, m, e, l, u', e, i, j.g.destRow[i], j.a[j.g.row[i]][j.g.col[i]]);
    } else {
      KeepA(j, u, m, e, l, u', st'.mem, e, l);
    }
  }

  lemma SkewBuffersB<T>(j: Job<T>, st: State<T>, i: nat)
    requires Inv(j, st) && Runnable(j, st, Skew(i)) && !st.setup.pc[i].KSignal?
    ensures var st' := StepSkew(j, st, i); BuffersB(j, st'.setup, st'.mem, st.engine, st.loop)
  {
    var st' := StepSkew(j, st, i);
    var u, u', m, e, l := st.setup, st'.setup, st.mem, st.engine, st.loop;
    assert SetupOk(j.g, u, m.side, l, i) && ComputeOk(j, u.pc, m.side, e, l, i);
    if u.pc[i].KCopyB? {
      SkewTarget(j, l, i);
      assert InB(j, u, m, e, l, i);
      DeliverB(j, u, m, e, l, u', e, i, j.g.destCol[i], j.b[j.g.row[i]][j.g.col[i]]);
    } else {
      KeepB(j, u, m, e, l, u', st'.mem, e, l);
    }
  }

  lemma SkewMoves<T>(j: Job<T>, st: State<T>, i: nat)
    requires Inv(j, st) && Runnable(j, st, Skew(i)) && !st.setup.pc[i].KSignal?
    ensures Inv(j, StepSkew(j, st, i))
  {
    assert SetupOk(j.g, st.setup, st.mem.side, st.loop, i);
    SkewBuffersA(j, st, i);
    SkewBuffersB(j, st, i);
    SetupFrame(j, st.setup, st.mem.side, st.engine, st.loop, StepSkew(j, st, i).setup, i);
  }

  // Signals to the loop codelet

  lemma {:induction false} CountOne(s: seq<nat>, v: nat, k: nat)
    requires k < |s| && s[k] == v
    ensures Count(s, v) > 0
  {
    if k < |s| - 1 {
      CountOne(s[..|s| - 1], v, k);
    }
  }

  lemma {:induction false} CountZero(s: seq<nat>, v: nat)
    requires Count(s, v) == 0
    ensures forall i :: 0 <= i < |s| ==> s[i] != v
  {
    if s != [] {
      CountZero(s[..|s| - 1], v);
    }
  }

  /** The counter and the history agree after a signal, and the codelet is enabled by the last one. */
  lemma LoopSignalled(n: nat, s: nat, sent: seq<nat>, l: Loop, i: nat)
    requires LoopOk(n, s, sent, l) && |sent| == n && i < n && sent[i] == l.cur
    requires l.pc.LWaiting? || (l.pc.LSignalling? && exists k :: 0 <= k < n && k != i && sent[k] == l.cur)
    requires forall k :: 0 <= k < n ==> sent[k] == l.cur || sent[k] == l.cur + 1
    ensures LoopOk(n, s, sent[i := sent[i] + 1], SignalLoop(l)) && SameRound(l, SignalLoop(l))
    ensures SignalLoop(l).pc == l.pc || (l.pc.LWaiting? && SignalLoop(l).pc.LEnabled? && AllSent(sent[i := sent[i] + 1], l.cur + 1))
  {
    var sent' := sent[i := sent[i] + 1];
    CountUpdate(sent, l.cur, i, sent[i] + 1);
    if l.pc.LSignalling? {
      var k :| 0 <= k < n && k != i && sent[k] == l.cur;
      CountOne(sent', l.cur, k);
    }
    if Count(sent', l.cur) == 0 {
      CountZero(sent', l.cur);
      assert AllSent(sent', l.cur + 1);
    }
  }

  /** Control after tile i has signalled the loop codelet. */
  lemma SignalFrame<T>(j: Job<T>, u: Setup, side: seq<bool>, e: Engine<T>, l: Loop, u': Setup, e': Engine<T>, l': Loop, i: nat)
    requires ValidJob(j) && SizedSetup(j.g.n, u) && SizedSetup(j.g.n, u') && |side| == j.g.n
    requires SizedEngine(j.g.n, e) && SizedEngine(j.g.n, e') && i < j.g.n && l.cur <= j.g.s && SameRound(l, l')
    requires Setups(j.g, u, side, l) && Computes(j, u.pc, side, e, l)
    requires l'.pc == l.pc || (l.pc.LWaiting? && l'.pc.LEnabled? && AllSent(e'.sent, l.cur + 1))
    requires u'.copyA == u.copyA && u'.copyB == u.copyB && u'.dep == u.dep
    requires (l.cur == 0 && u.pc[i].KSignal? && u'.pc == u.pc[i := KDone] && e' == Sent(e, i))
          || (l.cur > 0 && e.pc[i].BSignal? && u' == u && e' == Sent(e.(pc := e.pc[i := BWaiting]), i))
    ensures Setups(j.g, u', side, l') && Computes(j, u'.pc, side, e', l')
  {
    assert ComputeOk(j, u.pc, side, e, l, i);
    forall k | 0 <= k < j.g.n
      ensures SetupOk(j.g, u', side, l', k) && ComputeOk(j, u'.pc, side, e', l', k)
    {
      assert SetupOk(j.g, u, side, l, k) && ComputeOk(j, u.pc, side, e, l, k);
    }
  }

  lemma SkewSignals<T>(j: Job<T>, st: State<T>, i: nat)
    requires Inv(j, st) && Runnable(j, st, Skew(i)) && st.setup.pc[i].KSignal?
    ensures Inv(j, StepSkew(j, st, i))
  {
    var st' := StepSkew(j, st, i);
    var u, u', m, e, e', l, l' := st.setup, st'.setup, st.mem, st.engine, st'.engine, st.loop, st'.loop;
    SignalledRound(j, st, i);
    LoopSignalled(j.g.n, j.g.s, e.sent, l, i);
    SignalFrame(j, u, m.side, e, l, u', e', l', i);
    KeepA(j, u, m, e, l, u', m, e', l');
    KeepB(j, u, m, e, l, u', m, e', l');
    DrainsFrame(j, e.tileC, l, e'.tileC, l', st.drain);
  }

  /** The signals of this round are still being collected when tile i sends its own. */
  lemma SignalledRound<T>(j: Job<T>, st: State<T>, i: nat)
    requires Inv(j, st) && i < j.g.n && (st.setup.pc[i].KSignal? || st.engine.pc[i].BSignal?)
    ensures st.engine.sent[i] == st.loop.cur
    ensures st.setup.pc[i].KSignal? ==> st.loop.cur == 0 && st.loop.pc.LWaiting?
    ensures st.engine.pc[i].BSignal? ==> st.loop.cur > 0
    ensures st.loop.pc.LWaiting? || (st.loop.pc.LSignalling? && exists k :: 0 <= k < j.g.n && k != i && st.engine.sent[k] == st.loop.cur)
    ensures forall k :: 0 <= k < j.g.n ==> st.engine.sent[k] == st.loop.cur || st.engine.sent[k] == st.loop.cur + 1
  {
    var e, l := st.engine, st.loop;
    forall k | 0 <= k < j.g.n
      ensures e.sent[k] == l.cur || e.sent[k] == l.cur + 1
    {
      assert ComputeOk(j, st.setup.pc, st.mem.side, e, l, k);
    }
    assert SetupOk(j.g, st.setup, st.mem.side, l, i) && ComputeOk(j, st.setup.pc, st.mem.side, e, l, i);
    if l.pc.LSignalling? {
      assert ComputeOk(j, st.setup.pc, st.mem.side, e, l, l.pc.next);
    }
  }

  lemma DrainsFrame<T>(j: Job<T>, tileC: seq<T>, l: Loop, tileC': seq<T>, l': Loop, d: P.Drain<T>)
    requires ValidJob(j) && |tileC| == |tileC'| == j.g.n && P.SizedDrain(j.g.n, d) && Drains(j, tileC, l, d)
    requires !l.pc.LCopying? && (l'.pc.LCopying? ==> l'.pc.next == 0)
    ensures Drains(j, tileC', l', d)
  {
    forall i | 0 <= i < j.g.n
      ensures PP.DrainOk(j, Released(j.g.n, l'), tileC', d, i)
    {
      assert PP.DrainOk(j, Released(j.g.n, l), tileC, d, i);
    }
  }

  // The compute codelets

  lemma ComputeTarget<T>(j: Job<T>, l: Loop, i: nat)
    requires ValidJob(j) && i < j.g.n && 0 < l.cur <= j.g.s
    ensures forall k: nat :: k < j.g.n && SourceA(j, l, k) == i ==> k == j.g.nextRow[i]
    ensures forall k: nat :: k < j.g.n && SourceB(j, l, k) == i ==> k == j.g.nextCol[i]
    ensures OperandA(j, i, l.cur - 1) == OperandA(j, j.g.nextRow[i], l.cur)
    ensures OperandB(j, i, l.cur - 1) == OperandB(j, j.g.nextCol[i], l.cur)
  {
    forall k: nat | k < j.g.n
      ensures SourceA(j, l, k) == i ==> k == j.g.nextRow[i]
      ensures SourceB(j, l, k) == i ==> k == j.g.nextCol[i]
    {
      assert Wired(j.g, k);
    }
    ShiftKeepsInner(j.g, i, l.cur - 1);
    assert Wired(j.g, i);
  }

  /** A running compute codelet: the round it is in, and the operands it reads. */
  lemma Running<T>(j: Job<T>, st: State<T>, i: nat)
    requires Inv(j, st) && i < j.g.n && !st.engine.pc[i].BWaiting?
    ensures 0 < st.loop.cur && st.engine.sent[i] == st.loop.cur && (st.loop.pc.LWaiting? || st.loop.pc.LSignalling?)
    ensures Get(st.mem.a, st.mem.side[i], i) == OperandA(j, i, st.loop.cur - 1)
    ensures Get(st.mem.b, st.mem.side[i], i) == OperandB(j, i, st.loop.cur - 1)
  {
    assert ComputeOk(j, st.setup.pc, st.mem.side, st.engine, st.loop, i);
    assert InA(j, st.setup, st.mem, st.engine, st.loop, i) && InB(j, st.setup, st.mem, st.engine, st.loop, i);
  }

  lemma ComputeFrame<T>(j: Job<T>, skew: seq<SkewPc>, side: seq<bool>, e: Engine<T>, l: Loop, e': Engine<T>, i: nat)
    requires ValidJob(j) && |skew| == |side| == j.g.n && SizedEngine(j.g.n, e) && SizedEngine(j.g.n, e') && i < j.g.n
    requires l.cur <= j.g.s && Computes(j, skew, side, e, l) && ComputeOk(j, skew, side, e', l, i)
    requires e'.dep == e.dep[i := e'.dep[i]] && e'.pc == e.pc[i := e'.pc[i]] && e'.tileC == e.tileC[i := e'.tileC[i]]
    requires e'.sent == e.sent
    ensures Computes(j, skew, side, e', l)
  {
    forall k | 0 <= k < j.g.n
      ensures ComputeOk(j, skew, side, e', l, k)
    {
      assert ComputeOk(j, skew, side, e, l, k);
    }
  }

  lemma ComputeLocal<T>(j: Job<T>, st: State<T>, i: nat)
    requires Inv(j, st) && Runnable(j, st, Compute(i)) && !st.engine.pc[i].BSignal?
    ensures var st' := StepCompute(j, st, i);
      ComputeOk(j, st.setup.pc, st.mem.side, st'.engine, st.loop, i) && st'.engine.sent == st.engine.sent
  {
    assert ComputeOk(j, st.setup.pc, st.mem.side, st.engine, st.loop, i);
    Running(j, st, i);
  }

  lemma ComputeBuffersA<T>(j: Job<T>, st: State<T>, i: nat)
    requires Inv(j, st) && Runnable(j, st, Compute(i)) && !st.engine.pc[i].BSignal?
    ensures var st' := StepCompute(j, st, i); BuffersA(j, st.setup, st'.mem, st'.engine, st.loop)
  {
    var st' := StepCompute(j, st, i);
    var u, m, e, e', l := st.setup, st.mem, st.engine, st'.engine, st.loop;
    Running(j, st, i);
    assert ComputeOk(j, u.pc, m.side, e, l, i);
    if e.pc[i].BCopyA? {
      ComputeTarget(j, l, i);
      DeliverA(j, u, m, e, l, u, e', i, j.g.nextRow[i], OperandA(j, i, l.cur - 1));
    } else {
      KeepA(j, u, m, e, l, u, st'.mem, e', l);
    }
  }

  lemma ComputeBuffersB<T>(j: Job<T>, st: State<T>, i: nat)
    requires Inv(j, st) && Runnable(j, st, Compute(i)) && !st.engine.pc[i].BSignal?
    ensures var st' := StepCompute(j, st, i); BuffersB(j, st.setup, st'.mem, st'.engine, st.loop)
  {
    var st' := StepCompute(j, st, i);
    var u, m, e, e', l := st.setup, st.mem, st.engine, st'.engine, st.loop;
    Running(j, st, i);
    assert ComputeOk(j, u.pc, m.side, e, l, i);
    if e.pc[i].BCopyB? {
      ComputeTarget(j, l, i);
      DeliverB(j, u, m, e, l, u, e', i, j.g.nextCol[i], OperandB(j, i, l.cur - 1));
    } else {
      KeepB(j, u, m, e, l, u, st'.mem, e', l);
    }
  }

  lemma ComputeMoves<T>(j: Job<T>, st: State<T>, i: nat)
    requires Inv(j, st) && Runnable(j, st, Compute(i)) && !st.engine.pc[i].BSignal?
    ensures Inv(j, StepCompute(j, st, i))
  {
    var st' := StepCompute(j, st, i);
    Running(j, st, i);
    ComputeLocal(j, st, i);
    ComputeFrame(j, st.setup.pc, st.mem.side, st.engine, st.loop, st'.engine, i);
    ComputeBuffersA(j, st, i);
    ComputeBuffersB(j, st, i);
    DrainsFrame(j, st.engine.tileC, st.loop, st'.engine.tileC, st.loop, st.drain);
  }

  lemma ComputeSignals<T>(j: Job<T>, st: State<T>, i: nat)
    requires Inv(j, st) && Runnable(j, st, Compute(i)) && st.engine.pc[i].BSignal?
    ensures Inv(j, StepCompute(j, st, i))
  {
    var st' := StepCompute(j, st, i);
    var u, m, e, e', l, l' := st.setup, st.mem, st.engine, st'.engine, st.loop, st'.loop;
    SignalledRound(j, st, i);
    LoopSignalled(j.g.n, j.g.s, e.sent, l, i);
    SignalFrame(j, u, m.side, e, l, u, e', l', i);
    KeepA(j, u, m, e, l, u, m, e', l');
    KeepB(j, u, m, e, l, u, m, e', l');
    DrainsFrame(j, e.tileC, l, e'.tileC, l', st.drain);
  }
}
