/** The SPSC payload handoff of formal/handoff.py as a happens-before graph, for
    every capacity n and every number m of messages.

    Happens-before is the transitive closure of sequenced-before and
    synchronizes-with, as in section 5.1.2.4 of ISO/IEC 9899:2011.  The order of
    the two cursor stores is a parameter, because the analysis also runs the graph
    with each of them relaxed.  */
module Handoff {
  import Words

  datatype Event =
    | InitCursor(reclaimed: bool)
    | InitWord(slot: nat, word: nat)
    // producer
    | AcquireReclaimed(k: nat)
    | Write(k: nat, word: nat)
    | Publish(k: nat)
    // consumer
    | AcquirePublished(k: nat)
    | Read(k: nat, word: nat)
    | Reclaim(k: nat)

  /** epoch, x and y */
  const WORDS: nat := 3

  datatype Graph = Graph(n: nat, m: nat, publishReleases: bool, reclaimReleases: bool,
                         publishRead: nat -> nat, reclaimRead: nat -> nat)

  predicate In(g: Graph, e: Event) {
    match e
    case InitCursor(_) => true
    case InitWord(b, w) => b < g.n && w < WORDS
    case AcquireReclaimed(k) => g.n <= k < g.m
    case Write(k, w) => k < g.m && w < WORDS
    case Publish(k) => k < g.m
    case AcquirePublished(k) => k < g.m
    case Read(k, w) => k < g.m && w < WORDS
    case Reclaim(k) => k < g.m
  }

  function Thread(e: Event): int {
    match e
    case InitCursor(_) => -1
    case InitWord(_, _) => -1
    case AcquireReclaimed(_) => 0
    case Write(_, _) => 0
    case Publish(_) => 0
    case _ => 1
  }

  /** Program order inside a thread. */
  function Position(e: Event): nat {
    match e
    case InitCursor(_) => 0
    case InitWord(_, _) => 0
    case AcquireReclaimed(k) => 5 * k
    case Write(k, w) => 5 * k + 1 + w
    case Publish(k) => 5 * k + 4
    case AcquirePublished(k) => 5 * k
    case Read(k, w) => 5 * k + 1 + w
    case Reclaim(k) => 5 * k + 4
  }

  predicate Sequenced(a: Event, b: Event) {
    && Thread(b) >= 0
    && (Thread(a) == -1 || (Thread(a) == Thread(b) && Position(a) < Position(b)))
  }

  /** b is an atomic load that takes its value from the store a. */
  predicate ReadsFrom(g: Graph, a: Event, b: Event) {
    || (b.AcquirePublished? && a == Publish(g.publishRead(b.k)))
    || (b.AcquireReclaimed? && a == Reclaim(g.reclaimRead(b.k)))
  }

  predicate Releases(g: Graph, a: Event) {
    (a.Publish? && g.publishReleases) || (a.Reclaim? && g.reclaimReleases)
  }

  /** `causal` drops the ordering requirement: sequenced-before and reads-from. */
  predicate Edge(g: Graph, causal: bool, a: Event, b: Event) {
    && In(g, a) && In(g, b)
    && (Sequenced(a, b) || (ReadsFrom(g, a, b) && (causal || Releases(g, a))))
  }

  ghost predicate Chain(g: Graph, causal: bool, p: seq<Event>) {
    |p| >= 2 && forall i :: 0 <= i < |p| - 1 ==> Edge(g, causal, p[i], p[i + 1])
  }

  ghost predicate Reaches(g: Graph, causal: bool, a: Event, b: Event) {
    exists p :: Chain(g, causal, p) && p[0] == a && p[|p| - 1] == b
  }

  ghost predicate HappensBefore(g: Graph, a: Event, b: Event) { Reaches(g, false, a, b) }

  // ------------------------------------------------------------------ consistency

  /** Every designated load reads a store that covers its ticket. */
  ghost predicate Covering(g: Graph) {
    && (forall k :: 0 <= k < g.m ==> k <= g.publishRead(k) < g.m)
    && (forall k :: g.n <= k < g.m ==> k - g.n <= g.reclaimRead(k) < g.m)
  }

  ghost predicate Acyclic(g: Graph) {
    forall a :: !Reaches(g, true, a, a)
  }

  predicate OnCursor(e: Event, reclaimed: bool) {
    match e
    case InitCursor(r) => r == reclaimed
    case Publish(_) => !reclaimed
    case Reclaim(_) => reclaimed
    case _ => false
  }

  predicate LoadsCursor(e: Event, reclaimed: bool) {
    if reclaimed then e.AcquireReclaimed? else e.AcquirePublished?
  }

  /** Modification order of a cursor: its initialization, then ticket order. */
  function Order(e: Event): nat {
    match e
    case Publish(k) => k + 1
    case Reclaim(k) => k + 1
    case _ => 0
  }

  function OrderRead(g: Graph, e: Event): nat {
    match e
    case AcquirePublished(k) => g.publishRead(k) + 1
    case AcquireReclaimed(k) => g.reclaimRead(k) + 1
    case _ => 0
  }

  /** Coherence of each cursor: no load reads a store older than one that happens
      before it or than an earlier load read, nor a store that happens after it. */
  ghost predicate Coherent(g: Graph) {
    forall r, v, x :: In(g, r) && In(g, v) && LoadsCursor(r, x) ==>
      && (OnCursor(v, x) && HappensBefore(g, v, r) ==> Order(v) <= OrderRead(g, r))
      && (OnCursor(v, x) && HappensBefore(g, r, v) ==> OrderRead(g, r) < Order(v))
      && (LoadsCursor(v, x) && HappensBefore(g, r, v) ==> OrderRead(g, r) <= OrderRead(g, v))
  }

  ghost predicate Consistent(g: Graph) {
    g.n > 0 && Covering(g) && Acyclic(g) && Coherent(g)
  }

  // ------------------------------------------------------------- plain accesses

  predicate Plain(e: Event) { e.InitWord? || e.Write? || e.Read? }

  predicate SameWord(g: Graph, a: Event, b: Event)
    requires g.n > 0 && Plain(a) && Plain(b)
  {
    a.word == b.word && SlotIndex(g, a) == SlotIndex(g, b)
  }

  function SlotIndex(g: Graph, e: Event): nat
    requires g.n > 0 && Plain(e)
  {
    match e case InitWord(b, _) => b case Write(k, _) => k % g.n case Read(k, _) => k % g.n
  }

  ghost predicate Race(g: Graph, a: Event, b: Event)
    requires g.n > 0
  {
    && In(g, a) && In(g, b) && Plain(a) && Plain(b) && SameWord(g, a, b)
    && Thread(a) != Thread(b) && !(a.Read? && b.Read?)
    && !HappensBefore(g, a, b) && !HappensBefore(g, b, a)
  }

  ghost predicate RaceFree(g: Graph)
    requires g.n > 0
  {
    forall a, b :: !Race(g, a, b)
  }

  /** A plain write to the word of r that happens before r. */
  ghost predicate Visible(g: Graph, w: Event, r: Event)
    requires g.n > 0 && r.Read?
  {
    In(g, w) && (w.InitWord? || w.Write?) && SameWord(g, w, r) && HappensBefore(g, w, r)
  }

  /** w is visible to r and does not happen before another visible write. */
  ghost predicate Latest(g: Graph, w: Event, r: Event)
    requires g.n > 0 && r.Read?
  {
    Visible(g, w, r) && forall v :: Visible(g, v, r) && v != w ==> !HappensBefore(g, w, v)
  }

  // ------------------------------------------------------------------ path algebra

  lemma {:induction false} OneEdge(g: Graph, causal: bool, a: Event, b: Event)
    requires Edge(g, causal, a, b)
    ensures Reaches(g, causal, a, b)
  {
    var p := [a, b];
    assert Chain(g, causal, p);
    assert p[|p| - 1] == b;
  }

  lemma {:induction false} Compose(g: Graph, causal: bool, a: Event, b: Event, d: Event)
    requires Reaches(g, causal, a, b) && Reaches(g, causal, b, d)
    ensures Reaches(g, causal, a, d)
  {
    var p :| Chain(g, causal, p) && p[0] == a && p[|p| - 1] == b;
    var q :| Chain(g, causal, q) && q[0] == b && q[|q| - 1] == d;
    var r := p + q[1..];
    forall i | 0 <= i < |r| - 1 ensures Edge(g, causal, r[i], r[i + 1]) {
      if i >= |p| - 1 { assert Edge(g, causal, q[i - (|p| - 1)], q[i - (|p| - 1) + 1]); }
    }
    assert r[|r| - 1] == d;
  }

  lemma {:induction false} Weaken(g: Graph, a: Event, b: Event)
    requires HappensBefore(g, a, b)
    ensures Reaches(g, true, a, b)
  {
    var p :| Chain(g, false, p) && p[0] == a && p[|p| - 1] == b;
    assert Chain(g, true, p);
  }

  lemma {:induction false} NotBackwards(g: Graph, a: Event, b: Event)
    requires Acyclic(g) && Reaches(g, true, a, b)
    ensures !HappensBefore(g, b, a)
  {
    if HappensBefore(g, b, a) {
      Weaken(g, b, a);
      Compose(g, true, a, b, a);
    }
  }

  lemma {:induction false} ChainTail(g: Graph, causal: bool, p: seq<Event>)
    requires Chain(g, causal, p) && |p| > 2
    ensures Chain(g, causal, p[1..])
  {
    forall i | 0 <= i < |p[1..]| - 1 ensures Edge(g, causal, p[1..][i], p[1..][i + 1]) {
      assert Edge(g, causal, p[i + 1], p[i + 2]);
    }
  }

  // --------------------------------------------------------------- the handoff

  lemma {:induction false} ModuloApart(n: nat, a: nat, b: nat)
    requires n > 0 && a % n == b % n && a < b
    ensures a + n <= b
  {
    QuotientStep(n, a / n, b / n);
  }

  lemma {:induction false} QuotientStep(n: nat, p: nat, q: nat)
    requires n * p < n * q
    ensures n * p + n <= n * q
  {
    if q > p {
      assert n * q == n * p + n * (q - p);
      Words.MulAtLeast(n, q - p);
    } else if q < p {
      assert n * p == n * q + n * (p - q);
    }
  }

  /** The k-th publication carries everything written up to ticket k to whoever
      acquires a covering one. */
  lemma {:induction false} WriteReachesRead(g: Graph, causal: bool, k: nat, k': nat, w: nat)
    requires g.n > 0 && Covering(g) && k <= k' < g.m && w < WORDS
    requires causal || g.publishReleases
    ensures Reaches(g, causal, Write(k, w), Read(k', w))
  {
    var j := g.publishRead(k');
    OneEdge(g, causal, Write(k, w), Publish(j));
    OneEdge(g, causal, Publish(j), AcquirePublished(k'));
    OneEdge(g, causal, AcquirePublished(k'), Read(k', w));
    Compose(g, causal, Write(k, w), Publish(j), AcquirePublished(k'));
    Compose(g, causal, Write(k, w), AcquirePublished(k'), Read(k', w));
  }

  /** The reclamation a writer acquires covers every read of the slot's last lap. */
  lemma {:induction false} ReadReachesWrite(g: Graph, causal: bool, k: nat, k': nat, w: nat)
    requires g.n > 0 && Covering(g) && k + g.n <= k' < g.m && w < WORDS
    requires causal || g.reclaimReleases
    ensures Reaches(g, causal, Read(k, w), Write(k', w))
  {
    var j := g.reclaimRead(k');
    OneEdge(g, causal, Read(k, w), Reclaim(j));
    OneEdge(g, causal, Reclaim(j), AcquireReclaimed(k'));
    OneEdge(g, causal, AcquireReclaimed(k'), Write(k', w));
    Compose(g, causal, Read(k, w), Reclaim(j), AcquireReclaimed(k'));
    Compose(g, causal, Read(k, w), AcquireReclaimed(k'), Write(k', w));
  }

  ghost predicate Ordered(g: Graph) {
    && (g.publishReleases || g.m == 0)
    && (g.reclaimReleases || g.m <= g.n)
  }

  lemma {:induction false} ConflictOrdered(g: Graph, a: Event, b: Event)
    requires g.n > 0 && Covering(g) && Ordered(g)
    requires In(g, a) && In(g, b) && Plain(a) && Plain(b) && SameWord(g, a, b)
    requires Thread(a) < Thread(b) && !(a.Read? && b.Read?)
    ensures HappensBefore(g, a, b) || HappensBefore(g, b, a)
  {
    if a.InitWord? {
      OneEdge(g, false, a, b);
    } else {
      if a.k <= b.k {
        WriteReachesRead(g, false, a.k, b.k, a.word);
      } else {
        ModuloApart(g.n, b.k, a.k);
        ReadReachesWrite(g, false, b.k, a.k, a.word);
      }
    }
  }

  /** Release cursors make every conflicting pair of slot accesses ordered. */
  lemma {:induction false} ReleaseIsRaceFree(g: Graph)
    requires g.n > 0 && Covering(g) && Ordered(g)
    ensures RaceFree(g)
  {
    forall a, b ensures !Race(g, a, b) {
      if Race(g, a, b) {
        if Thread(a) < Thread(b) { ConflictOrdered(g, a, b); } else { ConflictOrdered(g, b, a); }
      }
    }
  }

  /** Each consumer read of ticket k sees exactly the producer's write of ticket k:
      it is the one latest visible write. */
  lemma {:induction false} ReadSeesItsTicket(g: Graph, k: nat, w: nat, e: Event)
    requires Consistent(g) && Ordered(g) && k < g.m && w < WORDS
    ensures Latest(g, e, Read(k, w)) <==> e == Write(k, w)
  {
    var r, mine := Read(k, w), Write(k, w);
    WriteReachesRead(g, false, k, k, w);
    forall v | Visible(g, v, r) && v != mine
      ensures HappensBefore(g, v, mine) && !HappensBefore(g, mine, v)
    {
      if v.Write? && v.k > k {
        ModuloApart(g.n, k, v.k);
        ReadReachesWrite(g, true, k, v.k, w);
        NotBackwards(g, r, v);
      }
      OneEdge(g, false, v, mine);
      OneEdge(g, true, v, mine);
      NotBackwards(g, v, mine);
    }
  }

  // ---------------------------------------------------------------- necessity

  /** Without release on a thread's cursor nothing leaves that thread. */
  lemma {:induction false} StaysInThread(g: Graph, p: seq<Event>, thread: int)
    requires Chain(g, false, p) && thread >= 0 && Thread(p[0]) == thread
    requires thread == 0 ==> !g.publishReleases
    requires thread == 1 ==> !g.reclaimReleases
    ensures Thread(p[|p| - 1]) == thread
    decreases |p|
  {
    assert Edge(g, false, p[0], p[1]);
    if |p| > 2 {
      ChainTail(g, false, p);
      StaysInThread(g, p[1..], thread);
    }
  }

  lemma {:induction false} NeverLeaves(g: Graph, a: Event, b: Event)
    requires Thread(a) >= 0 && Thread(b) != Thread(a)
    requires Thread(a) == 0 ==> !g.publishReleases
    requires Thread(a) == 1 ==> !g.reclaimReleases
    ensures !HappensBefore(g, a, b)
  {
    if HappensBefore(g, a, b) {
      var p :| Chain(g, false, p) && p[0] == a && p[|p| - 1] == b;
      StaysInThread(g, p, Thread(a));
    }
  }

  /** Both releases are needed: a consistent graph is race-free exactly when the
      publications release (if anything is published) and the reclamations release
      (if any slot is reused). */
  lemma {:induction false} RaceFreeExactly(g: Graph)
    requires Consistent(g)
    ensures RaceFree(g) <==> Ordered(g)
  {
    if Ordered(g) {
      ReleaseIsRaceFree(g);
    } else if !g.publishReleases && g.m > 0 {
      var a, b := Write(0, 0), Read(0, 0);
      NeverLeaves(g, a, b);
      WriteReachesRead(g, true, 0, 0, 0);
      NotBackwards(g, a, b);
      assert Race(g, a, b);
    } else {
      var a, b := Read(0, 0), Write(g.n, 0);
      NeverLeaves(g, a, b);
      ReadReachesWrite(g, true, 0, g.n, 0);
      NotBackwards(g, a, b);
      ModuloSelf(g.n);
      assert Race(g, a, b);
    }
  }

  lemma {:induction false} ModuloSelf(n: nat)
    requires n > 0
    ensures n % n == 0 && 0 % n == 0
  {
  }

  // --------------------------------------------------------------- satisfiability

  /** The execution in which every load reads the oldest covering store. */
  function Lockstep(n: nat, m: nat, publishReleases: bool, reclaimReleases: bool): Graph {
    Graph(n, m, publishReleases, reclaimReleases, k => k, (k: nat) => if k >= n then k - n else 0)
  }

  /** A schedule of that execution in which the consumer runs d tickets behind. */
  function Clock(d: nat, e: Event): int {
    match e
    case InitCursor(_) => -1
    case InitWord(_, _) => -1
    case AcquireReclaimed(k) => 10 * k
    case Write(k, w) => 10 * k + 1 + w
    case Publish(k) => 10 * k + 4
    case AcquirePublished(k) => 10 * (k + d) - 5
    case Read(k, w) => 10 * (k + d) - 4 + w
    case Reclaim(k) => 10 * (k + d) - 1
  }

  ghost predicate IsLockstep(g: Graph) {
    && g.n > 0
    && (forall k :: g.publishRead(k) == k)
    && (forall k :: k >= g.n ==> g.reclaimRead(k) == k - g.n)
  }

  lemma {:induction false} SequencedRises(d: nat, a: Event, b: Event, g: Graph)
    requires 1 <= d && In(g, a) && In(g, b) && Sequenced(a, b)
    ensures Clock(d, a) < Clock(d, b)
  {
  }

  lemma {:induction false} EdgeRises(g: Graph, causal: bool, d: nat, a: Event, b: Event)
    requires IsLockstep(g) && 1 <= d <= g.n && Edge(g, causal, a, b)
    ensures Clock(d, a) < Clock(d, b)
  {
    if Sequenced(a, b) { SequencedRises(d, a, b, g); }
  }

  lemma {:induction false} ClockRises(g: Graph, causal: bool, d: nat, p: seq<Event>)
    requires IsLockstep(g) && 1 <= d <= g.n && Chain(g, causal, p)
    ensures Clock(d, p[0]) < Clock(d, p[|p| - 1])
    decreases |p|
  {
    EdgeRises(g, causal, d, p[0], p[1]);
    if |p| > 2 {
      ChainTail(g, causal, p);
      ClockRises(g, causal, d, p[1..]);
      assert p[1..][0] == p[1] && p[1..][|p[1..]| - 1] == p[|p| - 1];
    }
  }

  lemma {:induction false} ReachesRises(g: Graph, causal: bool, d: nat, a: Event, b: Event)
    requires IsLockstep(g) && 1 <= d <= g.n && Reaches(g, causal, a, b)
    ensures Clock(d, a) < Clock(d, b)
  {
    var p :| Chain(g, causal, p) && p[0] == a && p[|p| - 1] == b;
    ClockRises(g, causal, d, p);
  }

  lemma {:induction false} LockstepCoherent(g: Graph, r: Event, v: Event, x: bool)
    requires IsLockstep(g) && In(g, r) && In(g, v) && LoadsCursor(r, x)
    ensures OnCursor(v, x) && HappensBefore(g, v, r) ==> Order(v) <= OrderRead(g, r)
    ensures OnCursor(v, x) && HappensBefore(g, r, v) ==> OrderRead(g, r) < Order(v)
    ensures LoadsCursor(v, x) && HappensBefore(g, r, v) ==> OrderRead(g, r) <= OrderRead(g, v)
  {
    var d := if x then g.n else 1;
    if HappensBefore(g, v, r) { ReachesRises(g, false, d, v, r); }
    if HappensBefore(g, r, v) { ReachesRises(g, false, d, r, v); }
  }

  /** Consistent graphs exist for every n, m and choice of cursor orders. */
  lemma {:induction false} LockstepConsistent(n: nat, m: nat, publishReleases: bool, reclaimReleases: bool)
    requires n > 0
    ensures Consistent(Lockstep(n, m, publishReleases, reclaimReleases))
  {
    var g := Lockstep(n, m, publishReleases, reclaimReleases);
    forall a ensures !Reaches(g, true, a, a) {
      if Reaches(g, true, a, a) { ReachesRises(g, true, 1, a, a); }
    }
    forall r, v, x | In(g, r) && In(g, v) && LoadsCursor(r, x)
      ensures OnCursor(v, x) && HappensBefore(g, v, r) ==> Order(v) <= OrderRead(g, r)
      ensures OnCursor(v, x) && HappensBefore(g, r, v) ==> OrderRead(g, r) < Order(v)
      ensures LoadsCursor(v, x) && HappensBefore(g, r, v) ==> OrderRead(g, r) <= OrderRead(g, v)
    {
      LockstepCoherent(g, r, v, x);
    }
  }
}
