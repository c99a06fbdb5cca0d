/** The Python buffer exporters over one lease (bindings/python/elite_buffer.c),
    composed with the lease state of the Python package and the native view count.
    Calls into Python or into the native library are split at the points where other
    code can run; any pending call may go on next, so every nesting of callbacks and
    every switch of threads is included. */
module Exporter {

  /** Progress of close_buffer through its _drop_view_pin callback. */
  datatype Stage = Open | Entry | Ending | Ended

  /** One exporter object; `held` and `pending` split what `exports` counts, `unpins`
      counts its native view_end calls that took effect, `doubt` says one of them was
      interrupted, `failed` that the last close attempt failed, which was reported, and
      that none has started since. */
  datatype Exporter = Exporter(
    exports: nat, held: nat, pending: nat, closed: bool, closing: bool, closeRequested: bool,
    address: bool, stage: Stage, unpins: nat, doubt: bool, failed: bool)

  /** Auxiliary: on whose behalf the lease's single view pin is taken. */
  datatype Owner = Nobody | Retaining | Creating | Undoing(stage: Stage) | Serving(e: nat) | Lost

  /** `active`, `viewPin`, `uncertain`, `cleanupRequested` are the Python lease state;
      `owned`, `views` the native connection's; `finishing` counts transfers past their
      Python checks, `landed` those that took effect but are not yet recorded. */
  datatype Lease = Lease(
    active: bool, viewPin: bool, uncertain: bool, cleanupRequested: bool,
    owned: bool, views: nat, finishing: nat, landed: nat,
    owner: Owner, exporters: seq<Exporter>)

  /** How a native call came back: an interruption hides whether it took effect. */
  datatype Native = Done | Refused | Interrupted(effective: bool)

  datatype Action =
    | Get(e: nat)
    | GetEnds(e: nat, filled: bool)
    | Release(e: nat)
    | Close(e: nat)
    | Finalize(e: nat)
    | CloseEntry(e: nat)
    | CloseNative(e: nat, native: Native)
    | CloseEnded(e: nat)
    | Retain
    | RetainNative(native: Native)
    | Create(created: bool)
    | Undo(native: Native)
    | FinishStart
    | FinishNative(native: Native)
    | FinishLands
    | RequestCleanup

  predicate Live(l: Lease) { l.active && !l.uncertain }

  predicate Enabled(l: Lease, a: Action) {
    match a
    case Get(e) => e < |l.exporters|
    case GetEnds(e, _) => e < |l.exporters| && l.exporters[e].pending > 0 && l.exporters[e].exports > 0
    case Release(e) => e < |l.exporters| && l.exporters[e].held > 0 && l.exporters[e].exports > 0
    case Close(e) => e < |l.exporters|
    case Finalize(e) => e < |l.exporters|
    case CloseEntry(e) => e < |l.exporters| && l.exporters[e].stage.Entry?
    case CloseNative(e, _) => e < |l.exporters| && l.exporters[e].stage.Ending?
    case CloseEnded(e) => e < |l.exporters| && l.exporters[e].stage.Ended?
    // `buffer` asks for a new pin only when it has no exporter or a closed one.
    case Retain => l.exporters == [] || l.exporters[|l.exporters| - 1].closed
    case RetainNative(_) => l.owner.Retaining?
    case Create(_) => l.owner.Creating?
    case Undo(_) => l.owner.Undoing? && !l.owner.stage.Open?
    case FinishStart => true
    case FinishNative(_) => l.finishing > 0
    case FinishLands => l.landed > 0
    case RequestCleanup => true
  }

  function Put(l: Lease, e: nat, x: Exporter): (m: Lease)
    requires e < |l.exporters|
    ensures |m.exporters| == |l.exporters|
  {
    l.(exporters := l.exporters[e := x])
  }

  /** close_buffer up to its callback. */
  function Closing(x: Exporter): Exporter {
    if x.closing || x.closed || x.exports != 0 then x
    else x.(closing := true, closed := true, stage := Entry, failed := false)
  }

  /** The tail of buffer_release and rollback_export: a requested close runs when the
      last acquisition is gone. */
  function Dropped(x: Exporter): Exporter
    requires x.exports > 0
  {
    var y := x.(exports := x.exports - 1);
    if y.exports == 0 && y.closeRequested && !y.closed then Closing(y) else y
  }

  function CloseFailed(x: Exporter): Exporter { x.(closed := false, closing := false, stage := Open, failed := true) }

  function CloseDone(x: Exporter): Exporter { x.(closing := false, stage := Open, address := false) }

  /** view_end on the native connection. */
  predicate Ends(l: Lease, n: Native) {
    l.owned && l.views > 0 && (n.Done? || (n.Interrupted? && n.effective))
  }

  /** cleanup(): a transfer starts unless the lease is over, uncertain or pinned. */
  function Cleaned(l: Lease): (m: Lease)
    ensures m.exporters == l.exporters
  {
    if Live(l) && !l.viewPin then l.(finishing := l.finishing + 1) else l
  }

  function Unpinned(l: Lease): (m: Lease)
    ensures m.exporters == l.exporters
  {
    var m := l.(viewPin := false, owner := Nobody);
    if l.cleanupRequested then Cleaned(m) else m
  }

  function Apply(l: Lease, a: Action): (m: Lease)
    requires Enabled(l, a)
    ensures |l.exporters| <= |m.exporters|
  {
    match a
    case Get(e) =>
      var x := l.exporters[e];
      if x.closed || x.closeRequested then l
      else Put(l, e, x.(exports := x.exports + 1, pending := x.pending + 1))
    case GetEnds(e, filled) =>
      var x := l.exporters[e].(pending := l.exporters[e].pending - 1);
      if Live(l) && filled then Put(l, e, x.(held := x.held + 1)) else Put(l, e, Dropped(x))
    case Release(e) =>
      Put(l, e, Dropped(l.exporters[e].(held := l.exporters[e].held - 1)))
    case Close(e) => Put(l, e, Closing(l.exporters[e]))
    case Finalize(e) => Put(l, e, Closing(l.exporters[e].(closeRequested := true)))
    case CloseEntry(e) =>
      if !l.viewPin then Put(l, e, CloseDone(l.exporters[e]))
      else if !Live(l) then Put(l, e, CloseFailed(l.exporters[e]))
      else Put(l, e, l.exporters[e].(stage := Ending))
    case CloseNative(e, n) => Ended(l, e, n)
    case CloseEnded(e) => Unpinned(Put(l, e, CloseDone(l.exporters[e])))
    case Retain => if Live(l) && !l.viewPin then l.(viewPin := true, owner := Retaining) else l
    case RetainNative(n) =>
      if n.Interrupted? then
        l.(uncertain := true, owner := Lost, views := if l.owned && n.effective then l.views + 1 else l.views)
      else if n.Done? && l.owned then l.(views := l.views + 1, owner := Creating)
      else l.(viewPin := false, owner := Nobody)
    case Create(created) =>
      if created then
        l.(exporters := l.exporters + [Exporter(0, 0, 0, false, false, false, true, Open, 0, false, false)],
           owner := Serving(|l.exporters|))
      else l.(owner := Undoing(Entry))
    case Undo(n) => Undone(l, n)
    case FinishStart => if Live(l) && !l.viewPin then l.(finishing := l.finishing + 1) else l
    case FinishNative(n) =>
      var m := l.(finishing := l.finishing - 1);
      // every native transfer refuses a lease that still has a view
      var moves := l.owned && l.views == 0 && (n.Done? || (n.Interrupted? && n.effective));
      m.(owned := l.owned && !moves, uncertain := l.uncertain || n.Interrupted?,
         landed := if moves && n.Done? then l.landed + 1 else l.landed)
    case FinishLands => l.(active := false, landed := l.landed - 1)
    case RequestCleanup => Cleaned(l.(cleanupRequested := true))
  }

  function Ended(l: Lease, e: nat, n: Native): (m: Lease)
    requires e < |l.exporters|
    ensures m.exporters == l.exporters[e := Unpinning(l.exporters[e], n, Ends(l, n))]
  {
    Put(l.(views := if Ends(l, n) then l.views - 1 else l.views, uncertain := l.uncertain || n.Interrupted?),
        e, Unpinning(l.exporters[e], n, Ends(l, n)))
  }

  /** The exporter after the native view_end of its close, which `took` effect or not. */
  function Unpinning(x: Exporter, n: Native, took: bool): (y: Exporter)
    ensures y.exports == x.exports
  {
    var y := x.(unpins := if took then x.unpins + 1 else x.unpins);
    if n.Interrupted? then CloseFailed(y.(doubt := true))
    else if took then y.(stage := Stage.Ended)
    else CloseFailed(y)
  }

  /** _drop_view_pin when the exporter object could not be created. */
  function Undone(l: Lease, n: Native): (m: Lease)
    requires l.owner.Undoing? && !l.owner.stage.Open?
    ensures m.exporters == l.exporters
  {
    match l.owner.stage
    case Entry => if Live(l) then l.(owner := Undoing(Ending)) else l.(owner := Lost)
    case Ending =>
      var took := Ends(l, n);
      l.(views := if took then l.views - 1 else l.views, uncertain := l.uncertain || n.Interrupted?,
         owner := if n.Done? && took then Undoing(Stage.Ended) else Lost)
    case Ended => Unpinned(l)
  }

  // -------------------------------------------------------------------- invariant

  /** close() has finished for good. */
  predicate Finished(x: Exporter) { x.closed && !x.closing }

  predicate ExporterOk(l: Lease, e: nat)
    requires e < |l.exporters|
  {
    var x := l.exporters[e];
    && x.exports == x.held + x.pending
    && (x.closing <==> !x.stage.Open?) && (x.closing ==> x.closed) && (x.closed ==> x.exports == 0)
    && (x.address <==> !Finished(x))
    && (l.owner == Serving(e) <==> !Finished(x))
    && x.unpins <= 1
    && (x.stage.Ended? || Finished(x) ==> x.unpins == 1)
    && (!x.stage.Ended? && !Finished(x) && !x.doubt ==> x.unpins == 0)
    && (x.doubt ==> l.uncertain && x.held == 0 && !Finished(x) && !x.stage.Ending? && !x.stage.Ended?)
    && (x.closeRequested && x.exports == 0 ==> x.closed || x.failed) && (x.failed ==> !x.closed)
  }

  predicate PinOk(l: Lease) {
    && (l.viewPin <==> !l.owner.Nobody?)
    && l.views <= 1 && (l.views > 0 ==> l.owned)
    && match l.owner
       case Nobody => l.views == 0
       case Retaining => l.views == 0
       case Creating => l.views == 1
       case Undoing(stage) => !stage.Open? && (l.views == 1 <==> !stage.Ended?)
       case Serving(e) =>
         && e < |l.exporters|
         && (l.exporters[e].stage.Ended? ==> l.views == 0)
         && (!l.exporters[e].stage.Ended? && !l.exporters[e].doubt ==> l.views == 1)
       case Lost => true
  }

  predicate Inv(l: Lease) {
    PinOk(l) && forall e :: 0 <= e < |l.exporters| ==> ExporterOk(l, e)
  }

  // ---------------------------------------------------------------- preservation

  /** Only exporter e changes, and neither the pin nor the other exporters' view of
      the lease with it. */
  lemma {:induction false} OneChanges(l: Lease, m: Lease, e: nat)
    requires Inv(l) && e < |l.exporters| == |m.exporters| && m.exporters == l.exporters[e := m.exporters[e]]
    requires ExporterOk(m, e) && PinOk(m) && (l.uncertain ==> m.uncertain)
    requires m.owner == l.owner || (l.owner == Serving(e) && m.owner.Nobody?)
    ensures Inv(m)
  {
    forall d | 0 <= d < |m.exporters| ensures ExporterOk(m, d) { assert ExporterOk(l, d); }
  }

  lemma {:induction false} NoneChanges(l: Lease, m: Lease)
    requires Inv(l) && m.exporters == l.exporters && PinOk(m) && (l.uncertain ==> m.uncertain)
    requires m.owner == l.owner || (!m.owner.Serving? && !l.owner.Serving?)
    ensures Inv(m)
  {
    forall d | 0 <= d < |m.exporters| ensures ExporterOk(m, d) { assert ExporterOk(l, d); }
  }

  lemma {:induction false} GetKeeps(l: Lease, e: nat)
    requires Inv(l) && Enabled(l, Get(e))
    ensures Inv(Apply(l, Get(e)))
  {
    assert ExporterOk(l, e);
    OneChanges(l, Apply(l, Get(e)), e);
  }

  lemma {:induction false} GetEndsKeeps(l: Lease, e: nat, filled: bool)
    requires Inv(l) && Enabled(l, GetEnds(e, filled))
    ensures Inv(Apply(l, GetEnds(e, filled)))
  {
    assert ExporterOk(l, e);
    OneChanges(l, Apply(l, GetEnds(e, filled)), e);
  }

  lemma {:induction false} ReleaseKeeps(l: Lease, a: Action)
    requires Inv(l) && Enabled(l, a) && (a.Release? || a.Close? || a.Finalize?)
    ensures Inv(Apply(l, a))
  {
    assert ExporterOk(l, a.e);
    OneChanges(l, Apply(l, a), a.e);
  }

  lemma {:induction false} UnpinKeeps(l: Lease, e: nat, n: Native)
    requires Inv(l) && e < |l.exporters| && l.exporters[e].stage.Ending?
    ensures Inv(Ended(l, e, n))
  {
    assert ExporterOk(l, e);
    OneChanges(l, Ended(l, e, n), e);
  }

  lemma {:induction false} CloseKeeps(l: Lease, a: Action)
    requires Inv(l) && Enabled(l, a) && (a.CloseEntry? || a.CloseEnded?)
    ensures Inv(Apply(l, a))
  {
    assert ExporterOk(l, a.e);
    OneChanges(l, Apply(l, a), a.e);
  }

  lemma {:induction false} CreateKeeps(l: Lease, a: Action)
    requires Inv(l) && Enabled(l, a) && a.Create?
    ensures Inv(Apply(l, a))
  {
    var m := Apply(l, a);
    forall d | 0 <= d < |m.exporters| ensures ExporterOk(m, d) {
      if d < |l.exporters| { assert ExporterOk(l, d); }
    }
  }

  lemma {:induction false} PinKeeps(l: Lease, a: Action)
    requires Inv(l) && Enabled(l, a) && (a.Retain? || a.RetainNative? || a.Undo?)
    ensures Inv(Apply(l, a))
  {
    NoneChanges(l, Apply(l, a));
  }

  lemma {:induction false} TransferKeeps(l: Lease, a: Action)
    requires Inv(l) && Enabled(l, a)
    requires a.FinishStart? || a.FinishNative? || a.FinishLands? || a.RequestCleanup?
    ensures Inv(Apply(l, a))
  {
    NoneChanges(l, Apply(l, a));
  }

  lemma {:induction false} StepKeeps(l: Lease, a: Action)
    requires Inv(l) && Enabled(l, a)
    ensures Inv(Apply(l, a))
  {
    if a.Get? {
      GetKeeps(l, a.e);
    } else if a.GetEnds? {
      GetEndsKeeps(l, a.e, a.filled);
    } else if a.Release? || a.Close? || a.Finalize? {
      ReleaseKeeps(l, a);
    } else if a.CloseNative? {
      UnpinKeeps(l, a.e, a.native);
    } else if a.CloseEntry? || a.CloseEnded? {
      CloseKeeps(l, a);
    } else if a.Create? {
      CreateKeeps(l, a);
    } else if a.Retain? || a.RetainNative? || a.Undo? {
      PinKeeps(l, a);
    } else {
      TransferKeeps(l, a);
    }
  }

  ghost predicate Run(l: Lease, acts: seq<Action>)
    decreases |acts|
  {
    |acts| == 0 || (Enabled(l, acts[0]) && Run(Apply(l, acts[0]), acts[1..]))
  }

  ghost function After(l: Lease, acts: seq<Action>): Lease
    requires Run(l, acts)
    decreases |acts|
  {
    if |acts| == 0 then l else After(Apply(l, acts[0]), acts[1..])
  }

  /** A lease just obtained: native ownership, no views, no exporter yet. */
  const ACQUIRED := Lease(true, false, false, false, true, 0, 0, 0, Nobody, [])

  lemma {:induction false} RunKeeps(l: Lease, acts: seq<Action>)
    requires Inv(l) && Run(l, acts)
    ensures Inv(After(l, acts))
    decreases |acts|
  {
    if acts != [] {
      StepKeeps(l, acts[0]);
      RunKeeps(Apply(l, acts[0]), acts[1..]);
    }
  }

  ghost predicate Reachable(l: Lease) { exists acts :: Run(ACQUIRED, acts) && l == After(ACQUIRED, acts) }

  lemma {:induction false} ReachableInv(l: Lease)
    requires Reachable(l)
    ensures Inv(l)
  {
    var acts :| Run(ACQUIRED, acts) && l == After(ACQUIRED, acts);
    RunKeeps(ACQUIRED, acts);
  }

  // ---------------------------------------------------------------------- theorems

  /** `exports` counts the held views and the pending acquisitions; while a view is
      held its memory is valid, the native pin is there and the slot is still ours.
      A pending acquisition has the same, unless an interrupted unpin left the lease
      uncertain, and then it cannot become a view. */
  lemma {:induction false} ExportsArePinned(l: Lease, e: nat)
    requires Reachable(l) && e < |l.exporters|
    ensures var x := l.exporters[e];
      && x.exports == x.held + x.pending
      && (x.held > 0 ==> x.address && !x.closed && l.viewPin && l.views == 1 && l.owned)
      && (x.exports > 0 ==> x.address && !x.closed && (l.uncertain || (l.views == 1 && l.owned)))
  {
    ReachableInv(l);
    assert ExporterOk(l, e);
  }

  /** No commit, abort, release or abandon takes the slot while any exporter has a
      view, whatever calls are nested or pending. */
  lemma {:induction false} NoTransferUnderViews(l: Lease, a: Action, e: nat)
    requires Reachable(l) && Enabled(l, a) && e < |l.exporters|
    requires l.owned && !Apply(l, a).owned
    ensures a.FinishNative? && l.views == 0 && l.exporters[e].held == 0
    ensures l.exporters[e].pending > 0 ==> l.uncertain
  {
    ReachableInv(l);
    assert ExporterOk(l, e);
  }

  /** At most one native unpin per exporter takes effect, exactly one once it has
      been closed for good. */
  lemma {:induction false} UnpinnedOnce(l: Lease, e: nat)
    requires Reachable(l) && e < |l.exporters|
    ensures l.exporters[e].unpins <= 1
    ensures Finished(l.exporters[e]) ==> l.exporters[e].unpins == 1 && !l.exporters[e].address
  {
    ReachableInv(l);
    assert ExporterOk(l, e);
  }

  /** A close requested by finalization is never forgotten: once nothing is exported
      any more it has run or is running, unless its last attempt failed and was reported;
      a further attempt starts afresh. */
  lemma {:induction false} DeferredCloseRuns(l: Lease, e: nat)
    requires Reachable(l) && e < |l.exporters|
    requires l.exporters[e].closeRequested && l.exporters[e].exports == 0
    ensures l.exporters[e].closed <==> !l.exporters[e].failed
    ensures var x := Apply(l, Close(e)).exporters[e]; x.closed && !x.failed
  {
    ReachableInv(l);
    assert ExporterOk(l, e);
  }

  /** ... and it is the release of the last view, or the failure of the last pending
      acquisition, that starts it. */
  lemma {:induction false} LastViewCloses(l: Lease, a: Action, e: nat)
    requires Reachable(l) && Enabled(l, a) && e < |l.exporters|
    requires l.exporters[e].closeRequested && l.exporters[e].exports > 0 && Apply(l, a).exporters[e].exports == 0
    ensures Apply(l, a).exporters[e].closing && Apply(l, a).exporters[e].stage.Entry?
    ensures a == Release(e) || (a.GetEnds? && a.e == e)
  {
    ReachableInv(l);
    assert ExporterOk(l, e);
    if !a.Release? && !a.GetEnds? { KeepsExports(l, a, e); }
  }

  lemma {:induction false} KeepsExports(l: Lease, a: Action, e: nat)
    requires Enabled(l, a) && e < |l.exporters| && !a.Release? && !a.GetEnds?
    ensures Apply(l, a).exporters[e].exports >= l.exporters[e].exports
  {
    match a
    case Get(d) => assert d != e ==> Apply(l, a).exporters[e] == l.exporters[e];
    case Close(d) => assert d != e ==> Apply(l, a).exporters[e] == l.exporters[e];
    case Finalize(d) => assert d != e ==> Apply(l, a).exporters[e] == l.exporters[e];
    case CloseEntry(d) => assert d != e ==> Apply(l, a).exporters[e] == l.exporters[e];
    case CloseNative(d, n) => assert Apply(l, a) == Ended(l, d, n);
    case CloseEnded(d) => assert d != e ==> Apply(l, a).exporters[e] == l.exporters[e];
    case Release(_) =>
    case GetEnds(_, _) =>
    case _ => assert Apply(l, a).exporters[e] == l.exporters[e];
  }

  /** At most one exporter of a lease is unfinished at any time. */
  lemma {:induction false} OneExporterServes(l: Lease, d: nat, e: nat)
    requires Reachable(l) && d < |l.exporters| && e < |l.exporters|
    requires !Finished(l.exporters[d]) && !Finished(l.exporters[e])
    ensures d == e
  {
    ReachableInv(l);
    assert ExporterOk(l, d) && ExporterOk(l, e);
  }
}
