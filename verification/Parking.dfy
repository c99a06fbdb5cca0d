/** The parking protocol of src/elite_wait.c: one waiter on one wait word, any
    number of notifiers, release/acquire visibility.  A plain acquire load may return
    any value the reader is not already obliged to see; an exchange of the wait word
    carries the views of all earlier exchanges with it. */
module Parking {

  /** What a thread, or the wait word, is known to have seen. */
  datatype View = View(peer: nat, retired: bool)

  function Join(a: View, b: View): View {
    View(if a.peer < b.peer then b.peer else a.peer, a.retired || b.retired)
  }

  predicate Within(a: View, b: View) { a.peer <= b.peer && (a.retired ==> b.retired) }

  datatype Answer = Ready | Empty | Retired | Integrity | OsError

  datatype Round = First | Armed | Later(broken: bool) | Final

  datatype Sequel = Recheck(broken: bool) | Last | Return(answer: Answer)

  /** Where el_wait stands. */
  datatype Waiter =
    | Out(answer: Answer)
    | ReadGate(round: Round)
    | ReadPeer(round: Round)
    | Deadline
    | Arm
    | Clock
    | Sleep
    | Asleep
    | Disarm(next: Sequel)

  /** A commit, release or retire call: after its store it owes the exchange, and
      after exchanging a 1 away it owes the wake. */
  datatype Notifier = Rest | Posted(view: View) | Waking

  /** `data` selects wait_data (the peer cursor is `published`) or wait_space (the
      peer cursor is `reclaimed`). */
  datatype Setting = Setting(data: bool, capacity: nat, ceiling: nat)

  /** `missed` is auxiliary: some wake of the present sleep failed. */
  datatype Park = Park(
    peer: nat, retired: bool, word: nat, wordView: View,
    waiter: Waiter, cursor: nat, view: View, poll: bool, notifiers: seq<Notifier>, missed: bool)

  predicate Sane(s: Setting, cursor: nat, peer: nat) {
    peer <= s.ceiling && if s.data then cursor <= peer <= cursor + s.capacity else peer <= cursor
  }

  predicate IsReady(s: Setting, cursor: nat, peer: nat) {
    if s.data then peer > cursor else cursor < peer + s.capacity
  }

  datatype Action =
    | Call(poll: bool)
    | Look(peer: nat)
    | Advance
    | LoadGate(retired: bool)
    | LoadPeer(peer: nat)
    | ReadClock(late: bool, broken: bool)
    | WaiterStep
    | WakeUp(broken: bool)
    | Publish(i: nat)
    | Retire(i: nat)
    | Exchange(i: nat)
    | Wake(i: nat, failed: bool)

  predicate Enabled(s: Setting, p: Park, a: Action) {
    match a
    case Call(_) => p.waiter.Out?
    case Look(peer) => p.waiter.Out? && p.view.peer <= peer <= p.peer
    // outside wait: consume a message known to be there, or publish into known space
    case Advance => p.waiter.Out? && IsReady(s, p.cursor, p.view.peer)
    case LoadGate(retired) => p.waiter.ReadGate? && (p.view.retired ==> retired) && (retired ==> p.retired)
    case LoadPeer(peer) => p.waiter.ReadPeer? && p.view.peer <= peer <= p.peer
    case ReadClock(_, _) => p.waiter.Deadline? || p.waiter.Clock?
    case WaiterStep => p.waiter.Arm? || p.waiter.Sleep? || p.waiter.Disarm?
    // spurious wake-up, interruption or the end of the time slice
    case WakeUp(_) => p.waiter.Asleep?
    case Publish(i) => i < |p.notifiers| && p.notifiers[i].Rest? && Sane(s, p.cursor, p.peer + 1)
    case Retire(i) => i < |p.notifiers| && p.notifiers[i].Rest?
    case Exchange(i) => i < |p.notifiers| && p.notifiers[i].Posted?
    // the system call may fail; the notifying call then answers OS_ERROR
    case Wake(i, _) => i < |p.notifiers| && p.notifiers[i].Waking?
  }

  /** The predicate has answered in a round of el_wait. */
  function Answered(poll: bool, round: Round, a: Answer): Waiter {
    match round
    case First => if a.Empty? && !poll then Deadline else Out(a)
    case Armed => if a.Empty? then Clock else Disarm(Return(a))
    case Later(broken) => if !a.Empty? then Out(a) else if broken then Out(OsError) else Deadline
    case Final => Out(a)
  }

  function Verdict(s: Setting, cursor: nat, peer: nat): Answer {
    if !Sane(s, cursor, peer) then Integrity else if IsReady(s, cursor, peer) then Ready else Empty
  }

  function Apply(s: Setting, p: Park, a: Action): Park
    requires Enabled(s, p, a)
  {
    match a
    case Call(poll) => p.(waiter := ReadGate(First), poll := poll)
    case Look(peer) => p.(view := p.view.(peer := peer))
    case Advance => p.(cursor := p.cursor + 1)
    case LoadGate(retired) =>
      p.(view := p.view.(retired := retired),
         waiter := if retired then Answered(p.poll, p.waiter.round, Retired) else ReadPeer(p.waiter.round))
    case LoadPeer(peer) =>
      p.(view := p.view.(peer := peer), waiter := Answered(p.poll, p.waiter.round, Verdict(s, p.cursor, peer)))
    case ReadClock(late, broken) =>
      if p.waiter.Deadline? then
        p.(waiter := if broken then Out(OsError) else if late then ReadGate(Final) else Arm)
      else
        p.(waiter := if broken then Disarm(Return(OsError)) else if late then Disarm(Last) else Sleep)
    case WaiterStep => WaiterMoves(p)
    case WakeUp(broken) => p.(waiter := Disarm(Recheck(broken)))
    case Publish(i) =>
      p.(peer := p.peer + 1, notifiers := p.notifiers[i := Posted(View(p.peer + 1, false))])
    case Retire(i) => p.(retired := true, notifiers := p.notifiers[i := Posted(View(0, true))])
    case Exchange(i) =>
      p.(word := 0, wordView := Join(p.wordView, p.notifiers[i].view),
         notifiers := p.notifiers[i := if p.word == 1 then Waking else Rest])
    case Wake(i, failed) =>
      p.(notifiers := p.notifiers[i := Rest],
         missed := p.missed || (failed && p.waiter.Asleep?),
         waiter := if p.waiter.Asleep? && !failed then Disarm(Recheck(false)) else p.waiter)
  }

  function WaiterMoves(p: Park): Park
    requires p.waiter.Arm? || p.waiter.Sleep? || p.waiter.Disarm?
  {
    var both := Join(p.view, p.wordView);
    match p.waiter
    case Arm =>
      p.(word := 1, view := both, wordView := both,
         waiter := if p.word > 1 then Disarm(Return(Integrity)) else ReadGate(Armed))
    // the kernel compares the word with 1 and blocks, atomically
    case Sleep => p.(missed := false, waiter := if p.word == 1 then Asleep else Disarm(Recheck(false)))
    case Disarm(next) =>
      p.(word := 0, view := both, wordView := both,
         waiter := match next
                   case Recheck(broken) => ReadGate(Later(broken))
                   case Last => ReadGate(Final)
                   case Return(a) => Out(a))
  }

  // -------------------------------------------------------------------- invariant

  /** The waiter has its 1 in place, or is about to take it away. */
  predicate Holding(w: Waiter) {
    || w.Clock? || w.Sleep? || w.Asleep? || w.Disarm?
    || (w.ReadGate? && w.round.Armed?) || (w.ReadPeer? && w.round.Armed?)
  }

  predicate Owed(n: Notifier) { n.Posted? || n.Waking? }

  ghost predicate PeerCarried(p: Park) {
    p.wordView.peer == p.peer
    || exists i :: 0 <= i < |p.notifiers| && p.notifiers[i].Posted? && p.notifiers[i].view.peer == p.peer
  }

  ghost predicate RetiredCarried(p: Park) {
    p.retired ==>
      || p.wordView.retired
      || exists i :: 0 <= i < |p.notifiers| && p.notifiers[i].Posted? && p.notifiers[i].view.retired
  }

  predicate ViewsTrue(p: Park) {
    && Within(p.wordView, View(p.peer, p.retired)) && Within(p.view, View(p.peer, p.retired))
    && forall i :: 0 <= i < |p.notifiers| && p.notifiers[i].Posted? ==>
         Within(p.notifiers[i].view, View(p.peer, p.retired))
  }

  ghost predicate WaiterOk(s: Setting, p: Park) {
    && p.word <= 1
    && (p.word == 1 ==> Holding(p.waiter))
    && (p.word == 1 && !p.waiter.Disarm? ==> Within(p.wordView, p.view))
    && (p.waiter.ReadPeer? ==> !p.view.retired)
    && (p.waiter.Clock? || p.waiter.Sleep? || p.waiter.Asleep? ==>
          !p.view.retired && !IsReady(s, p.cursor, p.view.peer))
    && (p.waiter.Asleep? && p.word == 0 ==>
          p.missed || exists i :: 0 <= i < |p.notifiers| && p.notifiers[i].Waking?)
    && (s.data ==> p.view.peer >= p.cursor)
    && (p.waiter.Disarm? && p.waiter.next.Return? ==> !p.waiter.next.answer.Integrity?)
    && (p.waiter.Out? ==> !p.waiter.answer.Integrity?)
  }

  ghost predicate Inv(s: Setting, p: Park) {
    Sane(s, p.cursor, p.peer) && ViewsTrue(p) && PeerCarried(p) && RetiredCarried(p) && WaiterOk(s, p)
  }

  // ---------------------------------------------------------------- preservation

  lemma {:induction false} MovesKeep(s: Setting, p: Park)
    requires Inv(s, p) && (p.waiter.Arm? || p.waiter.Sleep? || p.waiter.Disarm?)
    ensures Inv(s, WaiterMoves(p))
  {
  }

  lemma {:induction false} LoadKeeps(s: Setting, p: Park, a: Action)
    requires Inv(s, p) && Enabled(s, p, a) && (a.LoadGate? || a.LoadPeer?)
    ensures Inv(s, Apply(s, p, a))
  {
  }

  lemma {:induction false} PrivateKeeps(s: Setting, p: Park, a: Action)
    requires Inv(s, p) && Enabled(s, p, a)
    requires a.Call? || a.Look? || a.Advance? || a.ReadClock? || a.WakeUp?
    ensures Inv(s, Apply(s, p, a))
  {
  }

  lemma {:induction false} PostKeeps(s: Setting, p: Park, a: Action)
    requires Inv(s, p) && Enabled(s, p, a) && (a.Publish? || a.Retire?)
    ensures Inv(s, Apply(s, p, a))
  {
    var q := Apply(s, p, a);
    assert q.notifiers[a.i].Posted?;
    forall i | 0 <= i < |p.notifiers| && i != a.i ensures q.notifiers[i] == p.notifiers[i] {}
  }

  lemma {:induction false} ExchangeKeeps(s: Setting, p: Park, a: Action)
    requires Inv(s, p) && Enabled(s, p, a) && a.Exchange?
    ensures Inv(s, Apply(s, p, a))
  {
    var q := Apply(s, p, a);
    forall i | 0 <= i < |p.notifiers| && i != a.i ensures q.notifiers[i] == p.notifiers[i] {}
    if p.word == 1 { assert q.notifiers[a.i].Waking?; }
  }

  lemma {:induction false} WakeKeeps(s: Setting, p: Park, a: Action)
    requires Inv(s, p) && Enabled(s, p, a) && a.Wake?
    ensures Inv(s, Apply(s, p, a))
  {
    var q := Apply(s, p, a);
    forall i | 0 <= i < |p.notifiers| && i != a.i ensures q.notifiers[i] == p.notifiers[i] {}
  }

  lemma {:induction false} StepKeeps(s: Setting, p: Park, a: Action)
    requires Inv(s, p) && Enabled(s, p, a)
    ensures Inv(s, Apply(s, p, a))
  {
    match a
    case Publish(_) => PostKeeps(s, p, a);
    case Retire(_) => PostKeeps(s, p, a);
    case Exchange(_) => ExchangeKeeps(s, p, a);
    case Wake(_, _) => WakeKeeps(s, p, a);
    case WaiterStep => MovesKeep(s, p);
    case LoadGate(_) => LoadKeeps(s, p, a);
    case LoadPeer(_) => LoadKeeps(s, p, a);
    case _ => PrivateKeeps(s, p, a);
  }

  ghost predicate Run(s: Setting, p: Park, acts: seq<Action>)
    decreases |acts|
  {
    |acts| == 0 || (Enabled(s, p, acts[0]) && Run(s, Apply(s, p, acts[0]), acts[1..]))
  }

  ghost function After(s: Setting, p: Park, acts: seq<Action>): Park
    requires Run(s, p, acts)
    decreases |acts|
  {
    if |acts| == 0 then p else After(s, Apply(s, p, acts[0]), acts[1..])
  }

  /** A wait call about to start: the word is 0, nobody owes anything, and everything
      published so far has been notified. */
  predicate Initial(s: Setting, p: Park) {
    && Sane(s, p.cursor, p.peer) && p.word == 0 && p.waiter == Out(Empty) && !p.missed
    && Within(p.view, View(p.peer, p.retired)) && (s.data ==> p.view.peer >= p.cursor)
    && p.wordView == View(p.peer, p.retired)
    && forall i :: 0 <= i < |p.notifiers| ==> p.notifiers[i].Rest?
  }

  lemma {:induction false} RunKeeps(s: Setting, p: Park, acts: seq<Action>)
    requires Inv(s, p) && Run(s, p, acts)
    ensures Inv(s, After(s, p, acts))
    decreases |acts|
  {
    if acts != [] {
      StepKeeps(s, p, acts[0]);
      RunKeeps(s, Apply(s, p, acts[0]), acts[1..]);
    }
  }

  ghost predicate Reachable(s: Setting, p: Park) {
    exists start, acts :: Initial(s, start) && Run(s, start, acts) && p == After(s, start, acts)
  }

  lemma {:induction false} ReachableInv(s: Setting, p: Park)
    requires Reachable(s, p)
    ensures Inv(s, p)
  {
    var start, acts :| Initial(s, start) && Run(s, start, acts) && p == After(s, start, acts);
    assert Inv(s, start);
    RunKeeps(s, start, acts);
  }

  // ---------------------------------------------------------------------- theorems

  /** Something to report: what the waiter waits for, or the retirement. */
  predicate News(s: Setting, p: Park) { IsReady(s, p.cursor, p.peer) || p.retired }

  /** Whenever the waiter is asleep with news to report, some notifier still owes the
      exchange, or has exchanged and still owes the wake, or the system call that should
      have woken it failed. */
  lemma {:induction false} NoLostWakeup(s: Setting, p: Park)
    requires Reachable(s, p) && p.waiter.Asleep? && News(s, p)
    ensures p.missed || exists i :: 0 <= i < |p.notifiers| && Owed(p.notifiers[i])
    ensures p.word == 0 ==> p.missed || exists i :: 0 <= i < |p.notifiers| && p.notifiers[i].Waking?
    ensures p.word == 1 ==> exists i :: 0 <= i < |p.notifiers| && p.notifiers[i].Posted?
  {
    ReachableInv(s, p);
  }

  /** Where no wake failed, none was missed. */
  lemma {:induction false} NoneMissed(s: Setting, p: Park, acts: seq<Action>)
    requires Run(s, p, acts) && !p.missed
    requires forall j :: 0 <= j < |acts| ==> !(acts[j].Wake? && acts[j].failed)
    ensures !After(s, p, acts).missed
    decreases |acts|
  {
    if acts != [] { NoneMissed(s, Apply(s, p, acts[0]), acts[1..]); }
  }

  /** The sleeper has the view v, or its own next exchange gives it v. */
  predicate Sees(p: Park, v: View) { Within(v, p.view) || (p.waiter.Disarm? && p.waiter.next.Recheck?) }

  /** Notifier i has exchanged the 1 away, and the sleeper is still asleep: the wake is
      owed, or one has failed. */
  predicate Waits(p: Park, i: nat) {
    p.waiter.Asleep? && i < |p.notifiers| && (p.notifiers[i].Waking? || p.missed)
  }

  lemma {:induction false} SeesStill(s: Setting, p: Park, a: Action, v: View)
    requires Enabled(s, p, a) && Within(v, p.wordView) && Sees(p, v)
    ensures Within(v, Apply(s, p, a).wordView) && Sees(Apply(s, p, a), v)
  {
  }

  lemma {:induction false} WaitsStill(s: Setting, p: Park, a: Action, i: nat, v: View)
    requires Enabled(s, p, a) && Within(v, p.wordView) && Waits(p, i)
    ensures Within(v, Apply(s, p, a).wordView)
    ensures Sees(Apply(s, p, a), v) || (a != Wake(i, false) && Waits(Apply(s, p, a), i))
  {
  }

  lemma {:induction false} Settles(s: Setting, p: Park, i: nat, v: View, acts: seq<Action>)
    requires Run(s, p, acts) && Within(v, p.wordView) && (Sees(p, v) || Waits(p, i))
    ensures var r := After(s, p, acts);
      && Within(v, r.wordView) && (Sees(r, v) || Waits(r, i))
      && (Wake(i, false) in acts || Sees(p, v) ==> Sees(r, v))
    decreases |acts|
  {
    if acts != [] {
      if Sees(p, v) { SeesStill(s, p, acts[0], v); } else { WaitsStill(s, p, acts[0], i, v); }
      Settles(s, Apply(s, p, acts[0]), i, v, acts[1..]);
    }
  }

  /** Paying the debt ends the sleep, whatever runs between its two halves.  The
      exchange finds the 1.  From then on the sleeper sleeps only as long as the wake is
      still owed, or after a wake has failed until the time slice ends; once it is awake,
      it has what the notifier had stored, or is about to get it from its own exchange
      before it reads the predicate again. */
  lemma {:induction false} DebtWakes(s: Setting, p: Park, i: nat, acts: seq<Action>)
    requires Reachable(s, p) && p.waiter.Asleep? && p.word == 1
    requires i < |p.notifiers| && p.notifiers[i].Posted? && Run(s, Apply(s, p, Exchange(i)), acts)
    ensures
      var v := p.notifiers[i].view;
      var r := After(s, Apply(s, p, Exchange(i)), acts);
      && (Sees(r, v) || Waits(r, i))
      && (Waits(r, i) && !r.missed ==> Enabled(s, r, Wake(i, false)) && Sees(Apply(s, r, Wake(i, false)), v))
      && (Waits(r, i) ==> Enabled(s, r, WakeUp(false)) && Sees(Apply(s, r, WakeUp(false)), v))
      && (Wake(i, false) in acts ==> Sees(r, v))
      && (r.waiter.Disarm? && r.waiter.next.Recheck? ==>
            && Enabled(s, r, WaiterStep) && Apply(s, r, WaiterStep).waiter.ReadGate?
            && Within(v, Apply(s, r, WaiterStep).view))
  {
    ReachableInv(s, p);
    Settles(s, Apply(s, p, Exchange(i)), i, p.notifiers[i].view, acts);
  }

  /** With nobody owing an exchange, an armed waiter cannot overlook news: whatever
      value its loads may return, it does not go to sleep. */
  lemma {:induction false} ArmedSeesNews(s: Setting, p: Park, a: Action)
    requires Reachable(s, p) && News(s, p) && p.word == 1
    requires forall i :: 0 <= i < |p.notifiers| ==> !p.notifiers[i].Posted?
    requires p.waiter == ReadGate(Armed) || p.waiter == ReadPeer(Armed)
    requires Enabled(s, p, a) && (a.LoadGate? || a.LoadPeer?)
    ensures !Apply(s, p, a).waiter.Clock?
  {
    ReachableInv(s, p);
  }

  /** The word is 1 only while its waiter is armed, so neither side ever meets the
      values it treats as corruption. */
  lemma {:induction false} WordIsBinary(s: Setting, p: Park)
    requires Reachable(s, p)
    ensures p.word == 0 || (p.word == 1 && Holding(p.waiter))
    ensures p.waiter.Arm? ==> p.word == 0
    ensures p.waiter.Out? ==> p.word == 0 && !p.waiter.answer.Integrity?
  {
    ReachableInv(s, p);
  }
}
