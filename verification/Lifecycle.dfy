/** One generation of the shared object: the admission gate word, the one-shot
    participant records, the connections that claim them, and the authority that
    grants, retires, quarantines, seals and unmaps (src/elite_shm.c).  Every step
    makes one access to shared storage, or only private ones. */
module Lifecycle {

  const READY := 1
  const RETIRE_REQUESTED := 2
  const QUARANTINED := 4
  const SEALED := 5

  const PART_NEW := 0
  const PART_JOINING := 1
  const PART_ACTIVE := 2
  const PART_QUIESCENT := 3
  const PART_REJECTED := 4

  const FAILURE_PEER := 3
  const FAILURE_AUTHORITY := 6

  // ----------------------------------------------------------------- the gate word

  const HIGH := 0x1_0000_0000

  function State(w: nat): nat { w % 256 }

  function Count(w: nat): nat { w / HIGH }

  predicate GateValid(w: nat, k: nat) {
    w / 256 % 0x100_0000 == 0 && State(w) <= SEALED && Count(w) <= k
  }

  function WithState(w: nat, s: nat): nat { w / HIGH * HIGH + s }

  /** (old & 0xffffffff00000000) | s replaces the state and keeps the count. */
  lemma {:induction false} GateSet(w: nat, k: nat, s: nat)
    requires GateValid(w, k) && s <= SEALED
    ensures State(WithState(w, s)) == s && Count(WithState(w, s)) == Count(w) && GateValid(WithState(w, s), k)
  {
  }

  lemma {:induction false} GateUp(w: nat, k: nat)
    requires GateValid(w, k) && Count(w) < k < HIGH
    ensures State(w + HIGH) == State(w) && Count(w + HIGH) == Count(w) + 1 && GateValid(w + HIGH, k)
    ensures w + HIGH < HIGH * HIGH
  {
    assert (w + HIGH) / 256 == w / 256 + 0x100_0000;
    assert (w + HIGH) % 256 == w % 256;
  }

  lemma {:induction false} GateDown(w: nat, k: nat)
    requires GateValid(w, k) && Count(w) > 0
    ensures w >= HIGH && State(w - HIGH) == State(w) && Count(w - HIGH) == Count(w) - 1 && GateValid(w - HIGH, k)
  {
    assert (w - HIGH) / 256 == w / 256 - 0x100_0000;
    assert (w - HIGH) % 256 == w % 256;
    assert (w - HIGH) / HIGH == w / HIGH - 1;
  }

  // --------------------------------------------------------------------- the state

  /** Program counter of the connection that won a participant's claim (an attempt that
      loses it has no counter: it unmaps what it mapped and is over); `seen` is the
      gate value its pending compare-and-swap expects. */
  datatype Conn =
    | Absent
    | Claimed
    | Enrolling(seen: nat)
    | Refused
    | Joined
    | Live(busy: bool)
    | Failing(reason: nat)
    | RetireLoading
    | RetireSwapping(seen: nat)
    | Leaving
    | LeavingSwapping(seen: nat)
    | Stalled
    | Left
    | Gone
    | Dead(enrolled: bool)

  datatype Part = Part(attachment: nat, conn: Conn, pid: nat, registered: bool, issued: bool, resolved: bool)

  datatype Sequel = Return | ThenQuarantine | ThenDestroy

  datatype Manager =
    | Idle
    | Granting(i: nat)
    | Recording(reason: nat, next: Sequel)
    | GateLoading(next: Sequel)
    | GateSwapping(seen: nat, next: Sequel)
    | QuarantineLoading
    | QuarantineSwapping(seen: nat)
    | SealLoading
    | SealSwapping(seen: nat)
    | Unlinking
    | Unmapping
    | Freed

  datatype Generation = Generation(
    gate: nat, failure: nat, parts: seq<Part>, exited: set<nat>,
    noMoreGrants: bool, active: bool, quarantined: bool, manager: Manager)

  datatype Action =
    | Activate
    | Register(i: nat, pid: nat)
    | Grant(i: nat)
    | Ack(i: nat)
    | Reap(pid: nat)
    | Retire(reason: nat)
    | Quarantine
    | Destroy
    | ManagerStep(ok: bool)
    | Claim(i: nat)
    | Begin(i: nat)
    | Finish(i: nat)
    | Fail(i: nat, reason: nat)
    | Detach(i: nat)
    | Unmap(i: nat)
    | ConnStep(i: nat)
    | Exit(pid: nat)

  predicate Enrolled(c: Conn) {
    || c.Joined? || c.Live? || c.Failing? || c.RetireLoading? || c.RetireSwapping? || c.Leaving?
    || c.LeavingSwapping? || c.Stalled? || c == Dead(true)
  }

  /** The process still runs code of this connection. */
  predicate Running(c: Conn) { !c.Absent? && !c.Gone? && !c.Dead? }

  /** Nothing of this participant can reach the mapping any more. */
  predicate Silent(p: Part, exited: set<nat>) {
    p.conn.Gone? || p.conn.Dead? || (p.conn.Absent? && (!p.issued || p.pid in exited))
  }

  // ----------------------------------------------------------------------- actions

  predicate Enabled(g: Generation, a: Action) {
    match a
    case Activate => g.manager.Idle?
    case Register(i, pid) => g.manager.Idle? && i < |g.parts|
    case Grant(i) => g.manager.Idle? && i < |g.parts|
    // A receipt is genuine: the connection has unmapped and will never map again.
    case Ack(i) => g.manager.Idle? && i < |g.parts| && g.parts[i].conn.Gone?
    // waitpid reports only a process that really exited.
    case Reap(pid) => g.manager.Idle? && pid in g.exited
    case Retire(reason) => g.manager.Idle? && reason <= FAILURE_AUTHORITY
    case Quarantine => g.manager.Idle?
    case Destroy => g.manager.Idle?
    case ManagerStep(_) => !g.manager.Idle? && !g.manager.Freed?
    // A grant may be presented again and again; the record decides.
    case Claim(i) => i < |g.parts| && g.parts[i].issued && g.parts[i].pid !in g.exited
    case Begin(i) => i < |g.parts| && g.parts[i].conn == Live(false)
    case Finish(i) => i < |g.parts| && g.parts[i].conn == Live(true)
    case Fail(i, reason) => i < |g.parts| && g.parts[i].conn.Live? && reason <= FAILURE_AUTHORITY
    case Detach(i) => i < |g.parts| && g.parts[i].conn == Live(false)
    case Unmap(i) => i < |g.parts| && g.parts[i].conn.Left?
    case ConnStep(i) => i < |g.parts| && Pending(g.parts[i].conn)
    case Exit(pid) => true
  }

  predicate Pending(c: Conn) {
    || c.Claimed? || c.Enrolling? || c.Refused? || c.Joined? || c.Failing? || c.RetireLoading?
    || c.RetireSwapping? || c.Leaving? || c.LeavingSwapping?
  }

  predicate IsCall(a: Action) { a.Claim? || a.Begin? || a.Finish? || a.Fail? || a.Detach? || a.Unmap? }

  /** What the caller of a connection does to its own participant. */
  function Call(p: Part, a: Action): Part
    requires IsCall(a)
  {
    match a
    case Claim(_) =>
      if p.attachment == PART_NEW then p.(attachment := PART_JOINING, conn := Claimed) else p
    case Begin(_) => p.(conn := Live(true))
    case Finish(_) => p.(conn := Live(false))
    case Fail(_, reason) => p.(conn := Failing(reason))
    case Detach(_) => p.(attachment := PART_QUIESCENT, conn := Leaving)
    case Unmap(_) => p.(conn := Gone)
  }

  function Apply(g: Generation, a: Action): (h: Generation)
    requires Enabled(g, a)
    ensures |h.parts| == |g.parts|
  {
    match a
    case Activate =>
      if g.noMoreGrants || g.quarantined || State(g.gate) != READY then g else g.(active := true)
    case Register(i, pid) =>
      if g.parts[i].registered || g.noMoreGrants then g
      else g.(parts := g.parts[i := g.parts[i].(pid := pid, registered := true)])
    case Grant(i) =>
      if g.active && !g.noMoreGrants && State(g.gate) == READY then g.(manager := Granting(i)) else g
    case Ack(i) =>
      if g.parts[i].attachment != PART_QUIESCENT && g.parts[i].attachment != PART_REJECTED then g
      else if !g.parts[i].issued then g
      else g.(parts := g.parts[i := g.parts[i].(resolved := true)])
    case Reap(pid) =>
      if Known(g.parts, pid) then
        g.(parts := Resolve(g.parts, pid), noMoreGrants := true, manager := Recording(FAILURE_PEER, Return))
      else g
    case Retire(reason) => g.(noMoreGrants := true, manager := Recording(reason, Return))
    case Quarantine =>
      if g.quarantined then g else g.(noMoreGrants := true, manager := Recording(0, ThenQuarantine))
    case Destroy => g.(noMoreGrants := true, manager := Recording(0, ThenDestroy))
    case ManagerStep(ok) => ManagerMoves(g, ok)
    case Claim(i) => Called(g, i, a)
    case Begin(i) => Called(g, i, a)
    case Finish(i) => Called(g, i, a)
    case Fail(i, _) => Called(g, i, a)
    case Detach(i) => Called(g, i, a)
    case Unmap(i) => Called(g, i, a)
    case ConnStep(i) => ConnMoves(g, i)
    case Exit(pid) => g.(exited := g.exited + {pid}, parts := Killed(g.parts, pid))
  }

  function Recorded(failure: nat, reason: nat): nat {
    if reason != 0 && failure == 0 then reason else failure
  }

  function Called(g: Generation, i: nat, a: Action): (h: Generation)
    requires IsCall(a) && i < |g.parts|
    ensures |h.parts| == |g.parts|
  {
    g.(parts := g.parts[i := Call(g.parts[i], a)])
  }

  /** A participant, the gate and the failure word after one step of a connection. */
  datatype Outcome = Outcome(part: Part, gate: nat, failure: nat)

  function Next(p: Part, gate: nat, failure: nat, k: nat): Outcome
    requires Pending(p.conn)
  {
    match p.conn
    case Claimed =>
      if !GateValid(gate, k) || State(gate) != READY || Count(gate) >= k then
        Outcome(p.(conn := Refused), gate, failure)
      else Outcome(p.(conn := Enrolling(gate)), gate, failure)
    case Enrolling(seen) =>
      if gate == seen then Outcome(p.(conn := Joined), seen + HIGH, failure)
      else Outcome(p.(conn := Claimed), gate, failure)
    case Refused => Outcome(p.(attachment := PART_REJECTED, conn := Left), gate, failure)
    case Joined => Outcome(p.(attachment := PART_ACTIVE, conn := Live(false)), gate, failure)
    case Failing(reason) => Outcome(p.(conn := RetireLoading), gate, Recorded(failure, reason))
    case RetireLoading =>
      if GateValid(gate, k) && State(gate) == READY then Outcome(p.(conn := RetireSwapping(gate)), gate, failure)
      else Outcome(p.(conn := Live(true)), gate, failure)
    case RetireSwapping(seen) =>
      if gate == seen then Outcome(p.(conn := Live(true)), WithState(seen, RETIRE_REQUESTED), failure)
      else Outcome(p.(conn := RetireLoading), gate, failure)
    case Leaving =>
      if !GateValid(gate, k) || Count(gate) == 0 then Outcome(p.(conn := Stalled), gate, failure)
      else Outcome(p.(conn := LeavingSwapping(gate)), gate, failure)
    case LeavingSwapping(seen) =>
      if gate == seen && seen >= HIGH then Outcome(p.(conn := Left), seen - HIGH, failure)
      else Outcome(p.(conn := Leaving), gate, failure)
  }

  function ConnMoves(g: Generation, i: nat): (h: Generation)
    requires i < |g.parts| && Pending(g.parts[i].conn)
    ensures |h.parts| == |g.parts|
  {
    var n := Next(g.parts[i], g.gate, g.failure, |g.parts|);
    g.(gate := n.gate, failure := n.failure, parts := g.parts[i := n.part])
  }

  function Retired(next: Sequel, g: Generation): Manager {
    match next
    case Return => Idle
    case ThenQuarantine => QuarantineLoading
    case ThenDestroy => Outstanding(g)
  }

  /** elite_object_destroy answers BUSY while a granted holder is unresolved. */
  function Outstanding(g: Generation): Manager {
    if AllResolved(g.parts) then SealLoading else Idle
  }

  predicate AllResolved(parts: seq<Part>) {
    forall i :: 0 <= i < |parts| && parts[i].issued ==> parts[i].resolved
  }

  function ManagerMoves(g: Generation, ok: bool): (h: Generation)
    requires !g.manager.Idle? && !g.manager.Freed?
    ensures |h.parts| == |g.parts|
  {
    var k := |g.parts|;
    match g.manager
    case Granting(i) =>
      if i < k && g.failure == 0 && g.parts[i].registered && !g.parts[i].issued && !g.parts[i].resolved then
        g.(parts := g.parts[i := g.parts[i].(issued := true)], manager := Idle)
      else g.(manager := Idle)
    case Recording(reason, next) => g.(failure := Recorded(g.failure, reason), manager := GateLoading(next))
    case GateLoading(next) =>
      if GateValid(g.gate, k) && State(g.gate) == READY then g.(manager := GateSwapping(g.gate, next))
      else if next.ThenQuarantine? && (!GateValid(g.gate, k) || State(g.gate) < READY) then g.(manager := Idle)
      else g.(manager := Retired(next, g))
    case GateSwapping(seen, next) =>
      if g.gate == seen then g.(gate := WithState(seen, RETIRE_REQUESTED), manager := Retired(next, g))
      else g.(manager := GateLoading(next))
    case QuarantineLoading =>
      if !GateValid(g.gate, k) || State(g.gate) == SEALED then g.(manager := Idle)
      else g.(manager := QuarantineSwapping(g.gate))
    case QuarantineSwapping(seen) =>
      if g.gate == seen then
        g.(gate := WithState(seen, QUARANTINED), quarantined := true, active := false, manager := Idle)
      else g.(manager := QuarantineLoading)
    case SealLoading =>
      if !GateValid(g.gate, k) then g.(manager := Idle) else g.(manager := SealSwapping(g.gate))
    case SealSwapping(seen) =>
      if g.gate == seen then g.(gate := SEALED, manager := Unlinking) else g.(manager := SealLoading)
    case Unlinking => g.(manager := if ok then Unmapping else Idle)
    case Unmapping => g.(manager := if ok then Freed else Idle)
  }

  predicate Known(parts: seq<Part>, pid: nat) {
    exists i :: 0 <= i < |parts| && Owes(parts[i], pid)
  }

  predicate Owes(p: Part, pid: nat) { p.registered && p.pid == pid && !p.resolved }

  function Resolve(parts: seq<Part>, pid: nat): (r: seq<Part>)
    ensures |r| == |parts|
    ensures forall i :: 0 <= i < |r| ==> r[i] == if Owes(parts[i], pid) then parts[i].(resolved := true) else parts[i]
  {
    seq(|parts|, i requires 0 <= i < |parts| =>
      if Owes(parts[i], pid) then parts[i].(resolved := true) else parts[i])
  }

  function Killed(parts: seq<Part>, pid: nat): (r: seq<Part>)
    ensures |r| == |parts|
    ensures forall i :: 0 <= i < |r| ==> r[i] == AfterExit(parts[i], pid)
  {
    seq(|parts|, i requires 0 <= i < |parts| => AfterExit(parts[i], pid))
  }

  function AfterExit(p: Part, pid: nat): Part {
    if p.registered && p.pid == pid && Running(p.conn) then p.(conn := Dead(Enrolled(p.conn))) else p
  }

  // -------------------------------------------------------------------------- runs

  /** construct() has just stored READY. */
  predicate Initial(g: Generation) {
    && 1 <= |g.parts| < HIGH && g.gate == READY && g.failure == 0 && g.exited == {}
    && !g.noMoreGrants && !g.active && !g.quarantined && g.manager.Idle?
    && forall i :: 0 <= i < |g.parts| ==> Fresh(g.parts[i])
  }

  predicate Fresh(p: Part) {
    p.attachment == PART_NEW && p.conn.Absent? && !p.registered && !p.issued && !p.resolved
  }

  ghost predicate Run(g: Generation, acts: seq<Action>)
    decreases |acts|
  {
    |acts| == 0 || (Enabled(g, acts[0]) && Run(Apply(g, acts[0]), acts[1..]))
  }

  ghost function After(g: Generation, acts: seq<Action>): Generation
    requires Run(g, acts)
    decreases |acts|
  {
    if |acts| == 0 then g else After(Apply(g, acts[0]), acts[1..])
  }
}
