/** The authority's bounded ledger of backing objects (src/elite_shm.c): at most
    four, of which at most two quarantined, one active and one staged. */
module Ledger {

  const SLOTS := 4
  const MAX_QUARANTINED := 2
  const LAST_EPOCH := 0xffff_ffff_ffff_ffff

  /** An object is on the ledger from the moment it is opened, constructed or not. */
  datatype Entry = Empty | Object(epoch: nat, constructed: bool, active: bool, quarantined: bool)

  datatype Status = Ok | Busy | Retired | Integrity | Conflict | InvalidArgument | BadLayout | BadIdentity
                  | NotReady | OsError

  /** How the operating system answered a creation: no memory for the object, the name
      taken, not opened, opened but then not made usable, mapped off its alignment, or made. */
  datatype Opening = NoMemory | Taken | Unopened | Unusable | Misaligned | Made

  function Answer(o: Opening): Status {
    match o
    case Taken => Conflict
    case Misaligned => BadLayout
    case Made => Ok
    case _ => OsError
  }

  /** From the moment it is opened the object stays on the ledger, usable or not. */
  predicate Opened(o: Opening) { o.Unusable? || o.Misaligned? || o.Made? }

  predicate Staged(e: Entry) { e.Object? && !e.active && !e.quarantined }

  predicate Quarantined(e: Entry) { e.Object? && e.quarantined }

  predicate Active(e: Entry) { e.Object? && e.active }

  datatype Kind = IsStaged | IsQuarantined | IsActive | IsEmpty

  predicate Is(k: Kind, e: Entry) {
    match k
    case IsStaged => Staged(e)
    case IsQuarantined => Quarantined(e)
    case IsActive => Active(e)
    case IsEmpty => e.Empty?
  }

  function Tally(k: Kind, s: seq<Entry>): nat {
    if s == [] then 0 else (if Is(k, s[0]) then 1 else 0) + Tally(k, s[1..])
  }

  lemma {:induction false} TallyUpdate(k: Kind, s: seq<Entry>, i: nat, e: Entry)
    requires i < |s|
    ensures Tally(k, s[i := e]) + (if Is(k, s[i]) then 1 else 0) == Tally(k, s) + if Is(k, e) then 1 else 0
  {
    if i == 0 {
      assert s[0 := e][1..] == s[1..];
    } else {
      assert s[i := e][1..] == s[1..][i - 1 := e];
      TallyUpdate(k, s[1..], i - 1, e);
    }
  }

  lemma {:induction false} TallyZero(k: Kind, s: seq<Entry>)
    ensures Tally(k, s) == 0 <==> forall i :: 0 <= i < |s| ==> !Is(k, s[i])
  {
    if s != [] {
      TallyZero(k, s[1..]);
      assert forall i :: 0 <= i < |s| - 1 ==> s[1..][i] == s[i + 1];
      assert forall i :: 1 <= i < |s| ==> s[i] == s[1..][i - 1];
    }
  }

  /** Every entry is of exactly one kind when nothing active is quarantined. */
  lemma {:induction false} TallySum(s: seq<Entry>)
    requires forall i :: 0 <= i < |s| ==> !(Active(s[i]) && Quarantined(s[i]))
    ensures Tally(IsStaged, s) + Tally(IsQuarantined, s) + Tally(IsActive, s) + Tally(IsEmpty, s) == |s|
  {
    if s != [] { TallySum(s[1..]); }
  }

  predicate Bounded(s: seq<Entry>, nextEpoch: nat) {
    && |s| == SLOTS && nextEpoch <= LAST_EPOCH
    && Tally(IsQuarantined, s) <= MAX_QUARANTINED && Tally(IsActive, s) <= 1 && Tally(IsStaged, s) <= 1
    && (forall i :: 0 <= i < |s| ==> !(Active(s[i]) && Quarantined(s[i])))
    && (forall i :: 0 <= i < |s| && (Active(s[i]) || Quarantined(s[i])) ==> s[i].constructed)
    && (forall i :: 0 <= i < |s| && s[i].Object? ==> 0 < s[i].epoch <= nextEpoch)
    && (forall i, j :: 0 <= i < j < |s| && s[i].Object? && s[j].Object? ==> s[i].epoch != s[j].epoch)
  }

  /** The budget leaves a slot free whenever nothing is staged, so creation never
      fails for want of a slot. */
  lemma {:induction false} SlotIsFree(s: seq<Entry>, nextEpoch: nat)
    requires Bounded(s, nextEpoch) && Tally(IsStaged, s) == 0
    ensures exists i :: 0 <= i < |s| && s[i].Empty?
  {
    TallySum(s);
    TallyZero(IsEmpty, s);
    assert exists i :: 0 <= i < |s| && Is(IsEmpty, s[i]);
  }

  lemma {:induction false} BoundedUpdate(s: seq<Entry>, nextEpoch: nat, i: nat, e: Entry, later: nat)
    requires Bounded(s, nextEpoch) && i < |s| && nextEpoch <= later <= LAST_EPOCH
    requires !(Active(e) && Quarantined(e)) && (Active(e) || Quarantined(e) ==> e.constructed)
    requires Quarantined(e) && !Quarantined(s[i]) ==> Tally(IsQuarantined, s) < MAX_QUARANTINED
    requires Active(e) && !Active(s[i]) ==> Tally(IsActive, s) == 0
    requires Staged(e) && !Staged(s[i]) ==> Tally(IsStaged, s) == 0
    requires e.Object? ==> (s[i].Object? && e.epoch == s[i].epoch) || nextEpoch < e.epoch <= later
    ensures Bounded(s[i := e], later)
  {
    TallyUpdate(IsQuarantined, s, i, e);
    TallyUpdate(IsActive, s, i, e);
    TallyUpdate(IsStaged, s, i, e);
  }

  class Authority {
    const objects: array<Entry>
    var nextEpoch: nat

    ghost predicate Valid() reads this, objects { objects.Length == SLOTS && Bounded(objects[..], nextEpoch) }

    constructor ()
      ensures Valid() && fresh(objects) && forall i :: 0 <= i < SLOTS ==> objects[i].Empty?
    {
      objects := new Entry[SLOTS](_ => Empty);
      nextEpoch := 0;
      new;
      TallyZero(IsQuarantined, objects[..]);
      TallyZero(IsActive, objects[..]);
      TallyZero(IsStaged, objects[..]);
    }

    /** The first empty slot, unless some object is staged. */
    method FindSlot() returns (staged: bool, slot: nat)
      requires Valid()
      ensures staged <==> Tally(IsStaged, objects[..]) > 0
      ensures !staged ==> slot < SLOTS && objects[slot].Empty?
    {
      staged, slot := false, SLOTS;
      TallyZero(IsStaged, objects[..]);
      for i := 0 to SLOTS
        invariant slot == SLOTS || (slot < i && objects[slot].Empty?)
        invariant forall j :: 0 <= j < i ==> (objects[j].Empty? ==> slot != SLOTS) && !Staged(objects[j])
      {
        if objects[i].Empty? {
          if slot == SLOTS { slot := i; }
        } else if !objects[i].active && !objects[i].quarantined {
          assert objects[..][i] == objects[i];
          return true, slot;
        }
      }
      SlotIsFree(objects[..], nextEpoch);
    }

    /** Creation is refused before the configuration is looked at. */
    ghost predicate Refuses()
      reads this, objects
    {
      Tally(IsStaged, objects[..]) > 0 || nextEpoch >= LAST_EPOCH - 1
    }

    /** elite_create; `checked` is what the layout and the endpoint definitions were
        answered, `barred` the one epoch, if any, whose session id would be zero. */
    method Create(checked: Status, barred: nat, opening: Opening) returns (r: Status, slot: nat)
      requires Valid()
      modifies this`nextEpoch, objects
      ensures Valid()
      ensures r == if old(Refuses()) then Busy else if checked != Ok then checked else Answer(opening)
      ensures old(Refuses()) || checked != Ok ==> objects[..] == old(objects[..]) && nextEpoch == old(nextEpoch)
      ensures !old(Refuses()) && checked == Ok ==>
        && old(nextEpoch) < nextEpoch && nextEpoch != barred
        && slot < SLOTS && old(objects[slot]).Empty?
        && objects[..] ==
             if Opened(opening) then old(objects[..])[slot := Object(nextEpoch, opening.Made?, false, false)]
             else old(objects[..])
    {
      var staged;
      staged, slot := FindSlot();
      if staged { return Busy, slot; }
      if slot == SLOTS || nextEpoch >= LAST_EPOCH - 1 { return Busy, slot; }
      if checked != Ok { return checked, slot; }
      ghost var before := nextEpoch;
      nextEpoch := nextEpoch + 1;
      if nextEpoch == barred { nextEpoch := nextEpoch + 1; }
      BoundedUpdate(objects[..], before, slot, Object(nextEpoch, opening.Made?, false, false), nextEpoch);
      ghost var all := objects[..];
      assert Bounded(all, nextEpoch);
      r := Answer(opening);
      if opening.NoMemory? { return r, slot; }
      objects[slot] := Object(nextEpoch, opening.Made?, false, false);
      assert objects[..] == all[slot := Object(nextEpoch, opening.Made?, false, false)];
      if !Opened(opening) {
        objects[slot] := Empty;
        assert objects[..] == all;
      }
    }

    /** elite_object_activate; `ready` is whether its gate still reads READY and its
        grants are open.  An object that creation opened and could not construct is
        refused. */
    method Activate(slot: nat, ready: bool) returns (r: Status)
      requires Valid() && slot < SLOTS && objects[slot].Object?
      modifies objects
      ensures Valid()
      ensures r == InvalidArgument <==> !old(objects[slot]).constructed
      ensures r == Retired <==> old(objects[slot]).constructed && (!ready || old(objects[slot]).quarantined)
      ensures r == Busy <==>
        && old(objects[slot]).constructed && ready && !old(objects[slot]).quarantined
        && exists j :: 0 <= j < SLOTS && j != slot && Active(old(objects[..])[j])
      ensures r == Ok || r == Busy || r == Retired || r == InvalidArgument
      ensures objects[..] ==
        if r == Ok then old(objects[..])[slot := old(objects[slot]).(active := true)] else old(objects[..])
    {
      if !objects[slot].constructed { return InvalidArgument; }
      if !ready || objects[slot].quarantined { return Retired; }
      var i := 0;
      while i < SLOTS
        invariant 0 <= i <= SLOTS && objects[..] == old(objects[..])
        invariant forall j :: 0 <= j < i && j != slot ==> !Active(objects[..][j])
      {
        if i != slot && objects[i].Object? && objects[i].active {
          assert Active(old(objects[..])[i]);
          return Busy;
        }
        i := i + 1;
      }
      ghost var all := objects[..];
      if !objects[slot].active { TallyZero(IsActive, all); }
      BoundedUpdate(all, nextEpoch, slot, all[slot].(active := true), nextEpoch);
      objects[slot] := objects[slot].(active := true);
      assert objects[..] == all[slot := all[slot].(active := true)];
      r := Ok;
    }

    /** A quarantine that changes the ledger unless the object's own state forbids it. */
    ghost predicate MayQuarantine(slot: nat)
      reads this, objects
      requires slot < objects.Length && objects[slot].Object?
    {
      && objects[slot].constructed && !objects[slot].quarantined
      && Tally(IsQuarantined, objects[..]) < MAX_QUARANTINED
    }

    /** elite_object_quarantine; `retired` is what retiring the object answered, and
        `moved` whether the gate could then be moved to QUARANTINED (it cannot once
        SEALED). */
    method Quarantine(slot: nat, retired: Status, moved: bool) returns (r: Status)
      requires Valid() && slot < SLOTS && objects[slot].Object?
      modifies objects
      ensures Valid()
      ensures r ==
        if !old(objects[slot]).constructed then InvalidArgument
        else if old(objects[slot]).quarantined then Ok
        else if old(Tally(IsQuarantined, objects[..])) == MAX_QUARANTINED then Busy
        else if retired != Ok then retired
        else if moved then Ok else Integrity
      ensures objects[..] ==
        if old(MayQuarantine(slot)) && retired == Ok && moved
        then old(objects[..])[slot := old(objects[slot]).(quarantined := true, active := false)]
        else old(objects[..])
    {
      if !objects[slot].constructed { return InvalidArgument; }
      if objects[slot].quarantined { return Ok; }
      var count, i := 0, 0;
      while i < SLOTS
        invariant 0 <= i <= SLOTS && objects[..] == old(objects[..])
        invariant count + Tally(IsQuarantined, objects[..][i..]) == Tally(IsQuarantined, objects[..])
      {
        assert objects[..][i..][1..] == objects[..][i + 1..] && objects[..][i..][0] == objects[i];
        if objects[i].Object? && objects[i].quarantined { count := count + 1; }
        i := i + 1;
      }
      assert objects[..][SLOTS..] == [];
      if count >= MAX_QUARANTINED { return Busy; }
      if retired != Ok { return retired; }
      if !moved { return Integrity; }
      ghost var all := objects[..];
      BoundedUpdate(all, nextEpoch, slot, all[slot].(quarantined := true, active := false), nextEpoch);
      objects[slot] := objects[slot].(quarantined := true, active := false);
      assert objects[..] == all[slot := all[slot].(quarantined := true, active := false)];
      r := Ok;
    }

    /** The end of elite_object_destroy: the slot is free again, its epoch is not. */
    method Forget(slot: nat)
      requires Valid() && slot < SLOTS && objects[slot].Object?
      modifies objects
      ensures Valid() && objects[..] == old(objects[..])[slot := Empty]
    {
      ghost var all := objects[..];
      BoundedUpdate(all, nextEpoch, slot, Empty, nextEpoch);
      objects[slot] := Empty;
      assert objects[..] == all[slot := Empty];
    }
  }
}
