/** The lock that serializes the Runs of a Session: callers enter, wait, are handed
    the lock in the order they came, and may be canceled at any moment, also while
    the lock is being handed to them. */
module SessionLocks {
  import opened Seqs

  /** One sessionLock; a waiter is named by its channel. */
  datatype Lock = Lock(held: bool, waiters: seq<nat>)

  /** The locks by Session. A waiter keeps the address of the lock it waits on,
      whatever the map holds by then. */
  datatype Table = Table(locks: map<string, nat>, objects: map<nat, Lock>, next: nat)

  datatype Entry = Entered | Busy | Waits(address: nat)

  function With(t: Table, a: nat, lock: Lock): (r: Table)
  {
    t.(objects := t.objects[a := lock])
  }

  /** The lock of a Session, made when there is none. */
  function Ensured(t: Table, id: string): (r: Table)
    ensures id in r.locks
  {
    if id in t.locks then t
    else Table(t.locks[id := t.next], t.objects[t.next := Lock(false, [])], t.next + 1)
  }

  function LockAt(t: Table, a: nat): (lock: Lock)
  {
    if a in t.objects then t.objects[a] else Lock(false, [])
  }

  function Enter(t: Table, id: string, wait: bool, channel: nat): (r: (Entry, Table))
  {
    var t' := Ensured(t, id);
    var a := t'.locks[id];
    var lock := LockAt(t', a);
    if !lock.held && lock.waiters == [] then (Entered, With(t', a, lock.(held := true)))
    else if !wait then (Busy, t')
    else (Waits(a), With(t', a, lock.(waiters := lock.waiters + [channel])))
  }

  /** The waiter that release hands the lock to. */
  function Heir(t: Table, id: string): (c: Option<nat>)
  {
    if id in t.locks && LockAt(t, t.locks[id]).held && LockAt(t, t.locks[id]).waiters != []
    then Some(LockAt(t, t.locks[id]).waiters[0])
    else None
  }

  function Released(t: Table, id: string): (r: Table)
  {
    if id !in t.locks || !LockAt(t, t.locks[id]).held then t else
    var a := t.locks[id];
    var lock := LockAt(t, a);
    if lock.waiters != [] then With(t, a, lock.(waiters := lock.waiters[1..]))
    else With(t, a, lock.(held := false)).(locks := t.locks - {id})
  }

  function Removed(s: seq<nat>, x: nat): (r: seq<nat>)
  {
    if s == [] then [] else if s[0] == x then s[1..] else [s[0]] + Removed(s[1..], x)
  }

  /** A canceled waiter leaves the line, or hands on the lock it was given. */
  function GaveUp(t: Table, id: string, a: nat, channel: nat): (r: Table)
  {
    var lock := LockAt(t, a);
    if channel in lock.waiters then With(t, a, lock.(waiters := Removed(lock.waiters, channel))) else Released(t, id)
  }

  // ----- the table, changed in place -----

  class LockTable {
    var locks: map<string, nat>
    var objects: map<nat, Lock>
    var next: nat

    function State(): (t: Table)
      reads this
    {
      Table(locks, objects, next)
    }

    ghost predicate Valid()
      reads this
    {
      forall id :: id in locks ==> locks[id] in objects
    }

    constructor ()
      ensures Valid() && State() == Table(map[], map[], 0)
    {
      locks, objects, next := map[], map[], 0;
    }

    /** The locked part of acquire. */
    method TryEnter(id: string, wait: bool, channel: nat) returns (entry: Entry)
      requires Valid()
      modifies this
      ensures Valid() && (entry, State()) == Enter(old(State()), id, wait, channel)
      ensures entry.Entered? <==> id !in old(locks) || old(objects)[old(locks)[id]] == Lock(false, [])
      ensures entry.Waits? <==> !entry.Entered? && wait
      ensures entry.Entered? ==> id in locks && objects[locks[id]] == Lock(true, [])
      ensures entry.Busy? ==> State() == old(State())
      ensures entry.Waits? ==> locks == old(locks) && entry.address == locks[id]
      ensures entry.Waits? ==> var was := old(objects)[entry.address];
        objects == old(objects)[entry.address := Lock(was.held, was.waiters + [channel])]
    {
      if id !in locks {
        locks, objects, next := locks[id := next], objects[next := Lock(false, [])], next + 1;
      }
      var a := locks[id];
      var lock := objects[a];
      if !lock.held && |lock.waiters| == 0 {
        objects := objects[a := lock.(held := true)];
        return Entered;
      }
      if !wait { return Busy; }
      objects := objects[a := lock.(waiters := lock.waiters + [channel])];
      return Waits(a);
    }

    method Release(id: string) returns (granted: Option<nat>)
      requires Valid()
      modifies this
      ensures Valid() && State() == Released(old(State()), id)
      ensures granted == Heir(old(State()), id)
      ensures !(id in old(locks) && old(objects)[old(locks)[id]].held) ==> granted == None && State() == old(State())
      ensures id in old(locks) && old(objects)[old(locks)[id]].held ==>
        var line := old(objects)[old(locks)[id]].waiters;
        if line == [] then granted == None && locks == old(locks) - {id}
        else granted == Some(line[0]) && locks == old(locks)
             && objects == old(objects)[locks[id] := Lock(true, line[1..])]
    {
      if id !in locks || !objects[locks[id]].held { return None; }
      var a := locks[id];
      var lock := objects[a];
      if |lock.waiters| > 0 {
        objects := objects[a := lock.(waiters := lock.waiters[1..])];
        return Some(lock.waiters[0]);
      }
      objects := objects[a := lock.(held := false)];
      locks := locks - {id};
      return None;
    }

    /** The cancel branch of acquire: looks for the channel in the lock it waited on. */
    method GiveUp(id: string, a: nat, channel: nat) returns (granted: Option<nat>)
      requires Valid() && a in objects
      modifies this
      ensures Valid() && State() == GaveUp(old(State()), id, a, channel)
      ensures granted == if channel in old(objects)[a].waiters then None else Heir(old(State()), id)
      ensures channel in old(objects)[a].waiters ==> granted == None && locks == old(locks)
      ensures channel in old(objects)[a].waiters ==>
        var line := old(objects)[a].waiters;
        exists i :: 0 <= i < |line| && line[i] == channel && objects[a].waiters == line[..i] + line[i + 1..]
      ensures channel !in old(objects)[a].waiters && id in old(locks) && old(objects)[old(locks)[id]].held ==>
        var line := old(objects)[old(locks)[id]].waiters;
        if line == [] then granted == None && locks == old(locks) - {id}
        else granted == Some(line[0]) && objects == old(objects)[locks[id] := Lock(true, line[1..])]
    {
      var waiters := objects[a].waiters;
      for i := 0 to |waiters|
        invariant objects == old(objects) && locks == old(locks) && next == old(next)
        invariant channel !in waiters[..i]
      {
        if waiters[i] == channel {
          RemovedAt(waiters, i);
          objects := objects[a := objects[a].(waiters := waiters[..i] + waiters[i + 1..])];
          return None;
        }
      }
      granted := Release(id);
    }
  }

  lemma {:induction false} RemovedAt(s: seq<nat>, i: nat)
    requires i < |s| && s[i] !in s[..i]
    ensures Removed(s, s[i]) == s[..i] + s[i + 1..]
  {
    if i > 0 {
      assert s[0] in s[..i] && s[1..][..i - 1] == s[1..i];
      assert forall x :: x in s[1..i] ==> x in s[..i];
      RemovedAt(s[1..], i - 1);
      assert s[1..][i..] == s[i + 1..];
    }
  }

  // ----- callers and their steps -----

  datatype Phase = Waiting | Inside | Gone

  /** ticket is when it began to wait, grant when the lock was handed to it. */
  datatype Caller = Caller(id: string, address: nat, phase: Phase, ticket: nat, grant: Option<nat>)

  datatype World = World(table: Table, callers: map<nat, Caller>, clock: nat)

  datatype Step =
    | Arrive(c: nat, id: string, wait: bool)
    | Wake(c: nat)                 // sees the hand-off, and its context is alive
    | WakeCanceled(c: nat)         // sees the hand-off, and its context has ended
    | Cancel(c: nat)               // sees the end of its context, handed the lock or not
    | Leave(c: nat)

  predicate At(callers: map<nat, Caller>, c: nat, phase: Phase)
  {
    c in callers && callers[c].phase == phase
  }

  predicate Enabled(w: World, step: Step)
  {
    match step
    case Arrive(c, _, _) => c !in w.callers
    case Wake(c) => At(w.callers, c, Waiting) && w.callers[c].grant.Some?
    case WakeCanceled(c) => At(w.callers, c, Waiting) && w.callers[c].grant.Some?
    case Cancel(c) => At(w.callers, c, Waiting)
    case Leave(c) => At(w.callers, c, Inside)
  }

  function Granted(callers: map<nat, Caller>, heir: Option<nat>, clock: nat): (r: map<nat, Caller>)
  {
    if heir.Some? && heir.value in callers
    then callers[heir.value := callers[heir.value].(grant := Some(clock))] else callers
  }

  function ReleaseStep(w: World, c: nat): (w': World)
    requires c in w.callers
  {
    var id := w.callers[c].id;
    var gone := w.callers[c := w.callers[c].(phase := Gone)];
    World(Released(w.table, id), Granted(gone, Heir(w.table, id), w.clock), w.clock + 1)
  }

  predicate AddressesKnown(t: Table)
  {
    && (forall id :: id in t.locks ==> t.locks[id] in t.objects)
    && (forall a :: a in t.objects ==> a < t.next)
    && (forall i, j :: i in t.locks && j in t.locks && t.locks[i] == t.locks[j] ==> i == j)
  }

  function Do(w: World, step: Step): (w': World)
    requires Enabled(w, step)
  {
    match step
    case Arrive(c, id, wait) =>
      var (entry, t) := Enter(w.table, id, wait, c);
      var a := t.locks[id];
      var caller := match entry
        case Entered => Caller(id, a, Inside, w.clock, None)
        case Busy => Caller(id, a, Gone, w.clock, None)
        case Waits(_) => Caller(id, a, Waiting, w.clock, None);
      World(t, w.callers[c := caller], w.clock + 1)
    case Wake(c) => w.(callers := w.callers[c := w.callers[c].(phase := Inside)])
    case WakeCanceled(c) => ReleaseStep(w, c)
    case Cancel(c) =>
      var caller := w.callers[c];
      if c in LockAt(w.table, caller.address).waiters then
        w.(table := GaveUp(w.table, caller.id, caller.address, c), callers := w.callers[c := caller.(phase := Gone)])
      else ReleaseStep(w, c)
    case Leave(c) => ReleaseStep(w, c)
  }

  // ----- the invariant -----

  /** Inside, or handed the lock and not yet awake. */
  predicate Owner(callers: map<nat, Caller>, c: nat, id: string)
  {
    c in callers && callers[c].id == id
    && (callers[c].phase == Inside || (callers[c].phase == Waiting && callers[c].grant.Some?))
  }

  predicate InLine(callers: map<nat, Caller>, c: nat, id: string)
  {
    c in callers && callers[c].id == id && callers[c].phase == Waiting && callers[c].grant.None?
  }

  ghost predicate OneOwner(callers: map<nat, Caller>, id: string)
  {
    (exists c :: Owner(callers, c, id)) && forall c, d :: Owner(callers, c, id) && Owner(callers, d, id) ==> c == d
  }

  ghost predicate NoOne(callers: map<nat, Caller>, id: string)
  {
    forall c :: c in callers && callers[c].id == id ==> callers[c].phase == Gone
  }

  /** The line of a lock is its waiters, in the order of their tickets. */
  ghost predicate LineOf(callers: map<nat, Caller>, id: string, address: nat, line: seq<nat>)
  {
    && (forall c :: c in line <==> InLine(callers, c, id))
    && (forall c :: c in callers && callers[c].id == id && callers[c].phase == Waiting ==>
          callers[c].address == address)
    && Sorted(callers, line)
  }

  predicate Sorted(callers: map<nat, Caller>, line: seq<nat>)
  {
    && (forall c :: c in line ==> c in callers)
    && forall i, j :: 0 <= i < j < |line| ==> callers[line[i]].ticket < callers[line[j]].ticket
  }

  /** An entry in the map has exactly one owner; with no entry there is no one. */
  ghost predicate ExclusiveAt(t: Table, callers: map<nat, Caller>, id: string)
    requires AddressesKnown(t)
  {
    if id in t.locks then
      && t.objects[t.locks[id]].held && OneOwner(callers, id)
      && LineOf(callers, id, t.locks[id], t.objects[t.locks[id]].waiters)
    else NoOne(callers, id)
  }

  ghost predicate Exclusive(t: Table, callers: map<nat, Caller>)
    requires AddressesKnown(t)
  {
    forall id :: ExclusiveAt(t, callers, id)
  }

  ghost predicate Stamped(callers: map<nat, Caller>, clock: nat)
  {
    forall c :: c in callers ==>
      callers[c].ticket < clock && (callers[c].grant.Some? ==> callers[c].grant.value < clock)
  }

  predicate Earlier(callers: map<nat, Caller>, c: nat, d: nat)
  {
    c in callers && d in callers && callers[c].id == callers[d].id && callers[c].ticket < callers[d].ticket
  }

  /** Once a caller has been handed the lock, none that came before it is still in
      line, and those of them that were handed it were so earlier. */
  ghost predicate InOrder(callers: map<nat, Caller>)
  {
    forall c, d :: Earlier(callers, c, d) && callers[d].grant.Some? ==>
      !InLine(callers, c, callers[c].id)
      && (callers[c].grant.Some? ==> callers[c].grant.value < callers[d].grant.value)
  }

  ghost predicate Inv(w: World)
  {
    AddressesKnown(w.table) && Exclusive(w.table, w.callers) && Stamped(w.callers, w.clock) && InOrder(w.callers)
  }

  // ----- what a step leaves alone -----

  ghost predicate SameBut(callers: map<nat, Caller>, callers': map<nat, Caller>, id: string)
  {
    && (forall c :: c in callers && callers[c].id != id ==> c in callers' && callers'[c] == callers[c])
    && (forall c :: c in callers' && callers'[c].id != id ==> c in callers && callers'[c] == callers[c])
  }

  ghost predicate SameTableBut(t: Table, t': Table, id: string)
    requires AddressesKnown(t) && AddressesKnown(t')
  {
    forall i :: i != id ==>
      (i in t.locks <==> i in t'.locks)
      && (i in t.locks ==> t'.locks[i] == t.locks[i] && t'.objects[t.locks[i]] == t.objects[t.locks[i]])
  }

  lemma Elsewhere(t: Table, callers: map<nat, Caller>, t': Table, callers': map<nat, Caller>, id: string)
    requires AddressesKnown(t) && AddressesKnown(t') && Exclusive(t, callers)
    requires SameBut(callers, callers', id) && SameTableBut(t, t', id)
    requires ExclusiveAt(t', callers', id)
    ensures Exclusive(t', callers')
  {
    forall i ensures ExclusiveAt(t', callers', i)
    {
      if i != id {
        assert ExclusiveAt(t, callers, i);
        assert forall c :: Owner(callers', c, i) <==> Owner(callers, c, i);
        assert forall c :: InLine(callers', c, i) <==> InLine(callers, c, i);
        if i in t.locks {
          var o :| Owner(callers, o, i);
          assert Owner(callers', o, i);
        }
      }
    }
  }

  // ----- arriving -----

  lemma ArriveKeeps(w: World, c: nat, id: string, wait: bool)
    requires Inv(w) && Enabled(w, Arrive(c, id, wait))
    ensures Inv(Do(w, Arrive(c, id, wait)))
  {
    hide InOrder, Exclusive, Stamped;
    var w' := Do(w, Arrive(c, id, wait));
    assert AddressesKnown(w'.table);
    ArriveExclusive(w, c, id, wait);
    Elsewhere(w.table, w.callers, w'.table, w'.callers, id);
    ArriveInOrder(w.callers, c, w'.callers[c], w.clock);
  }

  lemma ArriveExclusive(w: World, c: nat, id: string, wait: bool)
    requires AddressesKnown(w.table) && Exclusive(w.table, w.callers) && Stamped(w.callers, w.clock)
    requires Enabled(w, Arrive(c, id, wait))
    ensures var w' := Do(w, Arrive(c, id, wait));
      AddressesKnown(w'.table) && ExclusiveAt(w'.table, w'.callers, id)
  {
    var w' := Do(w, Arrive(c, id, wait));
    assert ExclusiveAt(w.table, w.callers, id);
    hide Exclusive;
    assert forall d :: d != c ==> (Owner(w'.callers, d, id) <==> Owner(w.callers, d, id));
    assert forall d :: d != c ==> (InLine(w'.callers, d, id) <==> InLine(w.callers, d, id));
    if id in w.table.locks {
      var o :| Owner(w.callers, o, id);
      assert Owner(w'.callers, o, id);
      if wait { assert Sorted(w'.callers, w.table.objects[w.table.locks[id]].waiters + [c]); }
    } else {
      assert Owner(w'.callers, c, id);
    }
  }

  lemma ArriveInOrder(callers: map<nat, Caller>, c: nat, caller: Caller, clock: nat)
    requires Stamped(callers, clock) && InOrder(callers) && c !in callers
    requires caller.ticket == clock && caller.grant.None?
    ensures Stamped(callers[c := caller], clock + 1) && InOrder(callers[c := caller])
  {
    var callers' := callers[c := caller];
    forall x, y | Earlier(callers', x, y) && callers'[y].grant.Some?
      ensures !InLine(callers', x, callers'[x].id)
      ensures callers'[x].grant.Some? ==> callers'[x].grant.value < callers'[y].grant.value
    {
      assert Earlier(callers, x, y);
    }
  }

  lemma StampedLater(callers: map<nat, Caller>, clock: nat)
    requires Stamped(callers, clock)
    ensures Stamped(callers, clock + 1)
  {
  }

  // ----- one caller changes phase -----

  lemma PhaseInOrder(callers: map<nat, Caller>, c: nat, phase: Phase, clock: nat)
    requires Stamped(callers, clock) && InOrder(callers) && c in callers && phase != Waiting
    ensures Stamped(callers[c := callers[c].(phase := phase)], clock)
      && InOrder(callers[c := callers[c].(phase := phase)])
  {
    var callers' := callers[c := callers[c].(phase := phase)];
    forall x, y | Earlier(callers', x, y) && callers'[y].grant.Some?
      ensures !InLine(callers', x, callers'[x].id)
      ensures callers'[x].grant.Some? ==> callers'[x].grant.value < callers'[y].grant.value
    {
      assert Earlier(callers, x, y);
    }
  }

  lemma WakeKeeps(w: World, c: nat)
    requires Inv(w) && Enabled(w, Wake(c))
    ensures Inv(Do(w, Wake(c)))
  {
    var w' := Do(w, Wake(c));
    var id := w.callers[c].id;
    assert ExclusiveAt(w.table, w.callers, id);
    assert forall d :: Owner(w'.callers, d, id) <==> Owner(w.callers, d, id);
    assert forall d :: InLine(w'.callers, d, id) <==> InLine(w.callers, d, id);
    assert Owner(w.callers, c, id) && Owner(w'.callers, c, id);
    Elsewhere(w.table, w.callers, w'.table, w'.callers, id);
    PhaseInOrder(w.callers, c, Inside, w.clock);
  }

  /** A canceled waiter that was not handed the lock leaves the line. */
  lemma LineCancelKeeps(w: World, c: nat)
    requires Inv(w) && Enabled(w, Cancel(c)) && w.callers[c].grant.None?
    ensures Inv(Do(w, Cancel(c)))
    ensures Do(w, Cancel(c)).callers == w.callers[c := w.callers[c].(phase := Gone)]
  {
    var id := w.callers[c].id;
    assert ExclusiveAt(w.table, w.callers, id);
    assert InLine(w.callers, c, id);
    var w' := Do(w, Cancel(c));
    var a := w.table.locks[id];
    var line := w.table.objects[a].waiters;
    RemovedLine(w.callers, line, c, w'.callers);
    var o :| Owner(w.callers, o, id);
    assert Owner(w'.callers, o, id);
    assert forall d :: Owner(w'.callers, d, id) <==> Owner(w.callers, d, id);
    assert forall d :: InLine(w'.callers, d, id) <==> d != c && InLine(w.callers, d, id);
    Elsewhere(w.table, w.callers, w'.table, w'.callers, id);
    PhaseInOrder(w.callers, c, Gone, w.clock);
  }

  lemma RemovedLine(callers: map<nat, Caller>, line: seq<nat>, c: nat, callers': map<nat, Caller>)
    requires Sorted(callers, line)
    requires forall d :: d in callers ==> d in callers' && callers'[d].ticket == callers[d].ticket
    ensures forall d :: d in Removed(line, c) <==> d in line && d != c
    ensures Sorted(callers', Removed(line, c))
  {
    assert forall i, j :: 0 <= i < j < |line| ==> line[i] != line[j];
    RemovedMembers(line, c);
    RemovedSorted(callers, line, c);
  }

  lemma {:induction false} RemovedMembers(line: seq<nat>, c: nat)
    requires forall i, j :: 0 <= i < j < |line| ==> line[i] != line[j]
    ensures forall d :: d in Removed(line, c) <==> d in line && d != c
  {
    if line != [] {
      RemovedMembers(line[1..], c);
      assert forall d :: d in line <==> d == line[0] || d in line[1..];
    }
  }

  lemma {:induction false} RemovedSorted(callers: map<nat, Caller>, line: seq<nat>, c: nat)
    requires Sorted(callers, line)
    ensures Sorted(callers, Removed(line, c))
    ensures forall d :: d in Removed(line, c) ==> d in line
  {
    if line != [] {
      var rest := line[1..];
      assert Sorted(callers, rest);
      FirstIsFirst(callers, line);
      RemovedSorted(callers, rest, c);
      var r := Removed(rest, c);
      assert forall i :: 0 <= i < |r| ==> r[i] in rest;
      assert forall d :: d in rest ==> d in line;
    }
  }

  // ----- releasing -----

  /** The owner goes: the lock passes to the first in line, or is taken off the map. */
  lemma ReleaseKeeps(w: World, c: nat)
    requires Inv(w) && c in w.callers && Owner(w.callers, c, w.callers[c].id)
    ensures Inv(ReleaseStep(w, c))
  {
    hide InOrder, Stamped;
    var id := w.callers[c].id;
    assert ExclusiveAt(w.table, w.callers, id);
    var w' := ReleaseStep(w, c);
    var a := w.table.locks[id];
    var line := w.table.objects[a].waiters;
    var gone := w.callers[c := w.callers[c].(phase := Gone)];
    PhaseInOrder(w.callers, c, Gone, w.clock);
    StampedLater(gone, w.clock);
    if line == [] {
      assert forall d :: d in w'.callers && w'.callers[d].id == id ==>
        (d != c ==> !Owner(w.callers, d, id) && !InLine(w.callers, d, id));
    } else {
      var h := line[0];
      assert h in line && InLine(w.callers, h, id);
      assert w'.callers == gone[h := gone[h].(grant := Some(w.clock))];
      HandOff(w.callers, c, id, a, line, w.clock);
    }
    assert ExclusiveAt(w'.table, w'.callers, id);
    hide OneOwner, LineOf, NoOne, Owner, InLine;
    Elsewhere(w.table, w.callers, w'.table, w'.callers, id);
  }

  lemma HandOff(callers: map<nat, Caller>, c: nat, id: string, a: nat, line: seq<nat>, clock: nat)
    requires Owner(callers, c, id) && OneOwner(callers, id) && LineOf(callers, id, a, line) && line != []
    requires Stamped(callers, clock) && InOrder(callers)
    ensures var gone := callers[c := callers[c].(phase := Gone)];
      InLine(callers, line[0], id) && line[0] != c &&
      var callers' := gone[line[0] := gone[line[0]].(grant := Some(clock))];
      OneOwner(callers', id) && LineOf(callers', id, a, line[1..]) && Stamped(callers', clock + 1) && InOrder(callers')
  {
    var h := line[0];
    assert h in line;
    var gone := callers[c := callers[c].(phase := Gone)];
    var callers' := gone[h := gone[h].(grant := Some(clock))];
    assert Owner(callers', h, id);
    forall d | Owner(callers', d, id) ensures d == h
    {
      assert d != h ==> Owner(callers, d, id);
    }
    var rest := line[1..];
    forall d ensures d in rest <==> InLine(callers', d, id)
    {
      assert d in line <==> d == h || d in rest;
      assert h !in rest by { FirstIsFirst(callers, line); }
      assert d != h ==> (InLine(callers', d, id) <==> InLine(callers, d, id));
    }
    PhaseInOrder(callers, c, Gone, clock);
    forall x, y | Earlier(callers', x, y) && callers'[y].grant.Some?
      ensures !InLine(callers', x, callers'[x].id)
      ensures callers'[x].grant.Some? ==> callers'[x].grant.value < callers'[y].grant.value
    {
      assert Earlier(callers, x, y);
      if y == h {
        if InLine(callers, x, id) { FirstIsFirst(callers, line); }
      }
    }
  }

  lemma FirstIsFirst(callers: map<nat, Caller>, line: seq<nat>)
    requires Sorted(callers, line) && line != []
    ensures line[0] !in line[1..]
    ensures forall d :: d in line && d != line[0] ==> callers[line[0]].ticket < callers[d].ticket
  {
    forall d | d in line[1..] ensures callers[line[0]].ticket < callers[d].ticket
    {
      var i :| 0 <= i < |line[1..]| && line[1..][i] == d;
      assert line[i + 1] == d;
    }
  }

  // ----- every run -----

  ghost predicate Runs(w: World, steps: seq<Step>)
    decreases |steps|
  {
    steps == [] || (Enabled(w, steps[0]) && Runs(Do(w, steps[0]), steps[1..]))
  }

  ghost function After(w: World, steps: seq<Step>): (w': World)
    requires Runs(w, steps)
    decreases |steps|
  {
    if steps == [] then w else After(Do(w, steps[0]), steps[1..])
  }

  lemma StepKeeps(w: World, step: Step)
    requires Inv(w) && Enabled(w, step)
    ensures Inv(Do(w, step))
  {
    match step
    case Arrive(c, id, wait) => ArriveKeeps(w, c, id, wait);
    case Wake(c) => WakeKeeps(w, c);
    case WakeCanceled(c) => ReleaseKeeps(w, c);
    case Cancel(c) =>
      if w.callers[c].grant.None? {
        LineCancelKeeps(w, c);
      } else {
        NotInLine(w, c);
        ReleaseKeeps(w, c);
      }
    case Leave(c) => ReleaseKeeps(w, c);
  }

  /** A caller that was handed the lock is in no line, so its cancel hands it on. */
  lemma NotInLine(w: World, c: nat)
    requires Inv(w) && At(w.callers, c, Waiting) && w.callers[c].grant.Some?
    ensures Do(w, Cancel(c)) == ReleaseStep(w, c)
  {
    assert ExclusiveAt(w.table, w.callers, w.callers[c].id);
  }

  predicate Fresh(w: World)
  {
    w.table == Table(map[], map[], 0) && w.callers == map[]
  }

  lemma {:induction false} RunsKeep(w: World, steps: seq<Step>)
    requires Inv(w) && Runs(w, steps)
    ensures Inv(After(w, steps))
    decreases |steps|
  {
    if steps != [] {
      StepKeeps(w, steps[0]);
      hide Inv, Do, Enabled;
      RunsKeep(Do(w, steps[0]), steps[1..]);
    }
  }

  /** Whatever callers arrive, wake, leave and are canceled, an entry in the map
      means exactly one owner, and no entry means no owner and nobody waiting. */
  lemma OneOwnerPerEntry(w: World, steps: seq<Step>, id: string)
    requires Fresh(w) && Runs(w, steps)
    ensures var w' := After(w, steps);
      && (id in w'.table.locks ==>
            LockAt(w'.table, w'.table.locks[id]).held
            && exists c :: Owner(w'.callers, c, id) && forall d :: Owner(w'.callers, d, id) ==> d == c)
      && (id !in w'.table.locks ==>
            forall c :: c in w'.callers && w'.callers[c].id == id ==> w'.callers[c].phase == Gone)
  {
    RunsKeep(w, steps);
    var w' := After(w, steps);
    assert ExclusiveAt(w'.table, w'.callers, id);
    if id in w'.table.locks {
      var c :| Owner(w'.callers, c, id);
      assert forall d :: Owner(w'.callers, d, id) ==> d == c;
    }
  }

  /** The lock is handed over in the order callers began to wait: of two that waited
      on one Session, when the later has been handed it the earlier was handed it
      before, or has given up. */
  lemma GrantsInArrivalOrder(w: World, steps: seq<Step>, c: nat, d: nat)
    requires Fresh(w) && Runs(w, steps)
    requires Earlier(After(w, steps).callers, c, d) && After(w, steps).callers[d].grant.Some?
    ensures var callers := After(w, steps).callers;
      if callers[c].grant.Some? then callers[c].grant.value < callers[d].grant.value
      else callers[c].phase != Waiting
  {
    RunsKeep(w, steps);
  }

  /** A caller enters at once exactly when nobody owns the lock; otherwise it waits when
      it may, and is refused when it may not. */
  lemma ArrivalsAreServed(w: World, steps: seq<Step>, c: nat, id: string, wait: bool)
    requires Fresh(w) && Runs(w, steps) && c !in After(w, steps).callers
    ensures var w1 := After(w, steps); var phase := Do(w1, Arrive(c, id, wait)).callers[c].phase;
      var owned := exists d :: Owner(w1.callers, d, id);
      && (phase == Inside <==> !owned) && (phase == Waiting <==> owned && wait) && (phase == Gone <==> owned && !wait)
  {
    RunsKeep(w, steps);
    OneOwnerPerEntry(w, steps, id);
  }
}
