/** The custody of every message a caller was told is queued: callers that
    reserve, write and fill, the Run that takes, commits, drops and puts back, its
    end that drops or keeps what waits, the host between Runs, and the close. In
    every reachable state each written message is in exactly one place. */
module Custody {
  import opened Seqs
  import opened ControlQueue

  datatype Leased = Leased(items: seq<Control>, settled: nat)

  /** The Run in flight, and how far its beginning and its end have come. */
  datatype RunFlags = RunFlags(
    begun: bool,              // beginRun has reset the flags, and has not set inRun
    inRun: bool,
    ending: bool,
    keeps: bool,              // the ending Run leaves its queue for the host
    drained: bool,            // the ending Run has dropped what waited
    left: bool)               // a Run over by now left its queue, which the host has not taken

  /** Where a message is when it is not in the queue. */
  datatype Places = Places(
    unfilled: seq<Control>,   // between the write of the queued Event and the fill
    lease: Option<Leased>,
    committed: seq<Control>,
    dropped: seq<Control>,
    host: seq<Control>)       // taken by the host between Runs

  datatype World = World(
    queue: Queue,
    reserved: PerKind,        // places claimed, whose queued Event is not written yet
    run: RunFlags,
    at: Places,
    written: set<nat>)        // every message whose queued Event was written

  datatype Step =
    | ReservePlace(source: Source)
    | WriteFails(kind: Kind)
    | WriteQueued(message: nat, source: Source, number: nat)
    | FillPlace(i: nat)
    | ResetRun
    | EnterRun
    | TakeControl(settling: bool)
    | TakeNotices
    | Commit
    | DropUncommitted
    | PutLeaseBack
    | BeginEnd(keeps: bool)
    | Discard
    | FinishRun
    | HostTake
    | HostRequeue(i: nat)
    | HostDrop(i: nat)
    | CloseSession

  // ----- the transition system -----

  /** Whether a message may be put in the queue now (controlGate). */
  predicate GateOpen(w: World, needsRun: bool)
  {
    !((needsRun && !w.run.inRun) || (w.run.inRun && w.run.ending && !w.run.keeps))
  }

  predicate Enabled(w: World, step: Step)
  {
    match step
    case ReservePlace(source) => !Full(w.queue, KindOf(source))
    case WriteFails(kind) => w.reserved.At(kind) > 0 && w.queue.held.At(kind) > 0
    case WriteQueued(message, source, _) => message !in w.written && w.reserved.At(KindOf(source)) > 0
    case FillPlace(i) => i < |w.at.unfilled| && w.queue.held.At(w.at.unfilled[i].kind) > 0
    case ResetRun => !w.run.inRun && !w.run.begun && !w.queue.sealed
    case EnterRun => w.run.begun
    case TakeControl(_) => w.run.inRun && !w.run.ending && w.at.lease.None?
    case TakeNotices => w.run.inRun && !w.run.ending && w.at.lease.None?
    case Commit => w.at.lease.Some? && w.at.lease.value.settled < |w.at.lease.value.items|
    case DropUncommitted => w.at.lease.Some? && w.at.lease.value.settled < |w.at.lease.value.items|
    case PutLeaseBack => w.at.lease.Some? && w.at.lease.value.settled <= |w.at.lease.value.items|
    case BeginEnd(_) => w.run.inRun && !w.run.ending && w.at.lease.None?
    case Discard => w.run.inRun && w.run.ending && !w.run.keeps && !w.run.drained
    case FinishRun => w.run.inRun && w.run.ending && (w.run.keeps || w.run.drained)
    case HostTake => true
    case HostRequeue(i) => i < |w.at.host|
    case HostDrop(i) => i < |w.at.host|
    case CloseSession => !w.run.inRun && !w.run.begun
  }

  function Without<T>(s: seq<T>, i: nat): (r: seq<T>)
    requires i < |s|
  {
    s[..i] + s[i + 1..]
  }

  /** A requeued Interrupt is a Steer, and goes to the Steer queue while that has
      room, then to the FollowUp queue. */
  function Requeued(q: Queue, m: Control): (r: Option<Queue>)
  {
    var source := if m.source == InterruptMessage then SteerMessage else m.source;
    var c := m.(source := source, kind := if source == NoticeMessage then Notice else Steer);
    if !q.sealed && !Full(q, c.kind) then Some(Added(q, c))
    else if c.kind == Steer && !q.sealed && !Full(q, FollowUp) then Some(Added(q, c.(kind := FollowUp)))
    else None
  }

  function Fill(w: World, i: nat): (w': World)
    requires Enabled(w, FillPlace(i))
  {
    var c := w.at.unfilled[i];
    var unfilled := Without(w.at.unfilled, i);
    if c.kind != Notice && !GateOpen(w, c.source == InterruptMessage) then
      w.(queue := Released(w.queue, c.kind), at := w.at.(unfilled := unfilled, dropped := w.at.dropped + [c]))
    else if w.queue.sealed then
      w.(queue := Filled(w.queue, c), at := w.at.(unfilled := unfilled, dropped := w.at.dropped + [c]))
    else w.(queue := Filled(w.queue, c), at := w.at.(unfilled := unfilled))
  }

  function Lease(w: World, out: seq<Control>, left: seq<Control>): (w': World)
  {
    w.(queue := w.queue.(items := left), at := w.at.(lease := Some(Leased(out, 0))))
  }

  function Settled(lease: Option<Leased>): (r: Option<Leased>)
    requires lease.Some?
  {
    Some(lease.value.(settled := lease.value.settled + 1))
  }

  function NotNotice(): (p: Control -> bool)
    ensures forall c :: p(c) <==> c.kind != Notice
  {
    (c: Control) => c.kind != Notice
  }

  function IsNotice(): (p: Control -> bool)
    ensures forall c :: p(c) <==> c.kind == Notice
  {
    (c: Control) => c.kind == Notice
  }

  function Do(w: World, step: Step): (w': World)
    requires Enabled(w, step)
  {
    match step
    case ReservePlace(source) =>
      w.(queue := Reserved(w.queue, KindOf(source)),
         reserved := w.reserved.With(KindOf(source), w.reserved.At(KindOf(source)) + 1))
    case WriteFails(kind) =>
      w.(queue := Released(w.queue, kind), reserved := w.reserved.With(kind, w.reserved.At(kind) - 1))
    case WriteQueued(message, source, number) =>
      var kind := KindOf(source);
      w.(reserved := w.reserved.With(kind, w.reserved.At(kind) - 1), written := w.written + {message},
         at := w.at.(unfilled := w.at.unfilled + [Control(0, message, source, kind, number)]))
    case FillPlace(i) => Fill(w, i)
    case ResetRun => w.(run := RunFlags(true, false, false, false, false, w.run.left))
    case EnterRun => w.(run := w.run.(begun := false, inRun := true))
    case TakeControl(settling) => Lease(w, Picked(w.queue.items, settling), Left(w.queue.items, settling))
    case TakeNotices => Lease(w, Filter(IsNotice(), w.queue.items), Filter(NotNotice(), w.queue.items))
    case Commit =>
      var c := w.at.lease.value.items[w.at.lease.value.settled];
      w.(at := w.at.(lease := Settled(w.at.lease), committed := w.at.committed + [c]))
    case DropUncommitted =>
      var c := w.at.lease.value.items[w.at.lease.value.settled];
      w.(at := w.at.(lease := Settled(w.at.lease), dropped := w.at.dropped + [c]))
    case PutLeaseBack =>
      w.(queue := w.queue.(items := PutBack(w.queue.items, Rest(w.at.lease))), at := w.at.(lease := None))
    case BeginEnd(keeps) => w.(run := w.run.(ending := true, keeps := keeps))
    case Discard =>
      w.(at := w.at.(dropped := w.at.dropped + Filter(NotNotice(), w.queue.items)),
         queue := w.queue.(items := Filter(IsNotice(), w.queue.items)), run := w.run.(drained := true, left := false))
    case FinishRun => w.(run := w.run.(inRun := false, left := w.run.keeps))
    case HostTake =>
      w.(at := w.at.(host := w.at.host + w.queue.items), queue := w.queue.(items := []),
         run := w.run.(left := false))
    case HostRequeue(i) =>
      (match if GateOpen(w, false) then Requeued(w.queue, w.at.host[i]) else None
       case Some(queue) => w.(queue := queue, at := w.at.(host := Without(w.at.host, i)))
       case None => w)
    case HostDrop(i) =>
      w.(at := w.at.(host := Without(w.at.host, i), dropped := w.at.dropped + [w.at.host[i]]))
    case CloseSession =>
      w.(at := w.at.(dropped := w.at.dropped + w.queue.items), queue := w.queue.(items := [], sealed := true))
  }

  ghost predicate Runs(w: World, steps: seq<Step>)
    decreases |steps|
  {
    steps == [] || (Enabled(w, steps[0]) && Runs(Do(w, steps[0]), steps[1..]))
  }

  ghost function After(w: World, steps: seq<Step>): (w': World)
    requires Runs(w, steps)
    decreases |steps|
  {
    if steps == [] then w else After(Do(w, steps[0]), steps[1..])
  }

  predicate Fresh(w: World)
  {
    && w.queue.items == [] && w.queue.held == PerKind(0, 0, 0) && w.queue.last == 0 && !w.queue.sealed
    && w.reserved == PerKind(0, 0, 0) && w.run == RunFlags(false, false, false, false, false, false)
    && w.at == Places([], None, [], [], []) && w.written == {}
  }

  // ----- the invariant -----

  function Rest(lease: Option<Leased>): (r: seq<Control>)
  {
    if lease.Some? && lease.value.settled <= |lease.value.items| then lease.value.items[lease.value.settled..] else []
  }

  /** How often a message is in a place. */
  function Times(cs: seq<Control>, message: nat): (n: nat)
  {
    if cs == [] then 0
    else Times(cs[..|cs| - 1], message) + if cs[|cs| - 1].message == message then 1 else 0
  }

  /** How often it is anywhere: between write and fill, in the queue, in what is
      left of the lease, committed, dropped, or with the host. */
  function Census(items: seq<Control>, at: Places, message: nat): (n: nat)
  {
    Times(at.unfilled, message) + Times(items, message) + Times(Rest(at.lease), message)
    + Times(at.committed, message) + Times(at.dropped, message) + Times(at.host, message)
  }

  ghost predicate Counted(items: seq<Control>, at: Places, written: set<nat>)
  {
    forall m :: Census(items, at, m) == if m in written then 1 else 0
  }

  ghost predicate InOrder(queue: Queue, lease: Option<Leased>)
  {
    && Ordered(queue.items, queue.last)
    && (lease.Some? ==>
          lease.value.settled <= |lease.value.items|
          && Ordered(lease.value.items, queue.last) && Apart(lease.value.items, queue.items))
  }

  /** A notice waits among the notices and nothing else does, and an Interrupt among
      the Steers. */
  predicate KindMatches(c: Control)
  {
    (c.kind == Notice <==> c.source == NoticeMessage) && (c.source == InterruptMessage ==> c.kind == Steer)
  }

  predicate KindsMatch(cs: seq<Control>)
  {
    forall c :: c in cs ==> KindMatches(c)
  }

  /** Once a Run is ending without handoff and has drained, nothing it would take
      waits until it is over; nothing at all waits in a closed Session. */
  ghost predicate GateHolds(w: World)
  {
    && (w.run.inRun && w.run.ending ==> w.at.lease.None?)
    && (w.at.lease.Some? ==> w.run.inRun)
    && (w.run.begun ==> !w.run.inRun && !w.run.ending && !w.run.keeps)
    && (w.run.drained ==> w.run.ending && !w.run.keeps)
    && (w.queue.sealed ==> w.queue.items == [] && !w.run.inRun && !w.run.begun)
    && (w.run.inRun && w.run.drained ==> forall c :: c in w.queue.items ==> c.kind == Notice)
    && (!w.run.inRun && w.run.ending ==> w.run.keeps || w.run.drained)
    // An Interrupt waits only in a Run in flight, or for the host of a Run that left it.
    && (!w.run.inRun && !w.run.left ==> forall c :: c in w.queue.items ==> c.source != InterruptMessage)
  }

  /** A place is held for each reservation not written yet and each message not
      filled yet, and for nothing else. */
  ghost predicate PlacesMatch(held: PerKind, reserved: PerKind, unfilled: seq<Control>)
  {
    forall k :: held.At(k) == reserved.At(k) + Count(unfilled, k)
  }

  ghost predicate AllKindsMatch(unfilled: seq<Control>, items: seq<Control>, lease: Option<Leased>)
  {
    KindsMatch(unfilled) && KindsMatch(items) && (lease.Some? ==> KindsMatch(lease.value.items))
  }

  ghost predicate Inv(w: World)
  {
    && Counted(w.queue.items, w.at, w.written)
    && PlacesMatch(w.queue.held, w.reserved, w.at.unfilled)
    && InOrder(w.queue, w.at.lease)
    && AllKindsMatch(w.at.unfilled, w.queue.items, w.at.lease)
    && GateHolds(w)
  }

  // ----- counting messages -----

  lemma {:induction false} TimesAppend(a: seq<Control>, b: seq<Control>, m: nat)
    ensures Times(a + b, m) == Times(a, m) + Times(b, m)
  {
    if b == [] {
      assert a + b == a;
    } else {
      assert (a + b)[..|a + b| - 1] == a + b[..|b| - 1];
      TimesAppend(a, b[..|b| - 1], m);
    }
  }

  lemma TimesNone(m: nat)
    ensures Times([], m) == 0
  {
  }

  lemma TimesPush(a: seq<Control>, c: Control, m: nat)
    ensures Times(a + [c], m) == Times(a, m) + if c.message == m then 1 else 0
  {
    assert (a + [c])[..|a|] == a;
  }

  lemma TimesWithout(s: seq<Control>, i: nat, m: nat)
    requires i < |s|
    ensures Times(s, m) == Times(Without(s, i), m) + if s[i].message == m then 1 else 0
  {
    assert s == s[..i] + [s[i]] + s[i + 1..];
    TimesAppend(s[..i] + [s[i]], s[i + 1..], m);
    TimesPush(s[..i], s[i], m);
    TimesAppend(s[..i], s[i + 1..], m);
  }

  /** Counting does not depend on order. */
  lemma {:induction false} TimesPermute(a: seq<Control>, b: seq<Control>, m: nat)
    requires multiset(a) == multiset(b)
    ensures Times(a, m) == Times(b, m)
    decreases |a|
  {
    if a == [] {
      assert |multiset(b)| == 0;
    } else {
      var c := a[|a| - 1];
      assert c in multiset(b);
      var i :| 0 <= i < |b| && b[i] == c;
      assert b == b[..i] + [b[i]] + b[i + 1..];
      assert a == a[..|a| - 1] + [c];
      assert multiset(b) == multiset(Without(b, i)) + multiset{c};
      assert multiset(a) == multiset(a[..|a| - 1]) + multiset{c};
      assert multiset(a[..|a| - 1]) == multiset(a) - multiset{c};
      assert multiset(Without(b, i)) == multiset(b) - multiset{c};
      TimesPermute(a[..|a| - 1], Without(b, i), m);
      TimesWithout(b, i, m);
    }
  }

  lemma TimesSplit(all: seq<Control>, a: seq<Control>, b: seq<Control>, m: nat)
    requires multiset(all) == multiset(a) + multiset(b)
    ensures Times(all, m) == Times(a, m) + Times(b, m)
  {
    assert multiset(a + b) == multiset(all);
    TimesPermute(all, a + b, m);
    TimesAppend(a, b, m);
  }

  lemma {:induction false} CountAppend(a: seq<Control>, b: seq<Control>, k: Kind)
    ensures Count(a + b, k) == Count(a, k) + Count(b, k)
  {
    if b == [] {
      assert a + b == a;
    } else {
      assert (a + b)[..|a + b| - 1] == a + b[..|b| - 1];
      CountAppend(a, b[..|b| - 1], k);
    }
  }

  lemma CountPush(a: seq<Control>, c: Control, k: Kind)
    ensures Count(a + [c], k) == Count(a, k) + if c.kind == k then 1 else 0
  {
    assert (a + [c])[..|a|] == a;
  }

  lemma CountWithout(s: seq<Control>, i: nat, k: Kind)
    requires i < |s|
    ensures Count(s, k) == Count(Without(s, i), k) + if s[i].kind == k then 1 else 0
  {
    assert s == s[..i] + [s[i]] + s[i + 1..];
    CountAppend(s[..i] + [s[i]], s[i + 1..], k);
    CountPush(s[..i], s[i], k);
    CountAppend(s[..i], s[i + 1..], k);
  }

  // ----- facts about the parts of a step -----

  lemma KindsSplit(items: seq<Control>, last: nat)
    requires Ordered(items, last)
    ensures multiset(items) == multiset(Filter(NotNotice(), items)) + multiset(Filter(IsNotice(), items))
    ensures Ordered(Filter(NotNotice(), items), last) && Ordered(Filter(IsNotice(), items), last)
    ensures Apart(Filter(IsNotice(), items), Filter(NotNotice(), items))
    ensures forall c :: c in Filter(IsNotice(), items) <==> c in items && c.kind == Notice
  {
    FilterMultiset(NotNotice(), IsNotice(), items);
    FilterOrdered(NotNotice(), items, last);
    FilterOrdered(IsNotice(), items, last);
    SplitApart(IsNotice(), items);
    SameFilter(NotNotice(), c => !IsNotice()(c), items);
    forall c ensures c in Filter(IsNotice(), items) <==> c in items && c.kind == Notice
    {
      FilterMember(IsNotice(), items, c);
    }
  }

  /** What a requeue puts in the queue: the message, never as an Interrupt. */
  lemma RequeueFills(q: Queue, m: Control) returns (c: Control)
    requires Requeued(q, m).Some?
    ensures !q.sealed && Requeued(q, m).value == Enqueued(q, c)
    ensures c.message == m.message && c.source != InterruptMessage
    ensures (c.kind == Notice <==> m.source == NoticeMessage) && (c.kind == Notice <==> c.source == NoticeMessage)
  {
    var source := if m.source == InterruptMessage then SteerMessage else m.source;
    c := m.(source := source, kind := if source == NoticeMessage then Notice else Steer);
    if Full(q, c.kind) { c := c.(kind := FollowUp); }
  }

  /** The sequences a lease splits the queue into. */
  ghost predicate Splits(q: Queue, out: seq<Control>, left: seq<Control>)
  {
    && multiset(q.items) == multiset(out) + multiset(left)
    && Ordered(out, q.last) && Ordered(left, q.last) && Apart(out, left)
  }

  lemma TakesSplit(w: World, step: Step) returns (out: seq<Control>, left: seq<Control>)
    requires Inv(w) && (step.TakeControl? || step == TakeNotices) && Enabled(w, step)
    ensures Splits(w.queue, out, left) && Do(w, step) == Lease(w, out, left)
  {
    if step.TakeControl? {
      TakeSplits(w.queue.items, step.settling, w.queue.last);
      out, left := Picked(w.queue.items, step.settling), Left(w.queue.items, step.settling);
    } else {
      KindsSplit(w.queue.items, w.queue.last);
      out, left := Filter(IsNotice(), w.queue.items), Filter(NotNotice(), w.queue.items);
    }
  }

  lemma PutBackSplits(w: World)
    requires Inv(w) && Enabled(w, PutLeaseBack)
    ensures var q, rest := Do(w, PutLeaseBack).queue, Rest(w.at.lease);
      Ordered(q.items, q.last) && multiset(q.items) == multiset(rest) + multiset(w.queue.items)
    ensures forall c :: c in Do(w, PutLeaseBack).queue.items ==> c in w.queue.items || c in w.at.lease.value.items
  {
    var items, rest := w.at.lease.value.items, Rest(w.at.lease);
    OrderedSuffix(items, w.at.lease.value.settled, w.queue.last);
    forall x, y | x in rest && y in w.queue.items ensures x.order != y.order { assert x in items; }
    PutBackOrdered(w.queue.items, rest, w.queue.last);
    forall c | c in Do(w, PutLeaseBack).queue.items ensures c in w.queue.items || c in items
    {
      assert c in multiset(Do(w, PutLeaseBack).queue.items);
    }
  }

  // ----- each step moves a message from one place to one other -----

  lemma UnfilledMoves(items: seq<Control>, at: Places, i: nat, order: nat, m: nat)
    requires i < |at.unfilled|
    ensures var c, unfilled := at.unfilled[i], Without(at.unfilled, i);
      && Census(items + [c.(order := order)], at.(unfilled := unfilled), m) == Census(items, at, m)
      && Census(items, at.(unfilled := unfilled, dropped := at.dropped + [c]), m) == Census(items, at, m)
  {
    var c := at.unfilled[i];
    TimesWithout(at.unfilled, i, m);
    TimesPush(at.dropped, c, m);
    TimesPush(items, c.(order := order), m);
    hide Times, Without, Rest;
  }

  lemma FillCounts(w: World, i: nat, m: nat)
    requires Enabled(w, FillPlace(i))
    ensures Census(Fill(w, i).queue.items, Fill(w, i).at, m) == Census(w.queue.items, w.at, m)
  {
    hide Census, Without;
    UnfilledMoves(w.queue.items, w.at, i, w.queue.last + 1, m);
  }

  lemma RestMoves(lease: Option<Leased>)
    requires lease.Some? && lease.value.settled < |lease.value.items|
    ensures Rest(lease) != [] && Rest(lease)[0] == lease.value.items[lease.value.settled]
    ensures Without(Rest(lease), 0) == Rest(Settled(lease))
  {
  }

  lemma LeasedMoves(items: seq<Control>, at: Places, m: nat)
    requires at.lease.Some? && at.lease.value.settled < |at.lease.value.items|
    ensures var c := at.lease.value.items[at.lease.value.settled];
      && Census(items, at.(lease := Settled(at.lease), committed := at.committed + [c]), m) == Census(items, at, m)
      && Census(items, at.(lease := Settled(at.lease), dropped := at.dropped + [c]), m) == Census(items, at, m)
  {
    hide Times, Without, Rest;
    var c := at.lease.value.items[at.lease.value.settled];
    RestMoves(at.lease);
    TimesWithout(Rest(at.lease), 0, m);
    TimesPush(at.committed, c, m);
    TimesPush(at.dropped, c, m);
  }

  lemma SettleCounts(w: World, step: Step, m: nat)
    requires (step == Commit || step == DropUncommitted) && Enabled(w, step)
    ensures Census(w.queue.items, Do(w, step).at, m) == Census(w.queue.items, w.at, m)
  {
    LeasedMoves(w.queue.items, w.at, m);
    hide Census, Settled;
  }

  lemma TakeCounts(w: World, out: seq<Control>, left: seq<Control>, m: nat)
    requires w.at.lease.None? && Splits(w.queue, out, left)
    ensures Census(left, Lease(w, out, left).at, m) == Census(w.queue.items, w.at, m)
  {
    TimesSplit(w.queue.items, out, left, m);
    assert Rest(Lease(w, out, left).at.lease) == out;
    assert Times(Rest(w.at.lease), m) == 0;
    hide Times, Rest, Splits;
  }

  lemma RestNone()
    ensures Rest(None) == []
  {
  }

  lemma PutBackCounts(w: World, m: nat)
    requires Inv(w) && Enabled(w, PutLeaseBack)
    ensures Census(Do(w, PutLeaseBack).queue.items, Do(w, PutLeaseBack).at, m) == Census(w.queue.items, w.at, m)
  {
    hide Times, Rest, PutBack, Inv, Ordered;
    PutBackSplits(w);
    TimesSplit(Do(w, PutLeaseBack).queue.items, Rest(w.at.lease), w.queue.items, m);
    TimesNone(m);
    assert Rest(None) == [] by { RestNone(); }
  }

  lemma QueueDrops(items: seq<Control>, at: Places, out: seq<Control>, left: seq<Control>, m: nat)
    requires multiset(items) == multiset(out) + multiset(left)
    ensures Census(left, at.(dropped := at.dropped + out), m) == Census(items, at, m)
  {
    TimesSplit(items, out, left, m);
    TimesAppend(at.dropped, out, m);
    hide Times, Rest;
  }

  lemma DiscardCounts(w: World, m: nat)
    requires Enabled(w, Discard)
    ensures Census(Do(w, Discard).queue.items, Do(w, Discard).at, m) == Census(w.queue.items, w.at, m)
  {
    FilterMultiset(NotNotice(), IsNotice(), w.queue.items);
    hide Census, Filter;
    QueueDrops(w.queue.items, w.at, Filter(NotNotice(), w.queue.items), Filter(IsNotice(), w.queue.items), m);
  }

  lemma RequeueCounts(w: World, i: nat, m: nat)
    requires Enabled(w, HostRequeue(i))
    ensures Census(Do(w, HostRequeue(i)).queue.items, Do(w, HostRequeue(i)).at, m) == Census(w.queue.items, w.at, m)
  {
    hide Times, Rest, Without, Requeued;
    TimesWithout(w.at.host, i, m);
    if GateOpen(w, false) && Requeued(w.queue, w.at.host[i]).Some? {
      var c := RequeueFills(w.queue, w.at.host[i]);
      TimesPush(w.queue.items, c.(order := w.queue.last + 1), m);
    }
  }

  lemma HostCounts(w: World, step: Step, m: nat)
    requires Enabled(w, step) && (step == HostTake || step.HostDrop? || step == CloseSession)
    ensures Census(Do(w, step).queue.items, Do(w, step).at, m) == Census(w.queue.items, w.at, m)
  {
    hide Times, Rest, Without, Requeued;
    TimesNone(m);
    if step.HostDrop? {
      TimesWithout(w.at.host, step.i, m);
      TimesPush(w.at.dropped, w.at.host[step.i], m);
    } else {
      TimesAppend(w.at.host, w.queue.items, m);
      TimesAppend(w.at.dropped, w.queue.items, m);
    }
  }

  lemma StepCounts(w: World, step: Step, m: nat)
    requires Inv(w) && Enabled(w, step)
    ensures Census(Do(w, step).queue.items, Do(w, step).at, m)
      == Census(w.queue.items, w.at, m) + if step.WriteQueued? && step.message == m then 1 else 0
  {
    hide Times, Inv, Filter, Picked, Left, PutBack, Rest, Without, Requeued;
    match step
    case WriteQueued(message, source, number) =>
      TimesPush(w.at.unfilled, Control(0, message, source, KindOf(source), number), m);
    case FillPlace(i) => FillCounts(w, i, m);
    case Commit => SettleCounts(w, step, m);
    case DropUncommitted => SettleCounts(w, step, m);
    case TakeControl(_) => var out, left := TakesSplit(w, step); TakeCounts(w, out, left, m);
    case TakeNotices => var out, left := TakesSplit(w, step); TakeCounts(w, out, left, m);
    case PutLeaseBack => PutBackCounts(w, m);
    case Discard => DiscardCounts(w, m);
    case HostTake => HostCounts(w, step, m);
    case HostRequeue(i) => RequeueCounts(w, i, m);
    case HostDrop(_) => HostCounts(w, step, m);
    case CloseSession => HostCounts(w, step, m);
    case _ =>
  }

  // ----- each step keeps the rest of the invariant -----

  lemma FillPlaces(w: World, i: nat, k: Kind)
    requires Inv(w) && Enabled(w, FillPlace(i))
    ensures var w' := Fill(w, i); w'.queue.held.At(k) == w'.reserved.At(k) + Count(w'.at.unfilled, k)
  {
    hide Counted, InOrder, AllKindsMatch, GateHolds, Count, Without;
    CountWithout(w.at.unfilled, i, k);
  }

  lemma StepPlaces(w: World, step: Step, k: Kind)
    requires Inv(w) && Enabled(w, step)
    ensures var w' := Do(w, step); w'.queue.held.At(k) == w'.reserved.At(k) + Count(w'.at.unfilled, k)
  {
    hide Counted, InOrder, AllKindsMatch, GateHolds, Count, Without, Picked, Left, PutBack, Filter, Fill, Requeued;
    match step
    case WriteQueued(message, source, number) =>
      CountPush(w.at.unfilled, Control(0, message, source, KindOf(source), number), k);
    case FillPlace(i) => FillPlaces(w, i, k);
    case HostRequeue(i) =>
      if GateOpen(w, false) && Requeued(w.queue, w.at.host[i]).Some? {
        var c := RequeueFills(w.queue, w.at.host[i]);
      }
    case _ =>
  }

  lemma StepOrder(w: World, step: Step)
    requires Inv(w) && Enabled(w, step)
    ensures InOrder(Do(w, step).queue, Do(w, step).at.lease)
  {
    hide Counted, PlacesMatch, AllKindsMatch, GateHolds, Filter, Picked, Left, PutBack, Count;
    match step
    case FillPlace(i) => EnqueueOrdered(Released(w.queue, w.at.unfilled[i].kind), w.at.unfilled[i]);
    case TakeControl(_) => var out, left := TakesSplit(w, step);
    case TakeNotices => var out, left := TakesSplit(w, step);
    case PutLeaseBack => PutBackSplits(w);
    case Discard => KindsSplit(w.queue.items, w.queue.last);
    case HostRequeue(i) =>
      if GateOpen(w, false) && Requeued(w.queue, w.at.host[i]).Some? {
        var c := RequeueFills(w.queue, w.at.host[i]);
        EnqueueOrdered(w.queue, c);
      }
    case _ =>
  }

  /** The messages in the queue, in order of where they came from. */
  lemma QueueOrigin(w: World, step: Step, c: Control)
    requires Inv(w) && Enabled(w, step) && c in Do(w, step).queue.items
    ensures
      || c in w.queue.items
      || (step.FillPlace? && !w.queue.sealed && KindMatches(c)
          && (c.kind == Notice || GateOpen(w, c.source == InterruptMessage)))
      || (step == PutLeaseBack && c in w.at.lease.value.items)
      || (step.HostRequeue? && !w.queue.sealed && GateOpen(w, false)
          && KindMatches(c) && c.source != InterruptMessage)
    ensures step == Discard ==> c.kind == Notice
  {
    match step
    case FillPlace(i) => assert w.at.unfilled[i] in w.at.unfilled;
    case TakeControl(settling) => FilterMember(x => !Takes(w.queue.items, settling, x), w.queue.items, c);
    case TakeNotices => FilterMember(NotNotice(), w.queue.items, c);
    case Discard => FilterMember(IsNotice(), w.queue.items, c);
    case PutLeaseBack => PutBackSplits(w);
    case HostRequeue(i) =>
      if GateOpen(w, false) && Requeued(w.queue, w.at.host[i]).Some? {
        var x := RequeueFills(w.queue, w.at.host[i]);
      }
    case _ =>
  }

  lemma LeaseOrigin(w: World, step: Step, c: Control)
    requires Inv(w) && Enabled(w, step) && Do(w, step).at.lease.Some? && c in Do(w, step).at.lease.value.items
    ensures c in w.queue.items || (w.at.lease.Some? && c in w.at.lease.value.items)
  {
    match step
    case TakeControl(settling) => FilterMember(x => Takes(w.queue.items, settling, x), w.queue.items, c);
    case TakeNotices => FilterMember(IsNotice(), w.queue.items, c);
    case _ =>
  }

  lemma StepKinds(w: World, step: Step)
    requires Inv(w) && Enabled(w, step)
    ensures var w' := Do(w, step); AllKindsMatch(w'.at.unfilled, w'.queue.items, w'.at.lease)
  {
    var w' := Do(w, step);
    forall c | c in w'.queue.items ensures KindMatches(c) { QueueOrigin(w, step, c); }
    if w'.at.lease.Some? {
      forall c | c in w'.at.lease.value.items ensures KindMatches(c) { LeaseOrigin(w, step, c); }
    }
    forall c | c in w'.at.unfilled ensures KindMatches(c)
    {
      if step.FillPlace? { assert c in w.at.unfilled; }
    }
  }

  lemma StepGate(w: World, step: Step)
    requires Inv(w) && Enabled(w, step)
    ensures GateHolds(Do(w, step))
  {
    var w' := Do(w, step);
    forall c | c in w'.queue.items
      ensures w'.run.inRun && w'.run.drained ==> c.kind == Notice
      ensures !w'.run.inRun && !w'.run.left ==> c.source != InterruptMessage
      ensures !w'.queue.sealed
    {
      QueueOrigin(w, step, c);
      GateOrigin(w, step, c);
    }
  }

  lemma GateOrigin(w: World, step: Step, c: Control)
    requires Inv(w) && Enabled(w, step) && c in Do(w, step).queue.items
    ensures var w' := Do(w, step);
      && (w'.run.inRun && w'.run.drained ==> c.kind == Notice)
      && (!w'.run.inRun && !w'.run.left ==> c.source != InterruptMessage)
      && !w'.queue.sealed
  {
    QueueOrigin(w, step, c);
    hide Filter, Ordered, Counted;
  }

  lemma StepKeeps(w: World, step: Step)
    requires Inv(w) && Enabled(w, step)
    ensures Inv(Do(w, step))
  {
    StepCounted(w, step);
    StepPlacesMatch(w, step);
    StepOrder(w, step);
    StepKinds(w, step);
    StepGate(w, step);
    hide Do, GateHolds, AllKindsMatch, InOrder, Counted, PlacesMatch;
  }

  lemma StepCounted(w: World, step: Step)
    requires Inv(w) && Enabled(w, step)
    ensures Counted(Do(w, step).queue.items, Do(w, step).at, Do(w, step).written)
  {
    var w' := Do(w, step);
    assert w'.written == if step.WriteQueued? then w.written + {step.message} else w.written;
    assert step.WriteQueued? ==> step.message !in w.written;
    assert Counted(w.queue.items, w.at, w.written);
    hide Do, Enabled, Inv, Census;
    forall m ensures Census(w'.queue.items, w'.at, m) == if m in w'.written then 1 else 0
    {
      StepCounts(w, step, m);
    }
  }

  lemma StepPlacesMatch(w: World, step: Step)
    requires Inv(w) && Enabled(w, step)
    ensures var w' := Do(w, step); PlacesMatch(w'.queue.held, w'.reserved, w'.at.unfilled)
  {
    var w' := Do(w, step);
    hide Do, Enabled, Inv, Count;
    forall k ensures w'.queue.held.At(k) == w'.reserved.At(k) + Count(w'.at.unfilled, k)
    {
      StepPlaces(w, step, k);
    }
  }

  lemma {:induction false} RunsKeep(w: World, steps: seq<Step>)
    requires Inv(w) && Runs(w, steps)
    ensures Inv(After(w, steps))
    decreases |steps|
  {
    if steps != [] {
      StepKeeps(w, steps[0]);
      RunsKeep(Do(w, steps[0]), steps[1..]);
    }
  }

  // ----- the theorems -----

  /** In every reachable state each message whose queued Event was written is in
      exactly one place, once: waiting to be filled, in the queue, in what is left
      of the lease, committed, dropped, or with the host. */
  lemma ExactlyOnePlace(w: World, steps: seq<Step>, message: nat)
    requires Fresh(w) && Runs(w, steps)
    ensures var w' := After(w, steps);
      Times(w'.at.unfilled, message) + Times(w'.queue.items, message) + Times(Rest(w'.at.lease), message)
      + Times(w'.at.committed, message) + Times(w'.at.dropped, message) + Times(w'.at.host, message)
        == if message in w'.written then 1 else 0
  {
    RunsKeep(w, steps);
  }

  /** The end-of-Run gate, under every race: from the moment an ending Run has
      dropped what waited until it is over, no Steer, FollowUp or Interrupt is in
      the queue, and none is out on a lease that could bring it back. */
  lemma EndOfRunGate(w: World, steps: seq<Step>)
    requires Fresh(w) && Runs(w, steps)
    ensures var w' := After(w, steps);
      w'.run.inRun && w'.run.ending && !w'.run.keeps && w'.run.drained ==>
        w'.at.lease.None? && forall c :: c in w'.queue.items ==> c.source == NoticeMessage
  {
    RunsKeep(w, steps);
  }

  /** No Interrupt that arrived as one Run ended is found by the first model call
      of the next, unless a Run left its queue and the host did not take it. */
  lemma RunsStartUninterrupted(w: World, steps: seq<Step>)
    requires Fresh(w) && Runs(w, steps)
    ensures var w' := After(w, steps);
      w'.run.begun && !w'.run.left ==> forall c :: c in w'.queue.items ==> c.source != InterruptMessage
  {
    RunsKeep(w, steps);
  }

  /** An Interrupt never waits past a boundary, at settlement or before it: the take
      has every one, in any reachable state. */
  lemma NoInterruptIsLeft(w: World, steps: seq<Step>, settling: bool)
    requires Fresh(w) && Runs(w, steps)
    ensures var w' := After(w, steps);
      Enabled(w', TakeControl(settling)) ==>
        forall c :: c in Do(w', TakeControl(settling)).queue.items ==> c.source != InterruptMessage
  {
    RunsKeep(w, steps);
    var items := After(w, steps).queue.items;
    TakeIs(items, settling);
    assert forall c :: c in items ==> KindMatches(c);
    hide Picked, Left, Filter;
  }

  /** What a Run takes is what applies at the boundary, and goes to the lease; what it
      settles goes where the settlement says; a Run that ends without handoff drops all
      but the notices, the host takes all there is, and a close drops all there is. */
  lemma TakesAndDrops(w: World, step: Step, c: Control)
    requires Enabled(w, step)
    ensures var w' := Do(w, step); var taken, waits := Rest(w'.at.lease), w'.queue.items;
      && (step.TakeControl? ==>
            (c in taken <==> c in w.queue.items && Applies(w.queue.items, step.settling, c))
            && (c in waits <==> c in w.queue.items && !Applies(w.queue.items, step.settling, c)))
      && (step.TakeNotices? ==>
            (c in taken <==> c in w.queue.items && c.kind == Notice)
            && (c in waits <==> c in w.queue.items && c.kind != Notice))
      && (step.Discard? ==>
            (c in waits <==> c in w.queue.items && c.kind == Notice)
            && (c in w'.at.dropped <==> c in w.at.dropped || (c in w.queue.items && c.kind != Notice)))
  {
    hide Filter;
    match step
    case TakeControl(settling) => TakeIs(w.queue.items, settling); hide Picked, Left;
    case TakeNotices =>
      FilterMember(IsNotice(), w.queue.items, c);
      FilterMember(NotNotice(), w.queue.items, c);
    case Discard =>
      FilterMember(IsNotice(), w.queue.items, c);
      FilterMember(NotNotice(), w.queue.items, c);
    case _ =>
  }

  lemma SettlesAndMoves(w: World, step: Step)
    requires Enabled(w, step)
    ensures var at, at' := w.at, Do(w, step).at;
      && (step.Commit? ==> at'.committed == at.committed + [Rest(at.lease)[0]] && at'.dropped == at.dropped)
      && (step.DropUncommitted? ==> at'.dropped == at.dropped + [Rest(at.lease)[0]] && at'.committed == at.committed)
      && (step.Commit? || step.DropUncommitted? ==> Rest(at'.lease) == Rest(at.lease)[1..])
      && (step.HostTake? ==> at'.host == at.host + w.queue.items && Do(w, step).queue.items == [])
      && (step.CloseSession? ==> at'.dropped == at.dropped + w.queue.items && Do(w, step).queue.sealed)
  {
    hide Filter, Picked, Left, PutBack, Count;
  }

  /** A written message enters the queue unless that is closed, an Interrupt finds no
      Run, or a Run is ending that drops its queue; a notice only needs it open. What
      does not enter is dropped. */
  lemma FillReaches(w: World, i: nat)
    requires Enabled(w, FillPlace(i))
    ensures var c, w' := w.at.unfilled[i], Do(w, FillPlace(i));
      var late := (c.source == InterruptMessage && !w.run.inRun) || (w.run.inRun && w.run.ending && !w.run.keeps);
      var enters := !w.queue.sealed && (c.kind == Notice || !late);
      && w'.queue.items == w.queue.items + (if enters then [c.(order := w.queue.last + 1)] else [])
      && w'.at.dropped == w.at.dropped + (if enters then [] else [c])
      && w'.at.unfilled == w.at.unfilled[..i] + w.at.unfilled[i + 1..]
  {
  }

  /** What the host hands back waits as a Steer while there is room, then as a
      FollowUp, and stays with the host when there is none, the queue is closed, or a
      Run is ending that drops its queue. An Interrupt comes back as a Steer. */
  lemma RequeueReaches(w: World, i: nat)
    requires Enabled(w, HostRequeue(i))
    ensures var m, w' := w.at.host[i], Do(w, HostRequeue(i));
      var kind := if m.source == NoticeMessage then Notice else if HasRoom(w.queue, Steer) then Steer else FollowUp;
      var enters := !w.queue.sealed && !(w.run.inRun && w.run.ending && !w.run.keeps) && HasRoom(w.queue, kind);
      var source := if m.source == InterruptMessage then SteerMessage else m.source;
      && w'.queue.items == w.queue.items
           + (if enters then [m.(source := source, kind := kind, order := w.queue.last + 1)] else [])
      && w'.at.host == if enters then w.at.host[..i] + w.at.host[i + 1..] else w.at.host
  {
    CountIsPlaces(w.queue.items, Steer);
    CountIsPlaces(w.queue.items, FollowUp);
    CountIsPlaces(w.queue.items, Notice);
    hide Count, PlacesOf;
  }

  /** Nothing waits in a closed Session, and every place given out is accounted for. */
  lemma ClosedQueueIsEmpty(w: World, steps: seq<Step>)
    requires Fresh(w) && Runs(w, steps)
    ensures var w' := After(w, steps);
      && (w'.queue.sealed ==> w'.queue.items == [] && w'.at.lease.None?)
      && forall k :: w'.queue.held.At(k) == w'.reserved.At(k) + Count(w'.at.unfilled, k)
  {
    RunsKeep(w, steps);
  }
}
