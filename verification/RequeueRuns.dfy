/** A requeue in the middle of everything else: others reserve, fill and release,
    gates open and close, and Runs take messages under leases, settle them and put
    them back, between any two of its steps. As long as no better place comes free
    between two steps, the accepted messages are a prefix, and the Runs take them
    in their order. */
module RequeueRuns {
  import opened Seqs
  import opened ControlQueue
  import opened Requeue

  datatype World = World(
    q: Queue,
    open: bool,              // the gate
    lease: seq<Control>,     // what is left of the lease of the Run in flight
    out: seq<Control>,       // taken and settled, in order
    dropped: seq<Control>,
    put: seq<Control>,       // the requeued messages that were accepted, as they were put
    rest: seq<Control>,      // those returned
    seen: seq<Seen>)         // what each step of the requeue found

  datatype Step =
    | ReservePlace(kind: Kind)
    | ReleasePlace(kind: Kind)
    | FillPlace(c: Control)
    | AddMessage(c: Control)
    | SetGate(open: bool)
    | TakeControl(settling: bool)
    | TakeNotices
    | SettleOne
    | PutLeaseBack
    | DrainQueue(withNotices: bool)
    | SealQueue
    | RequeueNext

  // ----- the transition system -----

  predicate Mine(messages: seq<Control>, c: Control)
  {
    exists m :: m in messages && m.message == c.message
  }

  predicate Enabled(messages: seq<Control>, w: World, step: Step)
  {
    match step
    case ReleasePlace(kind) => w.q.held.At(kind) > 0
    case FillPlace(c) => w.q.held.At(c.kind) > 0 && !Mine(messages, c)
    case AddMessage(c) => !Mine(messages, c)
    case TakeControl(_) => w.lease == []
    case TakeNotices => w.lease == []
    case SettleOne => w.lease != []
    case RequeueNext => |w.seen| < |messages|
    case _ => true
  }

  function Take(w: World, pick: Control -> bool): (w': World)
  {
    w.(lease := Filter(pick, w.q.items), q := w.q.(items := Filter(c => !pick(c), w.q.items)))
  }

  function Drain(w: World, pick: Control -> bool): (w': World)
  {
    w.(dropped := w.dropped + Filter(pick, w.q.items), q := w.q.(items := Filter(c => !pick(c), w.q.items)))
  }

  function Next(w: World, m: Control): (w': World)
  {
    var s := Seen(w.q, w.open);
    match Put(s, m)
    case Some(q) => w.(q := q, put := w.put + if q.items == [] then [] else [Last(q.items)], seen := w.seen + [s])
    case None => w.(rest := w.rest + [m], seen := w.seen + [s])
  }

  function Do(messages: seq<Control>, w: World, step: Step): (w': World)
    requires Enabled(messages, w, step)
  {
    match step
    case ReservePlace(kind) => w.(q := Reserved(w.q, kind))
    case ReleasePlace(kind) => w.(q := Released(w.q, kind))
    case FillPlace(c) => w.(q := Filled(w.q, c))
    case AddMessage(c) => w.(q := Added(w.q, c))
    case SetGate(open) => w.(open := open)
    case TakeControl(settling) => Take(w, c => Takes(w.q.items, settling, c))
    case TakeNotices => Take(w, (c: Control) => c.kind == Notice)
    case SettleOne => w.(out := w.out + [w.lease[0]], lease := w.lease[1..])
    case PutLeaseBack => w.(q := w.q.(items := PutBack(w.q.items, w.lease)), lease := [])
    case DrainQueue(withNotices) => Drain(w, (c: Control) => withNotices || c.kind != Notice)
    case SealQueue => w.(q := w.q.(items := [], sealed := true), dropped := w.dropped + w.q.items)
    case RequeueNext => Next(w, messages[|w.seen|])
  }

  ghost predicate Runs(messages: seq<Control>, w: World, steps: seq<Step>)
    decreases |steps|
  {
    steps == [] || (Enabled(messages, w, steps[0]) && Runs(messages, Do(messages, w, steps[0]), steps[1..]))
  }

  ghost function After(messages: seq<Control>, w: World, steps: seq<Step>): (w': World)
    requires Runs(messages, w, steps)
    decreases |steps|
  {
    if steps == [] then w else After(messages, Do(messages, w, steps[0]), steps[1..])
  }

  /** Before the requeue: any queue, gate and lease, with none of the messages in them. */
  ghost predicate Fresh(messages: seq<Control>, w: World)
  {
    && Placed(w.q.items, w.lease, w.q.last)
    && w.put == [] && w.rest == [] && w.seen == []
    && forall c :: c in w.q.items || c in w.lease || c in w.out || c in w.dropped ==> !Mine(messages, c)
  }

  // ----- the invariant -----

  ghost predicate Placed(items: seq<Control>, lease: seq<Control>, last: nat)
  {
    Ordered(items, last) && Ordered(lease, last) && Apart(lease, items)
  }

  /** Ours in the first come before ours in the second. */
  ghost predicate Before(messages: seq<Control>, a: seq<Control>, b: seq<Control>)
  {
    forall x, y :: x in a && y in b && Mine(messages, x) && Mine(messages, y) ==> x.order < y.order
  }

  /** Ours were settled in order, before those of the lease, and those before the
      ones that wait. */
  ghost predicate InLine(messages: seq<Control>, out: seq<Control>, lease: seq<Control>, items: seq<Control>, last: nat)
  {
    && (forall i, j :: 0 <= i < j < |out| && Mine(messages, out[i]) && Mine(messages, out[j]) ==>
          out[i].order < out[j].order)
    && Before(messages, out, lease) && Before(messages, out, items) && Before(messages, lease, items)
    && forall c :: c in out && Mine(messages, c) ==> c.order <= last
  }

  predicate Waits(items: seq<Control>, lease: seq<Control>, c: Control)
  {
    c in items || c in lease
  }

  /** Ours wait as Steers first, and as FollowUps once a step found the Steer queue shut. */
  ghost predicate SteersFirst(messages: seq<Control>, items: seq<Control>, lease: seq<Control>, seen: seq<Seen>)
  {
    && (forall c :: Waits(items, lease, c) && Mine(messages, c) ==>
          c.kind != Notice && (c.kind == FollowUp ==> seen != [] && Rank(Last(seen)) >= 1))
    && forall x, y :: Waits(items, lease, x) && Waits(items, lease, y) && Mine(messages, x) && Mine(messages, y) ==>
         x.kind == Steer && y.kind == FollowUp ==> x.order < y.order
  }

  /** The accepted messages are the first ones, put in their order, the others of
      those that had their step were returned. */
  ghost predicate Prefix(messages: seq<Control>, put: seq<Control>, rest: seq<Control>, seen: seq<Seen>, last: nat)
  {
    && |put| <= |seen| <= |messages| && rest == messages[|put|..|seen|]
    && (|put| < |seen| ==> Rank(Last(seen)) == 2)
    && (forall i :: 0 <= i < |put| ==> put[i] == Entry(messages[i], put[i].kind, put[i].order))
    && Ordered(put, last)
  }

  /** Each accepted message was settled, was dropped, or still waits, and no other
      message bears its ID. */
  ghost predicate Accounted(messages: seq<Control>, put: seq<Control>, items: seq<Control>, lease: seq<Control>,
                            out: seq<Control>, dropped: seq<Control>)
  {
    forall c :: Mine(messages, c) ==> (c in put <==> Waits(items, lease, c) || c in out || c in dropped)
  }

  ghost predicate Inv(messages: seq<Control>, w: World)
  {
    && Placed(w.q.items, w.lease, w.q.last)
    && InLine(messages, w.out, w.lease, w.q.items, w.q.last)
    && SteersFirst(messages, w.q.items, w.lease, w.seen)
    && Prefix(messages, w.put, w.rest, w.seen, w.q.last)
    && Accounted(messages, w.put, w.q.items, w.lease, w.out, w.dropped)
  }

  // ----- each step keeps it -----

  lemma PushOrdered(s: seq<Control>, c: Control, last: nat)
    requires Ordered(s, last) && c.order == last + 1
    ensures Ordered(s + [c], last + 1)
  {
    forall i, j | 0 <= i < j < |s + [c]| ensures EarlierThan()((s + [c])[i], (s + [c])[j])
    {
      assert s[i] in s;
      assert j < |s| ==> EarlierThan()(s[i], s[j]);
    }
  }

  lemma PushPlaced(items: seq<Control>, lease: seq<Control>, c: Control, last: nat)
    requires Placed(items, lease, last) && c.order == last + 1
    ensures Placed(items + [c], lease, last + 1)
  {
    PushOrdered(items, c, last);
  }

  /** Fewer that wait are still in line. */
  lemma FewerWait(messages: seq<Control>, items: seq<Control>, lease: seq<Control>, items': seq<Control>,
                  lease': seq<Control>, seen: seq<Seen>)
    requires SteersFirst(messages, items, lease, seen)
    requires forall c :: Waits(items', lease', c) ==> Waits(items, lease, c)
    ensures SteersFirst(messages, items', lease', seen)
  {
    hide Mine, Rank, Waits;
  }

  /** Another's message goes to the end of the queue. */
  lemma EnqueueKeeps(messages: seq<Control>, w: World, c: Control)
    requires Inv(messages, w) && !Mine(messages, c)
    ensures Inv(messages, w.(q := Enqueued(w.q, c)))
  {
    var c' := c.(order := w.q.last + 1);
    assert !Mine(messages, c');
    PushPlaced(w.q.items, w.lease, c', w.q.last);
    hide Mine, Ordered, Apart, Rank;
    assert forall x :: Waits(w.q.items + [c'], w.lease, x) && Mine(messages, x) ==> Waits(w.q.items, w.lease, x);
  }

  /** What a step leaves is the same line, with the queue's places for others changed. */
  lemma HeldKeeps(messages: seq<Control>, w: World, q: Queue, open: bool)
    requires Inv(messages, w) && q.items == w.q.items && q.last == w.q.last
    ensures Inv(messages, w.(q := q, open := open))
  {
  }

  lemma SplitsOff(items: seq<Control>, last: nat, pick: Control -> bool)
    requires Ordered(items, last)
    ensures var out, left := Filter(pick, items), Filter(c => !pick(c), items);
      && Ordered(out, last) && Ordered(left, last) && Apart(out, left)
      && (forall c :: c in out <==> c in items && pick(c))
      && (forall c :: c in left <==> c in items && !pick(c))
  {
    FilterOrdered(pick, items, last);
    FilterOrdered(c => !pick(c), items, last);
    SplitApart(pick, items);
    forall c ensures c in Filter(pick, items) <==> c in items && pick(c) { FilterMember(pick, items, c); }
    forall c ensures c in Filter(x => !pick(x), items) <==> c in items && !pick(c)
    {
      FilterMember(x => !pick(x), items, c);
    }
  }

  /** A lease takes ours in order when it takes none that waits behind one it leaves. */
  lemma TakeKeeps(messages: seq<Control>, w: World, pick: Control -> bool)
    requires Inv(messages, w) && w.lease == []
    requires forall x, y :: x in w.q.items && y in w.q.items && Mine(messages, x) && Mine(messages, y) ==>
      pick(x) && !pick(y) ==> x.order < y.order
    ensures Inv(messages, Take(w, pick))
  {
    SplitsOff(w.q.items, w.q.last, pick);
    var w' := Take(w, pick);
    hide Filter, Mine, Ordered, Prefix;
    FewerWait(messages, w.q.items, w.lease, w'.q.items, w'.lease, w.seen);
    hide SteersFirst;
  }

  /** What a boundary takes of ours comes before what it leaves, and a lease of notices
      takes none of ours. */
  lemma TakesInLine(messages: seq<Control>, w: World, settling: bool)
    requires Inv(messages, w)
    ensures forall x, y :: x in w.q.items && y in w.q.items && Mine(messages, x) && Mine(messages, y) ==>
      Takes(w.q.items, settling, x) && !Takes(w.q.items, settling, y) ==> x.order < y.order
    ensures forall c :: c in w.q.items && Mine(messages, c) ==> c.kind != Notice
  {
    hide Placed, InLine, Prefix, Accounted, Mine;
    assert forall c :: c in w.q.items ==> Waits(w.q.items, w.lease, c);
  }

  lemma HeadOfLease(lease: seq<Control>, items: seq<Control>, last: nat)
    requires Placed(items, lease, last) && lease != []
    ensures Placed(items, lease[1..], last) && lease[0].order <= last
    ensures forall y :: y in lease[1..] ==> lease[0].order < y.order
    ensures forall y :: y in lease <==> y == lease[0] || y in lease[1..]
  {
    OrderedSuffix(lease, 1, last);
    assert lease == [lease[0]] + lease[1..];
    forall y | y in lease[1..] ensures lease[0].order < y.order
    {
      var j :| 0 <= j < |lease[1..]| && lease[1..][j] == y;
      assert EarlierThan()(lease[0], lease[j + 1]);
    }
  }

  lemma SettleInLine(messages: seq<Control>, out: seq<Control>, lease: seq<Control>, items: seq<Control>, last: nat)
    requires InLine(messages, out, lease, items, last) && Placed(items, lease, last) && lease != []
    ensures InLine(messages, out + [lease[0]], lease[1..], items, last)
  {
    HeadOfLease(lease, items, last);
    hide Mine, Placed;
  }

  lemma SettleKeeps(messages: seq<Control>, w: World)
    requires Inv(messages, w) && Enabled(messages, w, SettleOne)
    ensures Inv(messages, Do(messages, w, SettleOne))
  {
    var c, tail := w.lease[0], w.lease[1..];
    HeadOfLease(w.lease, w.q.items, w.q.last);
    SettleInLine(messages, w.out, w.lease, w.q.items, w.q.last);
    FewerWait(messages, w.q.items, w.lease, w.q.items, tail, w.seen);
    hide Mine, Placed, InLine, SteersFirst, Prefix;
  }

  lemma PutBackHolds(items: seq<Control>, lease: seq<Control>, last: nat)
    requires Placed(items, lease, last)
    ensures Placed(PutBack(items, lease), [], last)
    ensures forall c :: c in PutBack(items, lease) <==> Waits(items, lease, c)
  {
    PutBackOrdered(items, lease, last);
    forall c ensures c in PutBack(items, lease) <==> Waits(items, lease, c)
    {
      assert c in PutBack(items, lease) <==> c in multiset(PutBack(items, lease));
    }
  }

  lemma PutBackInLine(messages: seq<Control>, w: World)
    requires InLine(messages, w.out, w.lease, w.q.items, w.q.last)
    requires Placed(w.q.items, w.lease, w.q.last)
    ensures InLine(messages, w.out, [], PutBack(w.q.items, w.lease), w.q.last)
  {
    PutBackHolds(w.q.items, w.lease, w.q.last);
    hide Mine, Placed, PutBack;
  }

  lemma PutBackKeeps(messages: seq<Control>, w: World)
    requires Inv(messages, w)
    ensures Inv(messages, Do(messages, w, PutLeaseBack))
  {
    hide PutBack, Mine, Placed, InLine, SteersFirst, Prefix;
    PutBackHolds(w.q.items, w.lease, w.q.last);
    FewerWait(messages, w.q.items, w.lease, PutBack(w.q.items, w.lease), [], w.seen);
    PutBackInLine(messages, w);
  }

  lemma DropKeeps(messages: seq<Control>, w: World, left: seq<Control>, gone: seq<Control>, sealed: bool)
    requires Inv(messages, w) && Ordered(left, w.q.last)
    requires forall c :: c in w.q.items <==> c in left || c in gone
    ensures Inv(messages, w.(q := w.q.(items := left, sealed := sealed), dropped := w.dropped + gone))
  {
  }

  lemma DrainKeeps(messages: seq<Control>, w: World, pick: Control -> bool)
    requires Inv(messages, w)
    ensures Inv(messages, Drain(w, pick))
  {
    SplitsOff(w.q.items, w.q.last, pick);
    hide Filter, Inv;
    DropKeeps(messages, w, Filter(c => !pick(c), w.q.items), Filter(pick, w.q.items), w.q.sealed);
  }

  /** A message of ours at the end, and what it finds there: no FollowUp of ours
      waits when it is a Steer, and the Steer queue was shut to it when it is a FollowUp. */
  lemma PushInLine(messages: seq<Control>, w: World, c: Control, seen: seq<Seen>)
    requires Inv(messages, w) && c.order == w.q.last + 1 && c.kind != Notice && seen != []
    requires c.kind == (if Rank(Last(seen)) == 0 then Steer else FollowUp)
    requires w.seen != [] ==> Rank(Last(w.seen)) <= Rank(Last(seen))
    ensures InLine(messages, w.out, w.lease, w.q.items + [c], w.q.last + 1)
    ensures SteersFirst(messages, w.q.items + [c], w.lease, seen)
  {
    var items := w.q.items + [c];
    assert forall x :: x in items <==> x in w.q.items || x == c;
    assert forall x :: Waits(items, w.lease, x) <==> Waits(w.q.items, w.lease, x) || x == c;
    assert forall x :: Waits(w.q.items, w.lease, x) ==> x.order <= w.q.last;
    hide Mine, Rank, Ordered, Waits;
  }

  lemma PushPrefix(messages: seq<Control>, w: World, c: Control, s: Seen)
    requires Inv(messages, w) && |w.seen| < |messages| && c.order == w.q.last + 1
    requires c == Entry(messages[|w.seen|], c.kind, c.order)
    requires |w.put| == |w.seen|
    ensures Prefix(messages, w.put + [c], w.rest, w.seen + [s], w.q.last + 1)
  {
    PushOrdered(w.put, c, w.q.last);
    hide Entry, Placed, InLine, SteersFirst, Accounted, Ordered;
    assert messages[|w.put|..|w.seen|] == [];
  }

  lemma PushAccounted(messages: seq<Control>, w: World, c: Control)
    requires Accounted(messages, w.put, w.q.items, w.lease, w.out, w.dropped)
    ensures Accounted(messages, w.put + [c], w.q.items + [c], w.lease, w.out, w.dropped)
  {
    hide Mine;
  }

  /** While a step still finds room none before it was refused. */
  lemma NoneReturned(messages: seq<Control>, w: World, s: Seen)
    requires Prefix(messages, w.put, w.rest, w.seen, w.q.last)
    requires Rank(s) < 2 && (w.seen != [] ==> Rank(Last(w.seen)) <= Rank(s))
    ensures |w.put| == |w.seen|
  {
    hide Rank, Ordered, Entry;
  }

  lemma AcceptKeeps(messages: seq<Control>, w: World, m: Control, kind: Kind)
    requires Inv(messages, w) && |w.seen| < |messages| && m == messages[|w.seen|]
    requires var s := Seen(w.q, w.open);
      && Rank(s) < 2 && kind == (if Rank(s) == 0 then Steer else FollowUp)
      && (w.seen != [] ==> Rank(Last(w.seen)) <= Rank(s))
    ensures var q := Accepted(w.q, m, kind);
      Inv(messages, w.(q := q, put := w.put + [Last(q.items)], seen := w.seen + [Seen(w.q, w.open)]))
  {
    hide Mine, Placed, InLine, SteersFirst, Prefix, Accounted, Rank;
    var c, seen := Entry(m, kind, w.q.last + 1), w.seen + [Seen(w.q, w.open)];
    NoneReturned(messages, w, Seen(w.q, w.open));
    assert Accepted(w.q, m, kind) == w.q.(last := w.q.last + 1, items := w.q.items + [c]);
    hide Entry, Accepted;
    PushPlaced(w.q.items, w.lease, c, w.q.last);
    PushInLine(messages, w, c, seen);
    PushPrefix(messages, w, c, Seen(w.q, w.open));
    PushAccounted(messages, w, c);
  }

  lemma RefuseKeeps(messages: seq<Control>, w: World, s: Seen)
    requires Inv(messages, w) && |w.seen| < |messages| && Rank(s) == 2
    ensures Inv(messages, w.(rest := w.rest + [messages[|w.seen|]], seen := w.seen + [s]))
  {
    hide Placed, InLine, Entry, Ordered, Mine;
    var n := |w.seen|;
    assert messages[|w.put|..n + 1] == messages[|w.put|..n] + [messages[n]];
  }

  /** The requeue's own step: no FollowUp of ours waits when it puts a Steer. */
  lemma NextKeeps(messages: seq<Control>, w: World)
    requires Inv(messages, w) && Enabled(messages, w, RequeueNext) && NoNotice(messages)
    requires RanksKept(w.seen + [Seen(w.q, w.open)])
    ensures Inv(messages, Do(messages, w, RequeueNext))
  {
    var m, s := messages[|w.seen|], Seen(w.q, w.open);
    var seen := w.seen + [s];
    assert m in messages;
    PutByRank(s, m);
    assert w.seen != [] ==> Rank(Last(w.seen)) == Rank(seen[|w.seen| - 1]) <= Rank(seen[|w.seen|]) == Rank(s);
    assert Rank(s) <= 2;
    hide Put, Rank, RanksKept, Inv, NoNotice;
    if Rank(s) == 2 {
      RefuseKeeps(messages, w, s);
    } else {
      AcceptKeeps(messages, w, m, if Rank(s) == 0 then Steer else FollowUp);
    }
  }

  lemma StepKeeps(messages: seq<Control>, w: World, step: Step)
    requires Inv(messages, w) && Enabled(messages, w, step) && NoNotice(messages)
    requires RanksKept(Do(messages, w, step).seen)
    ensures Inv(messages, Do(messages, w, step))
  {
    hide Inv, Takes, Filter, PutBack, RanksKept, NoNotice, Mine;
    match step
    case ReservePlace(kind) => HeldKeeps(messages, w, Reserved(w.q, kind), w.open);
    case ReleasePlace(kind) => HeldKeeps(messages, w, Released(w.q, kind), w.open);
    case FillPlace(c) =>
      HeldKeeps(messages, w, Released(w.q, c.kind), w.open);
      EnqueueKeeps(messages, w.(q := Released(w.q, c.kind)), c);
    case AddMessage(c) => EnqueueKeeps(messages, w, c);
    case SetGate(open) => HeldKeeps(messages, w, w.q, open);
    case TakeControl(settling) =>
      TakesInLine(messages, w, settling);
      TakeKeeps(messages, w, c => Takes(w.q.items, settling, c));
    case TakeNotices =>
      TakesInLine(messages, w, false);
      TakeKeeps(messages, w, (c: Control) => c.kind == Notice);
    case SettleOne => SettleKeeps(messages, w);
    case PutLeaseBack => PutBackKeeps(messages, w);
    case DrainQueue(withNotices) => DrainKeeps(messages, w, (c: Control) => withNotices || c.kind != Notice);
    case SealQueue => DropKeeps(messages, w, [], w.q.items, true);
    case RequeueNext => NextKeeps(messages, w);
  }

  lemma {:induction false} SeenGrows(messages: seq<Control>, w: World, steps: seq<Step>)
    requires Runs(messages, w, steps)
    ensures w.seen <= After(messages, w, steps).seen
    decreases |steps|
  {
    if steps != [] {
      SeenGrows(messages, Do(messages, w, steps[0]), steps[1..]);
      assert w.seen <= Do(messages, w, steps[0]).seen;
    }
  }

  lemma {:induction false} RunsKeep(messages: seq<Control>, w: World, steps: seq<Step>)
    requires Inv(messages, w) && Runs(messages, w, steps) && NoNotice(messages)
    requires RanksKept(After(messages, w, steps).seen)
    ensures Inv(messages, After(messages, w, steps))
    decreases |steps|
  {
    if steps != [] {
      var w1 := Do(messages, w, steps[0]);
      SeenGrows(messages, w1, steps[1..]);
      forall i, j | 0 <= i <= j < |w1.seen| ensures Rank(w1.seen[i]) <= Rank(w1.seen[j])
      {
        assert w1.seen[i] == After(messages, w, steps).seen[i] && w1.seen[j] == After(messages, w, steps).seen[j];
      }
      hide Rank, Inv, Do;
      StepKeeps(messages, w, steps[0]);
      RunsKeep(messages, w1, steps[1..]);
    }
  }

  // ----- the theorem -----

  function OneOf(messages: seq<Control>): (p: Control -> bool)
    ensures forall c :: p(c) <==> Mine(messages, c)
  {
    (c: Control) => Mine(messages, c)
  }

  lemma {:induction false} SettledAscends(messages: seq<Control>, out: seq<Control>)
    requires forall i, j :: 0 <= i < j < |out| && Mine(messages, out[i]) && Mine(messages, out[j]) ==>
      out[i].order < out[j].order
    ensures Ascending(EarlierThan(), Filter(OneOf(messages), out))
  {
    if out != [] {
      var front := out[..|out| - 1];
      SettledAscends(messages, front);
      var kept := Filter(OneOf(messages), front);
      forall i | 0 <= i < |kept| && Mine(messages, Last(out)) ensures kept[i].order < Last(out).order
      {
        FilterMember(OneOf(messages), front, kept[i]);
      }
    }
  }

  lemma OursOf(messages: seq<Control>, s: seq<Control>, last: nat) returns (ours: seq<Control>)
    requires Ordered(s, last)
    ensures ours == Filter(OneOf(messages), s) && Ascending(EarlierThan(), ours)
    ensures forall c :: c in ours <==> c in s && Mine(messages, c)
  {
    ours := Filter(OneOf(messages), s);
    FilterAscending(EarlierThan(), OneOf(messages), s);
    forall c ensures c in ours <==> c in s && Mine(messages, c) { FilterMember(OneOf(messages), s, c); }
  }

  /** What makes the settled ones a prefix of the accepted ones. */
  lemma LineIsPut(settled: seq<Control>, leased: seq<Control>, waiting: seq<Control>, put: seq<Control>)
    requires Ascending(EarlierThan(), settled) && Ascending(EarlierThan(), leased) && Ascending(EarlierThan(), waiting)
    requires Ascending(EarlierThan(), put)
    requires forall x, y :: x in settled && y in leased ==> x.order < y.order
    requires forall x, y :: x in settled && y in waiting ==> x.order < y.order
    requires forall x, y :: x in leased && y in waiting ==> x.order < y.order
    requires forall c :: c in put <==> c in settled || c in leased || c in waiting
    ensures settled <= put
    ensures leased == [] && waiting == [] ==> settled == put
  {
    AscendingUnique(EarlierThan(), settled + leased + waiting, put);
    assert settled == (settled + leased + waiting)[..|settled|];
  }

  /** The accepted messages are a prefix of the requeued ones, and those returned the
      others that had their step. The Runs settled ours in their order, and as long as
      none is dropped a prefix of the accepted ones, which is all of them once none
      waits. */
  ghost predicate OrderKept(messages: seq<Control>, w: World)
  {
    var settled := Filter(OneOf(messages), w.out);
    && |w.put| <= |w.seen| <= |messages| && w.rest == messages[|w.put|..|w.seen|]
    && (forall i :: 0 <= i < |w.put| ==> w.put[i].message == messages[i].message)
    && Ascending(EarlierThan(), w.put) && Ascending(EarlierThan(), settled)
    && (forall c :: c in settled ==> c in w.put)
    && ((forall c :: c in w.dropped ==> !Mine(messages, c)) ==>
          && settled <= w.put
          && ((forall c :: c in w.q.items || c in w.lease ==> !Mine(messages, c)) ==> settled == w.put))
  }

  lemma SettledOf(messages: seq<Control>, w: World) returns (settled: seq<Control>)
    requires Inv(messages, w)
    ensures settled == Filter(OneOf(messages), w.out) && Ascending(EarlierThan(), settled)
    ensures forall c :: c in settled <==> c in w.out && Mine(messages, c)
  {
    settled := Filter(OneOf(messages), w.out);
    SettledAscends(messages, w.out);
    forall c ensures c in settled <==> c in w.out && Mine(messages, c) { FilterMember(OneOf(messages), w.out, c); }
  }

  lemma SettledPrefix(messages: seq<Control>, w: World)
    requires Inv(messages, w) && forall c :: c in w.dropped ==> !Mine(messages, c)
    ensures Filter(OneOf(messages), w.out) <= w.put
    ensures (forall c :: c in w.q.items || c in w.lease ==> !Mine(messages, c)) ==>
      Filter(OneOf(messages), w.out) == w.put
  {
    var settled := SettledOf(messages, w);
    var leased := OursOf(messages, w.lease, w.q.last);
    var waiting := OursOf(messages, w.q.items, w.q.last);
    hide Filter, Mine, SteersFirst, Entry;
    LineIsPut(settled, leased, waiting, w.put);
    if leased != [] { assert leased[0] in leased; }
    if waiting != [] { assert waiting[0] in waiting; }
  }

  lemma SettledInOrder(messages: seq<Control>, w: World)
    requires Inv(messages, w)
    ensures OrderKept(messages, w)
  {
    var settled := SettledOf(messages, w);
    hide Filter, Mine, Placed, InLine, SteersFirst;
    if forall c :: c in w.dropped ==> !Mine(messages, c) { SettledPrefix(messages, w); }
  }

  /** Whatever the Runs take, settle and put back, and whatever arrives, is reserved
      or released, before, between and after the steps of the requeue: the order is
      kept in every run in which no step finds a better place than one before it. */
  lemma RequeueKeepsOrder(messages: seq<Control>, w: World, steps: seq<Step>)
    requires NoNotice(messages) && Fresh(messages, w) && Runs(messages, w, steps)
    requires RanksKept(After(messages, w, steps).seen)
    ensures OrderKept(messages, After(messages, w, steps))
  {
    RunsKeep(messages, w, steps);
    hide RanksKept, Runs, After, Fresh, Inv, OrderKept;
    SettledInOrder(messages, After(messages, w, steps));
  }
}
