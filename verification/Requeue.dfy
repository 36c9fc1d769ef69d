/** The control messages of one Session: the gate a message passes on its way
    into the queue, and the requeue that moves what another Session's Runs left
    waiting, one locked step for each message. A prefix of them is accepted,
    Steers before FollowUps, exactly when no better place comes free between two
    steps. */
module Requeue {
  import opened Seqs
  import opened ControlQueue
  import Custody

  class Session {
    const queue: MessageQueue
    var inRun: bool
    var ending: bool
    var keeps: bool

    constructor (queue: MessageQueue)
      ensures this.queue == queue && !inRun && !ending && !keeps
    {
      this.queue := queue;
      inRun, ending, keeps := false, false, false;
    }

    /** Open unless an Interrupt finds no Run, or a Run is ending that drops its
        queue. */
    predicate GateOpen(needsRun: bool)
      reads this
    {
      if inRun then !ending || keeps else !needsRun
    }

    /** The locked step that puts a message in its reserved place. */
    method FillControl(c: Control, needsRun: bool) returns (sent: bool)
      requires queue.held.At(c.kind) > 0
      modifies queue
      ensures sent <==> GateOpen(needsRun) && !old(queue.isSealed)
      ensures queue.State() == if GateOpen(needsRun) then Filled(old(queue.State()), c)
                               else Released(old(queue.State()), c.kind)
      ensures sent <==>
        !old(queue.isSealed) && !(needsRun && !inRun) && !(inRun && ending && !keeps)
      ensures queue.items == old(queue.items) + if sent then [c.(order := old(queue.lastOrder) + 1)] else []
      ensures queue.held == old(queue.held).With(c.kind, old(queue.held).At(c.kind) - 1)
    {
      if (needsRun && !inRun) || (inRun && ending && !keeps) {
        queue.Release(c.kind);
        return false;
      }
      sent := queue.Fill(c);
    }

    /** What the others do between two steps: anything the queue and the Run allow
        them, so anything. */
    method LetOthersRun()
      modifies this`inRun, this`ending, this`keeps, queue
    {
      inRun, ending, keeps := *, *, *;
      queue.items, queue.held, queue.isSealed, queue.lastOrder := *, *, *, *;
    }

    /** The locked step of one message: the gate and the put. */
    method RequeueOne(m: Control) returns (put: bool)
      modifies queue
      ensures put <==> Put(Seen(old(queue.State()), GateOpen(false)), m).Some?
      ensures queue.State() == AfterOne(Seen(old(queue.State()), GateOpen(false)), m)
      ensures !put ==> queue.State() == old(queue.State())
      ensures var was := old(queue.State());
        var room := if m.source == NoticeMessage then HasRoom(was, Notice)
                    else HasRoom(was, Steer) || HasRoom(was, FollowUp);
        put <==> !(inRun && ending && !keeps) && !was.sealed && room
      ensures put ==> Last(queue.items) == m.(
        source := if m.source == InterruptMessage then SteerMessage else m.source,
        kind := if m.source == NoticeMessage then Notice
                else if HasRoom(old(queue.State()), Steer) then Steer else FollowUp,
        order := old(queue.lastOrder) + 1)
      ensures put ==> queue.items == old(queue.items) + [Last(queue.items)] && queue.held == old(queue.held)
    {
      ghost var was := queue.State();
      CountIsPlaces(was.items, Steer);
      CountIsPlaces(was.items, FollowUp);
      CountIsPlaces(was.items, Notice);
      hide PlacesOf;
      var gate := !(inRun && ending && !keeps);
      var c := m.(source := if m.source == InterruptMessage then SteerMessage else m.source, kind := Steer);
      if c.source == NoticeMessage { c := c.(kind := Notice); }
      put := false;
      if gate { put := queue.Add(c); }
      if !put && c.kind == Steer && gate {
        c := c.(kind := FollowUp);
        put := queue.Add(c);
      }
    }

    /** seen and after are what each step found and left. The others run before,
        between and after the steps; nothing is put outside one. */
    method Requeue(messages: seq<Control>) returns (rest: seq<Control>, ghost seen: seq<Seen>, ghost after: seq<Queue>)
      modifies this`inRun, this`ending, this`keeps, queue
      ensures |seen| == |after| == |messages|
      ensures forall i :: 0 <= i < |messages| ==> after[i] == AfterOne(seen[i], messages[i])
      ensures rest == RefusedAt(seen, messages)
      ensures messages != [] ==> queue.State() == Last(after)
    {
      hide PlacesOf, HasRoom, Put, AfterOne, RefusedAt, GateOpen;
      RefusedNone(messages);
      rest, seen, after := [], [], [];
      for i := 0 to |messages|
        invariant |seen| == |after| == i
        invariant forall k :: 0 <= k < i ==> after[k] == AfterOne(seen[k], messages[k])
        invariant rest == RefusedAt(seen, messages[..i])
        invariant i > 0 ==> queue.State() == Last(after)
      {
        LetOthersRun();
        ghost var s := Seen(queue.State(), GateOpen(false));
        var put := RequeueOne(messages[i]);
        if !put { rest := rest + [messages[i]]; }
        RefusedPush(seen, s, messages, i);
        seen, after := seen + [s], after + [queue.State()];
      }
      assert messages[..|messages|] == messages;
    }
  }

  // ----- what a requeue does -----

  /** What the step of one message finds: the queue, and whether the gate is open. */
  datatype Seen = Seen(queue: Queue, open: bool)

  function Put(s: Seen, m: Control): (r: Option<Queue>)
  {
    if s.open then Custody.Requeued(s.queue, m) else None
  }

  function AfterOne(s: Seen, m: Control): (q: Queue)
  {
    match Put(s, m)
    case Some(q) => q
    case None => s.queue
  }

  function AfterAll(q: Queue, open: bool, messages: seq<Control>): (r: Queue)
  {
    if messages == [] then q
    else AfterOne(Seen(AfterAll(q, open, messages[..|messages| - 1]), open), Last(messages))
  }

  function Refused(q: Queue, open: bool, messages: seq<Control>): (rest: seq<Control>)
  {
    if messages == [] then [] else
    var front := messages[..|messages| - 1];
    var rest := Refused(q, open, front);
    if Put(Seen(AfterAll(q, open, front), open), Last(messages)).None? then rest + [Last(messages)] else rest
  }

  /** What is returned when each message finds the queue as seen says. */
  function RefusedAt(seen: seq<Seen>, messages: seq<Control>): (rest: seq<Control>)
    requires |seen| == |messages|
  {
    if messages == [] then [] else
    var rest := RefusedAt(seen[..|seen| - 1], messages[..|messages| - 1]);
    if Put(Last(seen), Last(messages)).None? then rest + [Last(messages)] else rest
  }

  lemma RefusedNone(messages: seq<Control>)
    ensures RefusedAt([], messages[..0]) == []
  {
  }

  lemma RefusedPush(seen: seq<Seen>, s: Seen, messages: seq<Control>, i: nat)
    requires |seen| == i < |messages|
    ensures RefusedAt(seen + [s], messages[..i + 1])
         == RefusedAt(seen, messages[..i]) + if Put(s, messages[i]).None? then [messages[i]] else []
  {
    assert (seen + [s])[..i] == seen && messages[..i + 1][..i] == messages[..i];
  }

  /** Steps with nothing between them. */
  lemma {:induction false} UndisturbedSteps(q: Queue, open: bool, seen: seq<Seen>, messages: seq<Control>)
    requires |seen| == |messages|
    requires forall i :: 0 <= i < |seen| ==> seen[i] == Seen(AfterAll(q, open, messages[..i]), open)
    ensures RefusedAt(seen, messages) == Refused(q, open, messages)
  {
    if messages != [] {
      var front := messages[..|messages| - 1];
      forall i | 0 <= i < |front| ensures seen[i] == Seen(AfterAll(q, open, front[..i]), open)
      {
        assert front[..i] == messages[..i];
      }
      UndisturbedSteps(q, open, seen[..|seen| - 1], front);
    }
  }

  // ----- steps that others come between -----

  predicate Shut(s: Seen, kind: Kind)
  {
    !s.open || s.queue.sealed || Full(s.queue, kind)
  }

  /** 0 for the Steer queue, 1 for the FollowUp queue, 2 for none. */
  function Rank(s: Seen): (r: nat)
  {
    if !Shut(s, Steer) then 0 else if !Shut(s, FollowUp) then 1 else 2
  }

  /** Others filled, reserved and closed, and freed no place: what a Run takes, a
      refused write that releases its place, and a Run that is over are excluded. */
  predicate NoPlaceFreed(q: Queue, open: bool, s: Seen)
  {
    && s.queue.limit == q.limit && (q.sealed ==> s.queue.sealed) && (s.open ==> open)
    && (s.queue.sealed
        || forall k :: Count(s.queue.items, k) + s.queue.held.At(k) >= Count(q.items, k) + q.held.At(k))
  }

  ghost predicate Tight(seen: seq<Seen>, messages: seq<Control>)
  {
    && |seen| == |messages|
    && forall i :: 0 < i < |seen| ==> NoPlaceFreed(AfterOne(seen[i - 1], messages[i - 1]), seen[i - 1].open, seen[i])
  }

  /** What a message comes to is where it finds room. */
  lemma PutByRank(s: Seen, m: Control)
    requires m.source != NoticeMessage
    ensures Put(s, m).None? <==> Rank(s) == 2
    ensures Rank(s) < 2 ==> Put(s, m) == Some(Accepted(s.queue, m, if Rank(s) == 0 then Steer else FollowUp))
  {
  }

  function Accepted(q: Queue, m: Control, kind: Kind): (r: Queue)
  {
    q.(last := q.last + 1, items := q.items + [Entry(m, kind, q.last + 1)])
  }

  lemma ShutAfter(s: Seen, m: Control, into: Kind, kind: Kind)
    requires Shut(s, kind)
    ensures Shut(Seen(Accepted(s.queue, m, into), s.open), kind)
  {
    Custody.CountPush(s.queue.items, Entry(m, into, s.queue.last + 1), kind);
  }

  lemma ShutStays(seen: seq<Seen>, messages: seq<Control>, i: nat, j: nat, kind: Kind)
    requires Tight(seen, messages) && i <= j < |seen|
    requires Shut(seen[i], kind)
    ensures Shut(seen[j], kind)
    decreases j - i
  {
    if i < j {
      var s, m := seen[i], messages[i];
      assert NoPlaceFreed(AfterOne(s, m), s.open, seen[i + 1]);
      if Put(s, m).Some? {
        assert Put(s, m).value.items == s.queue.items + [Last(Put(s, m).value.items)];
        Custody.CountPush(s.queue.items, Last(Put(s, m).value.items), kind);
      }
      ShutStays(seen, messages, i + 1, j, kind);
    }
  }

  /** No message finds a better place than one before it. */
  predicate RanksKept(seen: seq<Seen>)
  {
    forall i, j :: 0 <= i <= j < |seen| ==> Rank(seen[i]) <= Rank(seen[j])
  }

  /** The second of two neighbours finds room in a queue that was shut to the first,
      and that is better than where the first one went: a place in it came free, or
      the gate opened. */
  predicate Reopens(a: Seen, b: Seen)
  {
    (Shut(a, Steer) && !Shut(b, Steer)) || (Rank(a) == 2 && !Shut(b, FollowUp))
  }

  lemma {:induction false} RanksClimb(seen: seq<Seen>, i: nat, j: nat)
    requires forall k :: 0 < k < |seen| ==> !Reopens(seen[k - 1], seen[k])
    requires i <= j < |seen|
    ensures Rank(seen[i]) <= Rank(seen[j])
    decreases j - i
  {
    if i < j { RanksClimb(seen, i, j - 1); }
  }

  /** Whatever comes between the steps: as long as it frees no place, no message finds
      a better place than one before it. */
  lemma LaterIsNoBetter(seen: seq<Seen>, messages: seq<Control>)
    requires Tight(seen, messages)
    ensures RanksKept(seen)
  {
    forall i, j | 0 <= i <= j < |seen| ensures Rank(seen[i]) <= Rank(seen[j])
    {
      if Shut(seen[i], Steer) { ShutStays(seen, messages, i, j, Steer); }
      if Shut(seen[i], FollowUp) { ShutStays(seen, messages, i, j, FollowUp); }
    }
  }

  /** The first a messages find room as Steers, those up to b as FollowUps, and the
      others none. */
  predicate Parts(seen: seq<Seen>, a: nat, b: nat)
  {
    && a <= b <= |seen|
    && forall i :: 0 <= i < |seen| ==> Rank(seen[i]) == if i < a then 0 else if i < b then 1 else 2
  }

  lemma {:induction false} PartsOf(seen: seq<Seen>) returns (a: nat, b: nat)
    requires RanksKept(seen)
    ensures Parts(seen, a, b)
  {
    if seen == [] {
      a, b := 0, 0;
    } else {
      a, b := PartsOf(seen[..|seen| - 1]);
      if Rank(Last(seen)) == 0 { a := |seen|; }
      if Rank(Last(seen)) <= 1 { b := |seen|; }
    }
  }

  lemma {:induction false} RefusedSuffix(seen: seq<Seen>, messages: seq<Control>, a: nat, b: nat)
    requires |seen| == |messages| && NoNotice(messages) && Parts(seen, a, b)
    ensures RefusedAt(seen, messages) == messages[b..]
  {
    if messages == [] {
    } else {
      var n := |messages| - 1;
      PutByRank(seen[n], messages[n]);
      RefusedSuffix(seen[..n], messages[..n], if a <= n then a else n, if b <= n then b else n);
      assert b <= n ==> messages[b..] == messages[..n][b..] + [messages[n]];
    }
  }

  /** Whatever the others do between the steps, a prefix of the messages is accepted,
      its first part as Steers and the rest of it as FollowUps, exactly when no better
      place comes free between two neighbours. */
  lemma AcceptsPrefixIff(seen: seq<Seen>, messages: seq<Control>)
    requires |seen| == |messages| && NoNotice(messages)
    ensures (exists a: nat, b: nat :: Parts(seen, a, b) && RefusedAt(seen, messages) == messages[b..]) <==>
      forall i :: 0 < i < |seen| ==> !Reopens(seen[i - 1], seen[i])
  {
    if forall i :: 0 < i < |seen| ==> !Reopens(seen[i - 1], seen[i]) {
      forall i, j | 0 <= i <= j < |seen| ensures Rank(seen[i]) <= Rank(seen[j]) { RanksClimb(seen, i, j); }
      var a, b := PartsOf(seen);
      RefusedSuffix(seen, messages, a, b);
    }
  }

  /** And when one does, the second of the two overtakes the first: it is accepted and
      the first returned, or the next boundary that does not settle takes it and leaves
      the first. */
  lemma ReopenedOvertakes(a: Seen, m: Control, b: Seen, n: Control, items: seq<Control>)
    requires m.source != NoticeMessage && n.source != NoticeMessage && Reopens(a, b)
    ensures Put(b, n).Some?
    ensures Put(a, m).Some? && Last(Put(a, m).value.items) in items && Last(Put(b, n).value.items) in items ==>
      Last(Put(b, n).value.items) in Picked(items, false) && Last(Put(a, m).value.items) in Left(items, false)
  {
    PutByRank(a, m);
    PutByRank(b, n);
    if Put(a, m).Some? {
      var x, y := Last(Put(a, m).value.items), Last(Put(b, n).value.items);
      FilterMember(c => Takes(items, false, c), items, y);
      FilterMember(c => !Takes(items, false, c), items, x);
    }
  }

  /** With a place freed between two steps it fails: the first message finds both
      queues full and is returned, the second is accepted ahead of it. */
  lemma FreedPlaceReorders() returns (seen: seq<Seen>, messages: seq<Control>)
    ensures |seen| == |messages| == 2 && !Tight(seen, messages)
    ensures messages[0].source == SteerMessage == messages[1].source
    ensures seen[0].queue.held.At(Steer) > 0
    ensures seen[1] == seen[0].(queue := Released(seen[0].queue, Steer))
    ensures Put(seen[0], messages[0]).None? && Put(seen[1], messages[1]).Some?
  {
    var q := Queue([], PerKind(1, 0, 0), PerKind(1, 0, 0), false, 0);
    messages := [Control(0, 1, SteerMessage, Steer, 0), Control(0, 2, SteerMessage, Steer, 0)];
    seen := [Seen(q, true), Seen(Released(q, Steer), true)];
    assert Count(seen[1].queue.items, Steer) + seen[1].queue.held.At(Steer) == 0;
    assert AfterOne(seen[0], messages[0]) == q;
    assert !NoPlaceFreed(q, true, seen[1]) by { assert Count(q.items, Steer) + q.held.At(Steer) == 1; }
  }

  // ----- a requeue that nothing comes between -----

  function Entry(m: Control, kind: Kind, order: nat): (c: Control)
  {
    m.(source := if m.source == InterruptMessage then SteerMessage else m.source, kind := kind, order := order)
  }

  /** What waits of the first b messages: the first a of them as Steers. */
  function Waiting(messages: seq<Control>, a: nat, b: nat, last: nat): (cs: seq<Control>)
    requires a <= b <= |messages|
    ensures |cs| == b
    ensures forall i :: 0 <= i < b ==> cs[i] == Entry(messages[i], if i < a then Steer else FollowUp, last + 1 + i)
  {
    seq(b, i requires 0 <= i < b => Entry(messages[i], if i < a then Steer else FollowUp, last + 1 + i))
  }

  predicate NoNotice(messages: seq<Control>)
  {
    forall m :: m in messages ==> m.source != NoticeMessage
  }

  /** The result in one form: messages[..a] wait as Steers, messages[a..b] as
      FollowUps behind them, and the rest is returned. */
  predicate Splits(q: Queue, r: Queue, rest: seq<Control>, messages: seq<Control>, a: nat, b: nat)
  {
    && a <= b <= |messages| && rest == messages[b..]
    && r == q.(last := q.last + b, items := q.items + Waiting(messages, a, b, q.last))
  }

  /** A message waits as a FollowUp only when the Steer queue is full, and is
      returned only when both are. */
  predicate Fits(s: Seen, messages: seq<Control>, a: nat, b: nat)
  {
    (a < b ==> Shut(s, Steer)) && (b < |messages| ==> Rank(s) == 2)
  }

  lemma OneSplits(q: Queue, s: Seen, rest: seq<Control>, front: seq<Control>, m: Control, a: nat, b: nat)
    returns (a': nat, b': nat)
    requires Splits(q, s.queue, rest, front, a, b) && Fits(s, front, a, b) && m.source != NoticeMessage
    ensures Splits(q, AfterOne(s, m), if Put(s, m).None? then rest + [m] else rest, front + [m], a', b')
    ensures Fits(Seen(AfterOne(s, m), s.open), front + [m], a', b')
  {
    hide Put, Waiting, Full;
    PutByRank(s, m);
    assert a <= b <= |front|;
    hide Splits, Accepted;
    if Rank(s) == 2 {
      a', b' := a, b;
    } else {
      var kind := if Rank(s) == 0 then Steer else FollowUp;
      a', b' := if kind == Steer then a + 1 else a, b + 1;
      if kind == FollowUp { ShutAfter(s, m, kind, Steer); }
    }
  }

  lemma {:induction false} RequeueSplits(q: Queue, open: bool, messages: seq<Control>) returns (a: nat, b: nat)
    requires NoNotice(messages)
    ensures Splits(q, AfterAll(q, open, messages), Refused(q, open, messages), messages, a, b)
    ensures Fits(Seen(AfterAll(q, open, messages), open), messages, a, b)
  {
    if messages == [] {
      a, b := 0, 0;
      assert messages[0..] == [] && Waiting(messages, 0, 0, q.last) == [];
    } else {
      var front, m := messages[..|messages| - 1], Last(messages);
      assert m in messages && messages == front + [m];
      a, b := RequeueSplits(q, open, front);
      hide Splits, Fits, Put;
      a, b := OneSplits(q, Seen(AfterAll(q, open, front), open), Refused(q, open, front), front, m, a, b);
    }
  }
}
