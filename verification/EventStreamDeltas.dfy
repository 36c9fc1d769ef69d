/** What becomes of the Events that are not stored, in the same interleavings: the
    deltas and Instance Events a Session subscriber was offered while it listened
    reach it in their order. Each offer that finds the queue full costs exactly
    one delta, and nothing else is left out. */
module EventStreamDeltas {
  import opened Seqs
  import opened EventStream
  import opened EventStreamRuns

  // ----- what is offered, without a word on what the subscriber does with it -----

  predicate HasDelta(queue: seq<Event>)
  {
    exists i :: 0 <= i < |queue| && queue[i].Delta?
  }

  /** The Event of an offer. */
  function EventOf(w: World, step: Step): (e: Option<Event>)
  {
    match step
    case OfferStored(n) => if 0 < n <= |w.log| then Some(Nth(w.log, n)) else None
    case OfferDelta(body) => Some(Delta(body))
    case OfferInstance(body) => Some(Instance(body))
    case _ => None
  }

  /** The subscriber is neither behind nor ending, and the Event passes its filter
      and is, if stored, the next one. */
  predicate Listens(keep: Event -> bool, s: Sub, e: Event)
  {
    !s.ending && !s.behind && keep(e) && (e.Stored? && s.cursorSet ==> e.number == s.cursor + 1)
  }

  /** Nothing can make room for the Event: the subscriber falls behind. */
  predicate Overwhelms(s: Sub, e: Event)
  {
    |s.queue| >= s.max && !e.Delta? && !HasDelta(s.queue)
  }

  /** What a step adds to the history: an Event that is not stored, offered while the
      subscriber listens and goes on listening. */
  function Heard(keep: Event -> bool, w: World, step: Step): (h: seq<Event>)
  {
    match EventOf(w, step)
    case Some(e) => if !e.Stored? && Listens(keep, w.sub, e) && !Overwhelms(w.sub, e) then [e] else []
    case None => []
  }

  /** An offer into a full queue that makes room. */
  function Cost(keep: Event -> bool, w: World, step: Step): (n: nat)
  {
    match EventOf(w, step)
    case Some(e) => if Listens(keep, w.sub, e) && |w.sub.queue| >= w.sub.max && !Overwhelms(w.sub, e) then 1 else 0
    case None => 0
  }

  ghost function History(keep: Event -> bool, w: World, steps: seq<Step>): (h: seq<Event>)
    requires Runs(keep, w, steps)
    decreases |steps|
  {
    if steps == [] then [] else Heard(keep, w, steps[0]) + History(keep, Do(keep, w, steps[0]), steps[1..])
  }

  ghost function Costs(keep: Event -> bool, w: World, steps: seq<Step>): (n: nat)
    requires Runs(keep, w, steps)
    decreases |steps|
  {
    if steps == [] then 0 else Cost(keep, w, steps[0]) + Costs(keep, Do(keep, w, steps[0]), steps[1..])
  }

  // ----- a history with deltas left out -----

  /** thin is full with some deltas left out. */
  ghost predicate Thinned(full: seq<Event>, thin: seq<Event>)
    decreases |full|
  {
    if full == [] then thin == []
    else
      || (thin != [] && Last(thin) == Last(full) && Thinned(full[..|full| - 1], thin[..|thin| - 1]))
      || (Last(full).Delta? && Thinned(full[..|full| - 1], thin))
  }

  lemma ThinnedPush(full: seq<Event>, thin: seq<Event>, e: Event)
    requires Thinned(full, thin)
    ensures Thinned(full + [e], thin + [e])
    ensures e.Delta? ==> Thinned(full + [e], thin)
  {
    assert (full + [e])[..|full|] == full && (thin + [e])[..|thin|] == thin;
  }

  lemma {:induction false} ThinnedDrop(full: seq<Event>, a: seq<Event>, d: Event, b: seq<Event>)
    requires Thinned(full, a + [d] + b) && d.Delta?
    ensures Thinned(full, a + b)
    decreases |full|
  {
    var front, thin := full[..|full| - 1], a + [d] + b;
    if Last(thin) == Last(full) && Thinned(front, thin[..|thin| - 1]) {
      if b == [] {
        assert thin[..|thin| - 1] == a && a + b == a;
      } else {
        var b' := b[..|b| - 1];
        assert thin[..|thin| - 1] == a + [d] + b' && (a + b)[..|a + b| - 1] == a + b';
        ThinnedDrop(front, a, d, b');
      }
    } else {
      ThinnedDrop(front, a, d, b);
    }
  }

  // ----- each step -----

  function Unstored(): (p: Event -> bool)
    ensures forall e :: p(e) <==> !e.Stored?
  {
    (e: Event) => !e.Stored?
  }

  /** What was delivered or waits, of the Events that are not stored. */
  function Others(w: World): (es: seq<Event>)
  {
    Filter(Unstored(), w.delivered + w.sub.queue)
  }

  predicate PendingStored(w: World)
  {
    !w.sub.mixed && forall e :: e in w.pending ==> e.Stored?
  }

  lemma FilterOne(e: Event)
    ensures Filter(Unstored(), [e]) == if e.Stored? then [] else [e]
  {
    assert [e][..0] == [];
  }

  lemma OthersPush(d: seq<Event>, q: seq<Event>, e: Event)
    ensures Filter(Unstored(), d + (q + [e])) ==
      if e.Stored? then Filter(Unstored(), d + q) else Filter(Unstored(), d + q) + [e]
  {
    assert d + (q + [e]) == (d + q) + [e];
    FilterAppend(Unstored(), d + q, [e]);
    FilterOne(e);
  }

  /** Leaving one out of the queue leaves it out of the rest, and nothing else. */
  lemma OthersWithout(d: seq<Event>, q: seq<Event>, i: nat, full: seq<Event>)
    requires i < |q| && q[i].Delta? && Thinned(full, Filter(Unstored(), d + q))
    ensures Thinned(full, Filter(Unstored(), d + Without(q, i)))
    ensures |Filter(Unstored(), d + Without(q, i))| + 1 == |Filter(Unstored(), d + q)|
  {
    var a, b := d + q[..i], q[i + 1..];
    assert d + q == a + [q[i]] + b && d + Without(q, i) == a + b;
    FilterAppend(Unstored(), a + [q[i]], b);
    FilterAppend(Unstored(), a, [q[i]]);
    FilterAppend(Unstored(), a, b);
    FilterOne(q[i]);
    ThinnedDrop(full, Filter(Unstored(), a), q[i], Filter(Unstored(), b));
  }

  /** An offer that the subscriber takes. */
  lemma TakenThins(d: seq<Event>, s: Sub, e: Event, full: seq<Event>)
    requires !s.mixed && Thinned(full, Filter(Unstored(), d + s.queue)) && !Overwhelms(s, e)
    ensures var was, now := Filter(Unstored(), d + s.queue), Filter(Unstored(), d + Queue(s, e).queue);
      && Thinned(full + if e.Stored? then [] else [e], now)
      && |now| + (if |s.queue| >= s.max then 1 else 0) == |was| + if e.Stored? then 0 else 1
  {
    hide Filter, Thinned;
    assert full + [] == full;
    var i := OldestDelta(s.queue);
    if |s.queue| < s.max {
      OthersPush(d, s.queue, e);
      ThinnedPush(full, Filter(Unstored(), d + s.queue), e);
    } else if i < |s.queue| {
      OthersWithout(d, s.queue, i, full);
      OthersPush(d, Without(s.queue, i), e);
      ThinnedPush(full, Filter(Unstored(), d + Without(s.queue, i)), e);
    } else {
      assert !HasDelta(s.queue);
      ThinnedPush(full, Filter(Unstored(), d + s.queue), e);
    }
  }

  lemma OfferedQueue(keep: Event -> bool, s: Sub, e: Event)
    requires !s.mixed
    ensures Offered(s, e, keep(e)).queue ==
      if Listens(keep, s, e) && !Overwhelms(s, e) then Queue(s, e).queue else s.queue
    ensures !Offered(s, e, keep(e)).mixed
  {
    if OldestDelta(s.queue) < |s.queue| { assert HasDelta(s.queue); }
  }

  lemma OfferThins(keep: Event -> bool, w: World, step: Step, full: seq<Event>)
    requires Enabled(w, step) && EventOf(w, step).Some? && PendingStored(w) && Thinned(full, Others(w))
    ensures var w' := Do(keep, w, step);
      && PendingStored(w') && Thinned(full + Heard(keep, w, step), Others(w'))
      && |Others(w')| + Cost(keep, w, step) == |Others(w)| + |Heard(keep, w, step)|
  {
    var e, s, w' := EventOf(w, step).value, w.sub, Do(keep, w, step);
    assert w'.sub == Offered(s, e, keep(e)) && w'.delivered == w.delivered && w'.pending == w.pending;
    OfferedQueue(keep, s, e);
    hide Filter, Thinned, Do, Nth, Offered, Queue, Listens, Overwhelms;
    assert full + [] == full;
    if Listens(keep, s, e) && !Overwhelms(s, e) { TakenThins(w.delivered, s, e, full); }
  }

  lemma {:induction false} LooksStored(s: Sub, batch: seq<Event>, keep: Event -> bool, d: seq<Event>)
    requires forall e :: e in batch ==> e.Stored?
    ensures Filter(Unstored(), d + Looked(s, batch, keep).queue) == Filter(Unstored(), d + s.queue)
    ensures Looked(s, batch, keep).mixed == s.mixed
    decreases |batch|
  {
    if batch != [] && !s.behind {
      var e := batch[0];
      assert forall x :: x in batch[1..] ==> x in batch;
      if e.number <= s.cursor {
        LooksStored(s, batch[1..], keep, d);
      } else if e.number == s.cursor + 1 {
        OthersPush(d, s.queue, e);
        hide Filter;
        LooksStored(s.(cursor := e.number, queue := if keep(e) then s.queue + [e] else s.queue), batch[1..], keep, d);
      }
    }
  }

  lemma RestThins(keep: Event -> bool, w: World, step: Step)
    requires Enabled(w, step) && EventOf(w, step).None? && PendingStored(w)
    ensures PendingStored(Do(keep, w, step)) && Others(Do(keep, w, step)) == Others(w)
  {
    match step
    case Pop =>
      hide Filter;
      assert Do(keep, w, step).delivered + Do(keep, w, step).sub.queue == w.delivered + w.sub.queue;
    case Deliver =>
      FilterAppend(Unstored(), w.delivered, [w.pending[0]]);
      FilterAppend(Unstored(), w.delivered + [w.pending[0]], w.sub.queue);
      FilterAppend(Unstored(), w.delivered, w.sub.queue);
      FilterOne(w.pending[0]);
    case ApplyCatchUp =>
      forall e | e in Filter(keep, w.pc.batch) ensures e.Stored? { FilterMember(keep, w.pc.batch, e); }
    case ApplyTail => LooksStored(w.sub, w.pc.batch, keep, w.delivered);
    case _ =>
  }

  lemma {:induction false} RunsThin(keep: Event -> bool, w: World, steps: seq<Step>, full: seq<Event>)
    requires Runs(keep, w, steps) && PendingStored(w) && Thinned(full, Others(w))
    ensures Thinned(full + History(keep, w, steps), Others(After(keep, w, steps)))
    ensures |Others(After(keep, w, steps))| + Costs(keep, w, steps) == |Others(w)| + |History(keep, w, steps)|
    decreases |steps|
  {
    hide Thinned, Others, Do, PendingStored;
    assert full + [] == full;
    if steps != [] {
      var h, w1 := Heard(keep, w, steps[0]), Do(keep, w, steps[0]);
      if EventOf(w, steps[0]).Some? { OfferThins(keep, w, steps[0], full); } else { RestThins(keep, w, steps[0]); }
      RunsThin(keep, w1, steps[1..], full + h);
      assert full + History(keep, w, steps) == (full + h) + History(keep, w1, steps[1..]);
    }
  }

  // ----- the theorem -----

  /** In every run, the deltas and Instance Events offered while the subscriber
      listened were delivered, or wait, in the order they were offered. Only deltas are
      left out, exactly one for each offer that found the queue full and was taken:
      with room for every offer, none is. */
  lemma OthersInOrder(keep: Event -> bool, w: World, steps: seq<Step>)
    requires Subscribed(w) && Runs(keep, w, steps)
    ensures var w' := After(keep, w, steps);
      var others := Filter(Unstored(), w'.delivered + w'.sub.queue);
      && Thinned(History(keep, w, steps), others)
      && |others| + Costs(keep, w, steps) == |History(keep, w, steps)|
  {
    assert w.delivered + w.sub.queue == [];
    RunsThin(keep, w, steps, []);
    assert [] + History(keep, w, steps) == History(keep, w, steps);
  }

  lemma {:induction false} ThinnedWhole(full: seq<Event>, thin: seq<Event>)
    requires Thinned(full, thin)
    ensures |thin| <= |full| && (|thin| == |full| ==> thin == full)
    decreases |full|
  {
    if full != [] {
      var front := full[..|full| - 1];
      if thin != [] && Last(thin) == Last(full) && Thinned(front, thin[..|thin| - 1]) {
        ThinnedWhole(front, thin[..|thin| - 1]);
        assert full == front + [Last(full)] && thin == thin[..|thin| - 1] + [Last(thin)];
      } else {
        ThinnedWhole(front, thin);
      }
    }
  }

  /** With room for every offer, all of them reach the subscriber, in order. */
  lemma AllOthersWithRoom(keep: Event -> bool, w: World, steps: seq<Step>)
    requires Subscribed(w) && Runs(keep, w, steps) && Costs(keep, w, steps) == 0
    ensures var w' := After(keep, w, steps);
      Filter(Unstored(), w'.delivered + w'.sub.queue) == History(keep, w, steps)
  {
    OthersInOrder(keep, w, steps);
    ThinnedWhole(History(keep, w, steps), Others(After(keep, w, steps)));
  }
}
