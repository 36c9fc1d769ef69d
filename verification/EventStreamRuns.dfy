/** Every interleaving of one Session subscriber with its Record and its Feed:
    writes by this Instance and by others, publishes, offers in flight, catch-up
    reads, tail reads, rejoins and deliveries. The subscriber is delivered the
    Record's Events after its start that pass the filter, once each, in order
    and with none missing. */
module EventStreamRuns {
  import opened Seqs
  import opened EventStream

  /** What the forwarding goroutine is doing between two locked steps: it has the
      answer of a catch-up read, or of a tail read, and has not applied it. */
  datatype Pc = Ready | CatchUpRead(batch: seq<Event>) | TailRead(after: nat, batch: seq<Event>)

  datatype World = World(
    log: seq<nat>,          // the Record: the body of stored Event n is log[n - 1]
    last: nat,              // Feed.last
    inflight: set<nat>,     // published, and not yet offered to this subscriber
    sub: Sub,
    pc: Pc,
    pending: seq<Event>,    // the catch-up batch being delivered
    delivered: seq<Event>,  // what Next returned, in order
    start: nat)             // the stream starts after this number, once it has started

  datatype Step =
    | Write(body: nat)      // this Instance or another appends to the Record
    | Publish(n: nat)       // the Feed's one sender publishes n, which it wrote
    | OfferStored(n: nat)
    | OfferDelta(body: nat)
    | OfferInstance(body: nat)
    | Pop
    | Deliver
    | ReadCatchUp(upTo: nat)  // the source answers with the Events it shows, maybe stale, maybe none
    | ApplyCatchUp
    | ReadTail(upTo: nat)
    | ApplyTail
    | End

  /** The stored Event numbered n. */
  function Nth(log: seq<nat>, n: nat): (e: Event)
    requires 0 < n <= |log|
  {
    Stored(n, log[n - 1])
  }

  /** The stored Events numbered after + 1 to upTo. */
  function Window(log: seq<nat>, after: nat, upTo: nat): (es: seq<Event>)
    requires after < upTo ==> upTo <= |log|
    ensures |es| == if after < upTo then upTo - after else 0
    ensures forall i :: 0 <= i < |es| ==> es[i] == Nth(log, after + 1 + i)
  {
    if upTo <= after then [] else Window(log, after, upTo - 1) + [Nth(log, upTo)]
  }

  function StoredOnly(es: seq<Event>): (r: seq<Event>)
  {
    if es == [] then [] else
    var rest := StoredOnly(es[..|es| - 1]);
    if es[|es| - 1].Stored? then rest + [es[|es| - 1]] else rest
  }

  // ----- the transition system -----

  predicate Enabled(w: World, step: Step)
  {
    match step
    case Write(_) => true
    case Publish(n) => w.last < n <= |w.log|
    case OfferStored(n) => n in w.inflight && 0 < n <= |w.log|
    case OfferDelta(_) => true
    case OfferInstance(_) => true
    case Pop => w.pc.Ready? && w.pending == [] && w.sub.queue != []
    case Deliver => w.pc.Ready? && w.pending != []
    case ReadCatchUp(upTo) =>
      w.pc.Ready? && w.pending == [] && w.sub.queue == [] && w.sub.behind
      && (w.sub.resume < upTo ==> upTo <= |w.log|)
    case ApplyCatchUp => w.pc.CatchUpRead? && forall e :: e in w.pc.batch ==> e.Stored?
    case ReadTail(upTo) =>
      w.pc.Ready? && w.pending == [] && w.sub.cursorSet && !w.sub.behind
      && (w.sub.cursor < upTo ==> upTo <= |w.log|)
    case ApplyTail => w.pc.TailRead? && forall e :: e in w.pc.batch ==> e.Stored?
    case End => true
  }

  /** Live, and no stored Event has come yet. */
  predicate Unstarted(s: Sub)
  {
    !s.cursorSet && !s.behind
  }

  /** Where the stream starts, after an offer: a live stream starts at the first
      stored Event it is offered, and after number 0 when it falls behind before. */
  function StartAfter(w: World, s: Sub, e: Event): (start: nat)
  {
    if !Unstarted(w.sub) || Unstarted(s) then w.start
    else if s.behind || !e.Stored? || e.number == 0 then 0 else e.number - 1
  }

  function Do(keep: Event -> bool, w: World, step: Step): (w': World)
    requires Enabled(w, step)
  {
    match step
    case Write(body) => w.(log := w.log + [body])
    case Publish(n) => w.(last := n, inflight := w.inflight + {n})
    case OfferStored(n) =>
      var e := Nth(w.log, n);
      var sub := Offered(w.sub, e, keep(e));
      w.(inflight := w.inflight - {n}, sub := sub, start := StartAfter(w, sub, e))
    case OfferDelta(body) => w.(sub := Offered(w.sub, Delta(body), keep(Delta(body))))
    case OfferInstance(body) =>
      var sub := Offered(w.sub, Instance(body), keep(Instance(body)));
      w.(sub := sub, start := StartAfter(w, sub, Instance(body)))
    case Pop =>
      var (taken, sub) := Popped(w.sub);
      if taken.Queued? then w.(sub := sub, delivered := w.delivered + [taken.event]) else w
    case Deliver => w.(pending := w.pending[1..], delivered := w.delivered + [w.pending[0]])
    case ReadCatchUp(upTo) => w.(pc := CatchUpRead(Window(w.log, w.sub.resume, upTo)))
    case ApplyCatchUp =>
      var batch := w.pc.batch;
      if batch != [] then
        w.(pc := Ready, sub := CaughtUpTo(w.sub, Number(Last(batch))), pending := Filter(keep, batch))
      else w.(pc := Ready, sub := Rejoined(w.sub, w.last))
    case ReadTail(upTo) => w.(pc := TailRead(w.sub.cursor, Window(w.log, w.sub.cursor, upTo)))
    case ApplyTail => w.(pc := Ready, sub := Looked(w.sub, w.pc.batch, keep))
    case End => w.(sub := w.sub.(ending := true))
  }

  function Number(e: Event): (n: nat)
  {
    if e.Stored? then e.number else 0
  }

  ghost predicate Runs(keep: Event -> bool, w: World, steps: seq<Step>)
    decreases |steps|
  {
    steps == [] || (Enabled(w, steps[0]) && Runs(keep, Do(keep, w, steps[0]), steps[1..]))
  }

  ghost function After(keep: Event -> bool, w: World, steps: seq<Step>): (w': World)
    requires Runs(keep, w, steps)
    decreases |steps|
  {
    if steps == [] then w else After(keep, Do(keep, w, steps[0]), steps[1..])
  }

  /** A Session subscriber just subscribed, live or after a number. */
  predicate Subscribed(w: World)
  {
    && w.last <= |w.log| && w.inflight == {} && w.pc == Ready && w.pending == [] && w.delivered == []
    && w.sub.max > 0
    && (w.sub == Sub(w.sub.max, false, [], 0, false, false, 0, 0, false)
     || w.sub == Sub(w.sub.max, false, [], w.start, true, true, w.start, 0, false))
  }

  // ----- the invariant -----

  ghost predicate LogAndFeed(w: World)
  {
    && w.last <= |w.log|
    && (forall n :: n in w.inflight ==> 0 < n <= w.last)
    && !w.sub.mixed && w.sub.max > 0
  }

  ghost predicate Phase(w: World)
  {
    && (w.pending != [] ==> w.sub.behind && w.sub.queue == [] && w.pc.Ready?)
    && (w.pc.CatchUpRead? ==>
          w.sub.behind && w.sub.queue == []
          && (w.pc.batch != [] ==> w.sub.resume + |w.pc.batch| <= |w.log|)
          && w.pc.batch == Window(w.log, w.sub.resume, w.sub.resume + |w.pc.batch|))
    && (w.pc.TailRead? ==>
          w.sub.cursorSet && w.pc.after <= w.sub.cursor
          && (w.pc.batch != [] ==> w.pc.after + |w.pc.batch| <= |w.log|)
          && w.pc.batch == Window(w.log, w.pc.after, w.pc.after + |w.pc.batch|))
  }

  /** A subscriber that is behind resumes at its cursor. */
  ghost predicate Cursor(w: World)
  {
    && (w.sub.behind ==> w.sub.cursor == w.sub.resume)
    && (Unstarted(w.sub) ==> w.sub.cursor == 0)
    && (!Unstarted(w.sub) ==> w.start <= w.sub.cursor && (w.start < w.sub.cursor ==> w.sub.cursor <= |w.log|))
  }

  /** What was delivered, and what waits, is what the Record holds up to the cursor. */
  ghost predicate Exact(keep: Event -> bool, w: World)
    requires Cursor(w)
  {
    && (!Unstarted(w.sub) ==>
          StoredOnly(w.delivered + w.pending + w.sub.queue) == Filter(keep, Window(w.log, w.start, w.sub.cursor)))
    && (Unstarted(w.sub) ==> StoredOnly(w.delivered + w.pending + w.sub.queue) == [] && w.pending == [])
  }

  /** What offer threw away while the subscriber was behind has a number the
      rejoin test requires to have been read: a subscriber that is not behind has
      the Feed's last Event, or it is still on its way to it. */
  ghost predicate NothingLost(w: World)
  {
    && (!w.sub.ending && w.sub.cursorSet && !w.sub.behind ==> w.last <= w.sub.cursor || w.last in w.inflight)
    && (!w.sub.ending && Unstarted(w.sub) && w.inflight != {} ==> w.last in w.inflight)
  }

  ghost predicate Inv(keep: Event -> bool, w: World)
  {
    LogAndFeed(w) && Phase(w) && Cursor(w) && Exact(keep, w) && NothingLost(w)
  }

  // ----- facts about windows -----

  lemma {:induction false} WindowGrows(log: seq<nat>, body: nat, after: nat, upTo: nat)
    requires after < upTo ==> upTo <= |log|
    ensures Window(log + [body], after, upTo) == Window(log, after, upTo)
  {
  }

  lemma {:induction false} WindowSplit(log: seq<nat>, a: nat, b: nat, c: nat)
    requires a <= b <= c && (a < c ==> c <= |log|)
    ensures Window(log, a, c) == Window(log, a, b) + Window(log, b, c)
  {
  }

  /** Numbers only go up in what the Record holds after filtering. */
  lemma {:induction false} KeptAscends(keep: Event -> bool, log: seq<nat>, a: nat, b: nat)
    requires a < b ==> b <= |log|
    ensures forall i, j :: 0 <= i < j < |Filter(keep, Window(log, a, b))| ==>
      Number(Filter(keep, Window(log, a, b))[i]) < Number(Filter(keep, Window(log, a, b))[j])
  {
    var less := (x: Event, y: Event) => Number(x) < Number(y);
    assert Ascending(less, Window(log, a, b));
    FilterAscending(less, keep, Window(log, a, b));
    var kept := Filter(keep, Window(log, a, b));
    forall i, j | 0 <= i < j < |kept| ensures Number(kept[i]) < Number(kept[j])
    {
      assert less(kept[i], kept[j]);
    }
  }

  lemma {:induction false} StoredAppend(a: seq<Event>, b: seq<Event>)
    ensures StoredOnly(a + b) == StoredOnly(a) + StoredOnly(b)
  {
    if b == [] {
      assert a + b == a;
    } else {
      assert (a + b)[..|a + b| - 1] == a + b[..|b| - 1];
      StoredAppend(a, b[..|b| - 1]);
    }
  }

  lemma StoredOne(e: Event)
    ensures StoredOnly([e]) == if e.Stored? then [e] else []
  {
    assert [e][..0] == [];
  }

  lemma {:induction false} AllStored(es: seq<Event>)
    requires forall e :: e in es ==> e.Stored?
    ensures StoredOnly(es) == es
  {
    if es != [] {
      assert es == es[..|es| - 1] + [es[|es| - 1]];
      AllStored(es[..|es| - 1]);
    }
  }

  lemma WindowEmpty(keep: Event -> bool, log: seq<nat>, a: nat)
    ensures Filter(keep, Window(log, a, a)) == []
  {
  }

  lemma WindowOne(keep: Event -> bool, log: seq<nat>, n: nat)
    requires 0 < n <= |log|
    ensures Filter(keep, Window(log, n - 1, n)) == if keep(Nth(log, n)) then [Nth(log, n)] else []
  {
    assert Window(log, n - 1, n) == [Nth(log, n)];
    assert [Nth(log, n)][..0] == [];
  }

  lemma StoredOfKept(keep: Event -> bool, es: seq<Event>)
    requires forall e :: e in es ==> e.Stored?
    ensures StoredOnly(Filter(keep, es)) == Filter(keep, es)
  {
    forall e | e in Filter(keep, es) ensures e.Stored? { FilterMember(keep, es, e); }
    AllStored(Filter(keep, es));
  }

  lemma StoredWithoutDelta(q: seq<Event>, i: nat)
    requires i < |q| && !q[i].Stored?
    ensures StoredOnly(Without(q, i)) == StoredOnly(q)
  {
    assert q == q[..i] + [q[i]] + q[i + 1..];
    StoredAppend(q[..i] + [q[i]], q[i + 1..]);
    StoredAppend(q[..i], [q[i]]);
    StoredAppend(q[..i], q[i + 1..]);
  }

  // ----- each step keeps the invariant -----

  lemma InvAtSubscribe(keep: Event -> bool, w: World)
    requires Subscribed(w)
    ensures Inv(keep, w)
  {
    assert w.delivered + w.pending + w.sub.queue == [];
  }

  lemma WriteKeeps(keep: Event -> bool, w: World, body: nat)
    requires Inv(keep, w)
    ensures Inv(keep, Do(keep, w, Write(body)))
  {
    if !Unstarted(w.sub) { WindowGrows(w.log, body, w.start, w.sub.cursor); }
    if w.pc.CatchUpRead? && w.pc.batch != [] {
      WindowGrows(w.log, body, w.sub.resume, w.sub.resume + |w.pc.batch|);
    }
    if w.pc.TailRead? && w.pc.batch != [] {
      WindowGrows(w.log, body, w.pc.after, w.pc.after + |w.pc.batch|);
    }
  }

  /** Appending the next Event moves the window by it. */
  lemma WindowNext(keep: Event -> bool, log: seq<nat>, start: nat, n: nat)
    requires start < n <= |log|
    ensures Filter(keep, Window(log, start, n)) ==
      Filter(keep, Window(log, start, n - 1)) + (if keep(Nth(log, n)) then [Nth(log, n)] else [])
  {
    FilterAppend(keep, Window(log, start, n - 1), [Nth(log, n)]);
  }

  predicate Room(s: Sub)
  {
    |s.queue| < s.max || OldestDelta(s.queue) < |s.queue|
  }

  lemma AppendStored(d: seq<Event>, q: seq<Event>, e: Event)
    ensures StoredOnly(d + (q + [e])) == StoredOnly(d + q) + StoredOnly([e])
  {
    assert d + (q + [e]) == (d + q) + [e];
    StoredAppend(d + q, [e]);
  }

  /** Putting an Event in the queue changes the stored Events of the stream by
      that Event alone: only deltas are dropped to make room. */
  lemma QueueStored(d: seq<Event>, s: Sub, e: Event)
    requires !s.mixed
    ensures StoredOnly(d + Queue(s, e).queue) == StoredOnly(d + s.queue) + (if Room(s) then StoredOnly([e]) else [])
  {
    if |s.queue| < s.max {
      AppendStored(d, s.queue, e);
    } else {
      var i := OldestDelta(s.queue);
      if i < |s.queue| {
        var q := Without(s.queue, i);
        AppendStored(d, q, e);
        StoredWithoutDelta(s.queue, i);
        StoredAppend(d, q);
        StoredAppend(d, s.queue);
      }
    }
  }

  lemma OfferNextKeeps(keep: Event -> bool, w: World, n: nat)
    requires Inv(keep, w) && Enabled(w, OfferStored(n))
    requires !w.sub.ending && !w.sub.behind && w.sub.cursorSet && n == w.sub.cursor + 1
    ensures Inv(keep, Do(keep, w, OfferStored(n)))
  {
    hide StoredOnly, Filter, Window;
    var e, s, w' := Nth(w.log, n), w.sub, Do(keep, w, OfferStored(n));
    QueueStored(w.delivered, s, e);
    assert w.delivered + w.pending + s.queue == w.delivered + s.queue;
    assert w'.delivered + w'.pending + w'.sub.queue == w.delivered + w'.sub.queue;
    WindowNext(keep, w.log, w.start, n);
    StoredOne(e);
  }

  /** The first stored Event starts the stream, or it falls behind at number 0. */
  lemma OfferFirstKeeps(keep: Event -> bool, w: World, n: nat)
    requires Inv(keep, w) && Enabled(w, OfferStored(n))
    requires !w.sub.ending && Unstarted(w.sub)
    ensures Inv(keep, Do(keep, w, OfferStored(n)))
  {
    hide StoredOnly, Filter, Window;
    var e, s, w' := Nth(w.log, n), w.sub, Do(keep, w, OfferStored(n));
    QueueStored(w.delivered, s, e);
    assert w.delivered + w.pending + s.queue == w.delivered + s.queue;
    assert w'.delivered + w'.pending + w'.sub.queue == w.delivered + w'.sub.queue;
    WindowOne(keep, w.log, n);
    WindowEmpty(keep, w.log, 0);
    StoredOne(e);
  }

  lemma OfferDeltaKeeps(keep: Event -> bool, w: World, body: nat)
    requires Inv(keep, w)
    ensures Inv(keep, Do(keep, w, OfferDelta(body)))
  {
    hide StoredOnly, Filter, Window;
    var e, s, w' := Delta(body), w.sub, Do(keep, w, OfferDelta(body));
    if !s.ending && !s.behind && keep(e) {
      QueueStored(w.delivered, s, e);
      StoredOne(e);
      assert w.delivered + w.pending + s.queue == w.delivered + s.queue;
      assert w'.delivered + w'.pending + w'.sub.queue == w.delivered + w'.sub.queue;
    }
  }

  lemma OfferInstanceKeeps(keep: Event -> bool, w: World, body: nat)
    requires Inv(keep, w)
    ensures Inv(keep, Do(keep, w, OfferInstance(body)))
  {
    hide StoredOnly, Filter, Window;
    var e, s, w' := Instance(body), w.sub, Do(keep, w, OfferInstance(body));
    if !s.ending && !s.behind && keep(e) {
      QueueStored(w.delivered, s, e);
      StoredOne(e);
      WindowEmpty(keep, w.log, 0);
      assert w.delivered + w.pending + s.queue == w.delivered + s.queue;
      assert w'.delivered + w'.pending + w'.sub.queue == w.delivered + w'.sub.queue;
    }
  }

  lemma DeliveryKeeps(keep: Event -> bool, w: World, step: Step)
    requires Inv(keep, w) && (step.Pop? || step.Deliver?) && Enabled(w, step)
    ensures Inv(keep, Do(keep, w, step))
  {
    hide StoredOnly, Filter, Window;
    var w' := Do(keep, w, step);
    assert w'.delivered + w'.pending + w'.sub.queue == w.delivered + w.pending + w.sub.queue;
  }

  /** The windows of a batch and of what came before it, filtered, are one. */
  lemma BatchExtends(keep: Event -> bool, log: seq<nat>, start: nat, resume: nat, batch: seq<Event>)
    requires start <= resume && (start < resume ==> resume <= |log|)
    requires batch != [] && resume + |batch| <= |log| && batch == Window(log, resume, resume + |batch|)
    ensures Filter(keep, Window(log, start, resume + |batch|)) ==
      Filter(keep, Window(log, start, resume)) + StoredOnly(Filter(keep, batch))
    ensures Number(Last(batch)) == resume + |batch|
  {
    WindowSplit(log, start, resume, resume + |batch|);
    FilterAppend(keep, Window(log, start, resume), batch);
    StoredOfKept(keep, batch);
  }

  lemma BatchExact(keep: Event -> bool, w: World, w': World)
    requires Inv(keep, w) && Enabled(w, ApplyCatchUp) && w.pc.batch != [] && w' == Do(keep, w, ApplyCatchUp)
    ensures Cursor(w') && Exact(keep, w')
  {
    hide StoredOnly, Filter, Window;
    var batch := w.pc.batch;
    BatchExtends(keep, w.log, w.start, w.sub.resume, batch);
    var before := w.delivered + w.pending + w.sub.queue;
    assert w'.delivered + w'.pending + w'.sub.queue == before + Filter(keep, batch);
    StoredAppend(before, Filter(keep, batch));
    assert w'.sub.cursor == w.sub.resume + |batch|;
  }

  lemma ApplyCatchUpKeeps(keep: Event -> bool, w: World)
    requires Inv(keep, w) && Enabled(w, ApplyCatchUp)
    ensures Inv(keep, Do(keep, w, ApplyCatchUp))
  {
    hide StoredOnly, Filter, Window;
    var w' := Do(keep, w, ApplyCatchUp);
    if w.pc.batch != [] {
      BatchExact(keep, w, w');
    } else {
      assert w'.delivered + w'.pending + w'.sub.queue == w.delivered + w.pending + w.sub.queue;
    }
  }

  /** One Event of a tail read, the next one: the cursor moves over it. */
  function TailTaken(keep: Event -> bool, w: World, n: nat): (w': World)
    requires 0 < n <= |w.log|
  {
    var e := Nth(w.log, n);
    w.(sub := w.sub.(cursor := n, queue := if keep(e) then w.sub.queue + [e] else w.sub.queue))
  }

  lemma TailNext(keep: Event -> bool, w: World)
    requires Inv(keep, w) && w.sub.cursorSet && !w.sub.behind && w.pending == [] && w.pc.Ready?
    requires w.sub.cursor < |w.log|
    ensures Inv(keep, TailTaken(keep, w, w.sub.cursor + 1))
  {
    var n := w.sub.cursor + 1;
    hide StoredOnly, Filter, Window;
    var e, w' := Nth(w.log, n), TailTaken(keep, w, n);
    WindowNext(keep, w.log, w.start, n);
    StoredOne(e);
    AppendStored(w.delivered + w.pending, w.sub.queue, e);
    assert keep(e) ==> w'.sub.queue == w.sub.queue + [e];
  }

  /** A tail read under way: batch holds the Events after number after, some of
      which live publishes may have covered meanwhile. */
  lemma {:induction false} TailExact(keep: Event -> bool, w: World, after: nat, batch: seq<Event>)
    requires Inv(keep, w) && w.sub.cursorSet && !w.sub.behind && w.pending == [] && w.pc.Ready?
    requires after <= w.sub.cursor && (batch != [] ==> after + |batch| <= |w.log|)
    requires batch == Window(w.log, after, after + |batch|)
    ensures Inv(keep, w.(sub := Looked(w.sub, batch, keep)))
    decreases |batch|
  {
    hide StoredOnly, Filter, Window;
    if batch != [] {
      var rest := batch[1..];
      assert batch[0] == Nth(w.log, after + 1);
      assert rest == Window(w.log, after + 1, after + 1 + |rest|);
      if after < w.sub.cursor {
        TailExact(keep, w, after + 1, rest);
      } else {
        TailNext(keep, w);
        TailExact(keep, TailTaken(keep, w, after + 1), after + 1, rest);
      }
    }
  }

  lemma ApplyTailKeeps(keep: Event -> bool, w: World)
    requires Inv(keep, w) && Enabled(w, ApplyTail)
    ensures Inv(keep, Do(keep, w, ApplyTail))
  {
    var w0 := w.(pc := Ready);
    if !w.sub.behind { TailExact(keep, w0, w.pc.after, w.pc.batch); }
  }

  lemma StepKeeps(keep: Event -> bool, w: World, step: Step)
    requires Inv(keep, w) && Enabled(w, step)
    ensures Inv(keep, Do(keep, w, step))
  {
    hide StoredOnly, Filter, Window;
    match step
    case Write(body) => WriteKeeps(keep, w, body);
    case Publish(n) =>
    case OfferStored(n) =>
      if !w.sub.ending && !w.sub.behind {
        if !w.sub.cursorSet {
          OfferFirstKeeps(keep, w, n);
        } else if n == w.sub.cursor + 1 {
          OfferNextKeeps(keep, w, n);
        }
      }
    case OfferDelta(body) => OfferDeltaKeeps(keep, w, body);
    case OfferInstance(body) => OfferInstanceKeeps(keep, w, body);
    case Pop => DeliveryKeeps(keep, w, step);
    case Deliver => DeliveryKeeps(keep, w, step);
    case ReadCatchUp(upTo) =>
    case ApplyCatchUp => ApplyCatchUpKeeps(keep, w);
    case ReadTail(upTo) =>
    case ApplyTail => ApplyTailKeeps(keep, w);
    case End =>
  }

  lemma {:induction false} RunsKeep(keep: Event -> bool, w: World, steps: seq<Step>)
    requires Inv(keep, w) && Runs(keep, w, steps)
    ensures Inv(keep, After(keep, w, steps))
    decreases |steps|
  {
    hide StoredOnly, Filter, Window;
    if steps != [] {
      StepKeeps(keep, w, steps[0]);
      RunsKeep(keep, Do(keep, w, steps[0]), steps[1..]);
    }
  }

  // ----- the theorems -----

  /** Exactly once and in order: in every run, the stored Events delivered are a
      gap-free prefix of the Record's Events after the stream's start that pass
      the filter, in strictly increasing order of number. */
  lemma ExactlyOnceInOrder(keep: Event -> bool, w: World, steps: seq<Step>)
    requires Subscribed(w) && Runs(keep, w, steps)
    ensures var w', got := After(keep, w, steps), StoredOnly(After(keep, w, steps).delivered);
      && got <= Filter(keep, Window(w'.log, w'.start, |w'.log|))
      && forall i, j :: 0 <= i < j < |got| ==> Number(got[i]) < Number(got[j])
  {
    hide StoredOnly, Filter, Window;
    InvAtSubscribe(keep, w);
    RunsKeep(keep, w, steps);
    var w' := After(keep, w, steps);
    var rest := w'.pending + w'.sub.queue;
    assert w'.delivered + w'.pending + w'.sub.queue == w'.delivered + rest;
    StoredAppend(w'.delivered, rest);
    var got := StoredOnly(w'.delivered);
    WindowEmpty(keep, w'.log, w'.start);
    if !Unstarted(w'.sub) && w'.start < w'.sub.cursor {
      WindowSplit(w'.log, w'.start, w'.sub.cursor, |w'.log|);
      FilterAppend(keep, Window(w'.log, w'.start, w'.sub.cursor), Window(w'.log, w'.sub.cursor, |w'.log|));
    }
    var all := Filter(keep, Window(w'.log, w'.start, |w'.log|));
    assert got <= all;
    KeptAscends(keep, w'.log, w'.start, |w'.log|);
    forall i, j | 0 <= i < j < |got| ensures Number(got[i]) < Number(got[j])
    {
      assert got[i] == all[i] && got[j] == all[j];
    }
  }

  /** Nothing published is lost: a stream that has not been ended, is not behind
      and has nothing queued and nothing on its way to it has delivered every
      Event up to the last one its Feed published. */
  lemma NothingPublishedIsLost(keep: Event -> bool, w: World, steps: seq<Step>)
    requires Subscribed(w) && Runs(keep, w, steps)
    ensures var w' := After(keep, w, steps);
      w'.sub.cursorSet && !w'.sub.behind && !w'.sub.ending && w'.inflight == {} && w'.sub.queue == [] ==>
        && w'.last <= w'.sub.cursor
        && (w'.start < w'.sub.cursor ==> w'.sub.cursor <= |w'.log|)
        && StoredOnly(w'.delivered) == Filter(keep, Window(w'.log, w'.start, w'.sub.cursor))
  {
    InvAtSubscribe(keep, w);
    RunsKeep(keep, w, steps);
    var w' := After(keep, w, steps);
    assert w'.pending == [] && w'.sub.queue == [] ==> w'.delivered + w'.pending + w'.sub.queue == w'.delivered;
  }

  /** In every reachable state a subscriber that is behind resumes at its cursor. */
  lemma BehindResumesAtCursor(keep: Event -> bool, w: World, steps: seq<Step>)
    requires Subscribed(w) && Runs(keep, w, steps)
    ensures var s := After(keep, w, steps).sub; s.behind ==> s.cursor == s.resume
  {
    InvAtSubscribe(keep, w);
    RunsKeep(keep, w, steps);
  }

  /** A catch-up ends: a read that finds nothing more, once everything published has been
      read, takes the subscriber back to the live Events, with every kept Event up to the
      last published one delivered. */
  lemma EmptyReadRejoins(keep: Event -> bool, w: World, steps: seq<Step>)
    requires Subscribed(w) && Runs(keep, w, steps)
    requires var w1 := After(keep, w, steps); w1.pc == CatchUpRead([]) && w1.last <= w1.sub.resume
    ensures var w2 := Do(keep, After(keep, w, steps), ApplyCatchUp);
      && !w2.sub.behind && w2.sub.cursorSet && w2.pc == Ready && w2.last <= w2.sub.cursor
      && (w2.start < w2.sub.cursor ==> w2.sub.cursor <= |w2.log|)
      && StoredOnly(w2.delivered) == Filter(keep, Window(w2.log, w2.start, w2.sub.cursor))
  {
    InvAtSubscribe(keep, w);
    RunsKeep(keep, w, steps);
    var w1 := After(keep, w, steps);
    hide StoredOnly, Filter, Window;
    assert w1.delivered + w1.pending + w1.sub.queue == w1.delivered;
  }
}
