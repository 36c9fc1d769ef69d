/** Every interleaving of client streams that open, deletes and creates on any
    Instance, and this Instance's own opens and creates, which cut the streams
    of the Record they replace. No stream is ever cut as "created again" while
    its Record lives, and the streams of a Session that are left started all
    follow one Record. */
module RecordStreamRuns {
  import opened Seqs
  import opened RecordStore
  import opened RecordStreams

  /** A call of open or create on this Instance, from its mark to its cuts. */
  datatype Opener = Opener(session: nat, mark: nat, epoch: Option<nat>, unsure: Option<set<nat>>)

  /** A stream the protocol decided to cut as created again, with its Record. */
  datatype Cut = Cut(session: nat, epoch: nat)

  datatype World = World(
    store: Store,
    streams: Streams,
    rechecking: set<nat>,      // opening streams that must read the epoch again
    openers: map<nat, Opener>,
    cut: map<nat, Cut>,        // by stream
    ended: set<nat>,           // ended by a delete on this Instance
    registered: set<nat>)      // every stream so far

  datatype Step =
    | Elsewhere(change: Change)          // any Instance deletes or creates
    | Register(id: nat, session: nat)
    | ReadEpoch(id: nat)                 // the first read of the Record, or a recheck
    | StartUp(id: nat)
    | Leave(id: nat)                     // the stream is closed, or failed
    | MarkOpener(op: nat, session: nat)
    | OpenRecord(op: nat)
    | CreateRecord(op: nat)
    | CutStreams(op: nat)
    | ReadAgain(op: nat)
    | EndSession(session: nat)           // endSessionStreams, after a delete

  // ----- the transition system -----

  predicate Opening(w: World, id: nat)
  {
    id in w.streams.open && !w.streams.open[id].started
  }

  predicate Enabled(w: World, step: Step)
  {
    match step
    case Elsewhere(_) => true
    case Register(id, _) => id !in w.registered
    case ReadEpoch(id) => Opening(w, id) && (w.streams.open[id].epoch.None? || id in w.rechecking)
    case StartUp(id) => Opening(w, id) && w.streams.open[id].epoch.Some? && id !in w.rechecking
    case Leave(id) => id in w.streams.open
    case MarkOpener(op, _) => op !in w.openers
    case OpenRecord(op) => op in w.openers && w.openers[op].epoch.None? && w.openers[op].session in w.store.records
    case CreateRecord(op) => op in w.openers && w.openers[op].epoch.None? && w.openers[op].session !in w.store.records
    case CutStreams(op) => op in w.openers && w.openers[op].epoch.Some? && w.openers[op].unsure.None?
    case ReadAgain(op) => op in w.openers && w.openers[op].unsure.Some?
    case EndSession(_) => true
  }

  function Drop(w: World, id: nat): (w': World)
  {
    w.(streams := w.streams.(open := w.streams.open - {id}), rechecking := w.rechecking - {id})
  }

  /** The cuts of started streams. */
  function CutAll(open: map<nat, Stream>, ids: set<nat>): (r: map<nat, Cut>)
  {
    map id | id in ids && id in open && open[id].epoch.Some? :: Cut(open[id].session, open[id].epoch.value)
  }

  function Read(w: World, id: nat): (w': World)
    requires id in w.streams.open
  {
    var s := w.streams.open[id];
    var now := Epoch(w.store, s.session);
    if now.None? || (s.epoch.Some? && s.epoch != now) then Drop(w, id)
    else w.(streams := w.streams.(open := w.streams.open[id := s.(epoch := now)]), rechecking := w.rechecking - {id})
  }

  function Do(w: World, step: Step): (w': World)
    requires Enabled(w, step)
  {
    match step
    case Elsewhere(change) => w.(store := Changed(w.store, change))
    case Register(id, session) =>
      w.(streams := w.streams.(open := w.streams.open[id := Stream(session, None, false, 0, [])]),
         registered := w.registered + {id})
    case ReadEpoch(id) => Read(w, id)
    case StartUp(id) =>
      var (result, streams) := Start(w.streams, id);
      (match result
       case Recheck => w.(streams := streams, rechecking := w.rechecking + {id})
       case Started(older, _) => w.(streams := streams, cut := w.cut + CutAll(w.streams.open, older)))
    case Leave(id) => Drop(w, id)
    case MarkOpener(op, session) => w.(openers := w.openers[op := Opener(session, w.streams.starts, None, None)])
    case OpenRecord(op) =>
      var o := w.openers[op];
      w.(openers := w.openers[op := o.(epoch := Epoch(w.store, o.session))])
    case CreateRecord(op) =>
      var o := w.openers[op];
      var store := Changed(w.store, Create(o.session));
      w.(store := store, openers := w.openers[op := o.(epoch := Epoch(store, o.session))])
    case CutStreams(op) =>
      var o := w.openers[op];
      var open := w.streams.open;
      w.(streams := w.streams.(open := AllMarked(open, o.session, o.epoch)),
         cut := w.cut + CutAll(open, Stale(open, o.session, o.epoch, Some(o.mark))),
         openers := w.openers[op := o.(unsure := Some(Unsure(open, o.session, o.epoch, Some(o.mark))))])
    case ReadAgain(op) =>
      var o := w.openers[op];
      var now := Epoch(w.store, o.session);
      var open := w.streams.open;
      var stale := set id | id in o.unsure.value && id in open && open[id].epoch != now;
      w.(cut := if now.Some? then w.cut + CutAll(open, stale) else w.cut, openers := w.openers - {op})
    case EndSession(session) =>
      var open := w.streams.open;
      w.(streams := w.streams.(open := AllMarked(open, session, None)),
         ended := w.ended + Stale(open, session, None, None))
  }

  ghost predicate Runs(w: World, steps: seq<Step>)
    decreases |steps|
  {
    steps == [] || (Enabled(w, steps[0]) && Runs(Do(w, steps[0]), steps[1..]))
  }

  ghost function After(w: World, steps: seq<Step>): (w': World)
    requires Runs(w, steps)
    decreases |steps|
  {
    if steps == [] then w else After(Do(w, steps[0]), steps[1..])
  }

  /** An Instance that has just started, over any store. */
  predicate Fresh(w: World)
  {
    Sound(w.store) && w.streams == Streams(map[], 0, false) && w.rechecking == {}
    && w.openers == map[] && w.cut == map[] && w.ended == {} && w.registered == {}
  }

  // ----- the invariant -----

  /** The stream read epoch e of its Session at some moment before now. */
  predicate Known(store: Store, session: nat, epoch: nat)
  {
    epoch <= store.clock && (session in store.records ==> epoch <= store.records[session])
  }

  ghost predicate StreamsKnown(store: Store, streams: Streams, rechecking: set<nat>)
  {
    forall id :: id in streams.open ==> var s := streams.open[id];
      && (s.epoch.Some? ==> Known(store, s.session, s.epoch.value))
      && (s.started ==> s.epoch.Some? && s.startedAt <= streams.starts && id !in rechecking)
  }

  /** An opening stream whose epoch counts: each started stream of its Session
      read its own epoch before, or has marked it. */
  predicate SawOrFollows(o: Stream, x: Stream)
  {
    o.session == x.session && o.started && o.epoch.Some? && !x.started && x.epoch.Some? ==>
      o.epoch.value <= x.epoch.value || o.epoch in x.seen
  }

  ghost predicate Marked(open: map<nat, Stream>, rechecking: set<nat>)
  {
    forall i, j :: i in open && j in open && j !in rechecking ==> SawOrFollows(open[i], open[j])
  }

  /** A stream that started up to an opener's mark is no newer than its Record. */
  predicate StartedBefore(s: Stream, o: Opener)
  {
    s.session == o.session && s.started && s.epoch.Some? && o.epoch.Some? && s.startedAt <= o.mark ==>
      s.epoch.value <= o.epoch.value
  }

  ghost predicate OpenersKnown(store: Store, streams: Streams, openers: map<nat, Opener>)
  {
    forall op :: op in openers ==> var o := openers[op];
      && o.mark <= streams.starts && (o.unsure.Some? ==> o.epoch.Some?)
      && (o.epoch.Some? ==> Known(store, o.session, o.epoch.value))
      && (forall id :: id in streams.open ==> StartedBefore(streams.open[id], o))
  }

  /** The streams an opener is unsure of are started streams of its Session. */
  ghost predicate UnsureKnown(open: map<nat, Stream>, openers: map<nat, Opener>, registered: set<nat>)
  {
    && open.Keys <= registered
    && forall op, id :: op in openers && openers[op].unsure.Some? && id in openers[op].unsure.value ==>
        id in registered && (id in open ==> open[id].session == openers[op].session && open[id].started)
  }

  ghost predicate CutsSound(store: Store, cut: map<nat, Cut>)
  {
    forall id :: id in cut ==> Replaced(store, cut[id].session, cut[id].epoch)
  }

  predicate Live(open: map<nat, Stream>, over: set<nat>, id: nat)
  {
    id in open && open[id].started && id !in over
  }

  /** over holds the streams that were cut or ended. */
  ghost predicate OneRecord(open: map<nat, Stream>, over: set<nat>)
  {
    forall i, j :: Live(open, over, i) && Live(open, over, j) && open[i].session == open[j].session ==>
      open[i].epoch == open[j].epoch
  }

  function Over(w: World): (ids: set<nat>)
  {
    w.cut.Keys + w.ended
  }

  ghost predicate Inv(w: World)
  {
    && Sound(w.store)
    && StreamsKnown(w.store, w.streams, w.rechecking)
    && Marked(w.streams.open, w.rechecking)
    && OpenersKnown(w.store, w.streams, w.openers)
    && UnsureKnown(w.streams.open, w.openers, w.registered)
    && CutsSound(w.store, w.cut)
    && OneRecord(w.streams.open, Over(w)) && Over(w) <= w.registered
  }

  // ----- each step keeps it -----

  lemma LeaveKeeps(w: World, id: nat)
    requires Inv(w)
    ensures Inv(Drop(w, id))
  {
  }

  lemma OpenersKeep(w: World, op: nat, o: Opener)
    requires Inv(w)
    requires o.mark <= w.streams.starts && o.unsure.None?
    requires o.epoch.Some? ==> Known(w.store, o.session, o.epoch.value)
    requires forall id :: id in w.streams.open ==> StartedBefore(w.streams.open[id], o)
    ensures Inv(w.(openers := w.openers[op := o]))
  {
  }

  /** A stream that reads the Record now is of the newest epoch. */
  lemma ReadMarks(w: World, s: Stream)
    requires StreamsKnown(w.store, w.streams, w.rechecking) && s.epoch.Some? && s.epoch == Epoch(w.store, s.session)
    ensures forall i :: i in w.streams.open ==> SawOrFollows(w.streams.open[i], s)
  {
  }

  /** An opening stream that reads the Record again stays marked. */
  lemma ReadKeepsMarked(open: map<nat, Stream>, rechecking: set<nat>, id: nat, s: Stream)
    requires Marked(open, rechecking) && !s.started
    requires forall i :: i in open ==> SawOrFollows(open[i], s)
    ensures Marked(open[id := s], rechecking - {id})
  {
    var open', rechecking' := open[id := s], rechecking - {id};
    forall i, j | i in open' && j in open' && j !in rechecking' ensures SawOrFollows(open'[i], open'[j])
    {
      assert i != id && j != id ==> SawOrFollows(open[i], open[j]);
    }
  }

  lemma ReadKeepsRest(w: World, id: nat, s: Stream)
    requires Inv(w) && id in w.streams.open && !w.streams.open[id].started
    requires s == w.streams.open[id].(epoch := Epoch(w.store, w.streams.open[id].session)) && s.epoch.Some?
    ensures var streams, rechecking := w.streams.(open := w.streams.open[id := s]), w.rechecking - {id};
      && StreamsKnown(w.store, streams, rechecking)
      && OpenersKnown(w.store, streams, w.openers)
      && UnsureKnown(streams.open, w.openers, w.registered)
      && OneRecord(streams.open, Over(w))
  {
    hide Marked, CutsSound;
  }

  lemma ReadKeeps(w: World, id: nat)
    requires Inv(w) && Enabled(w, ReadEpoch(id))
    ensures Inv(Do(w, ReadEpoch(id)))
  {
    var s := w.streams.open[id];
    var s' := s.(epoch := Epoch(w.store, s.session));
    if s'.epoch.None? || (s.epoch.Some? && s.epoch != s'.epoch) {
      LeaveKeeps(w, id);
    } else {
      ReadMarks(w, s');
      ReadKeepsMarked(w.streams.open, w.rechecking, id, s');
      ReadKeepsRest(w, id, s');
      hide Marked, CutsSound, StreamsKnown, OpenersKnown, UnsureKnown, OneRecord;
    }
  }

  /** Marking streams that open changes nothing but what they saw. */
  lemma MarksKeepMarked(w: World, w': World, session: nat, epoch: Option<nat>)
    requires Marked(w.streams.open, w.rechecking)
      && w' == w.(streams := w.streams.(open := AllMarked(w.streams.open, session, epoch)))
    ensures Marked(w'.streams.open, w'.rechecking)
  {
    forall i, j | i in w'.streams.open && j in w'.streams.open && j !in w'.rechecking
      ensures SawOrFollows(w'.streams.open[i], w'.streams.open[j])
    {
      assert SawOrFollows(w.streams.open[i], w.streams.open[j]);
    }
  }

  lemma MarksKeep(w: World, session: nat, epoch: Option<nat>)
    requires Inv(w)
    ensures Inv(w.(streams := w.streams.(open := AllMarked(w.streams.open, session, epoch))))
  {
    var w' := w.(streams := w.streams.(open := AllMarked(w.streams.open, session, epoch)));
    MarksKeepMarked(w, w', session, epoch);
    hide Marked;
  }

  lemma CutsKeep(w: World, ids: set<nat>)
    requires Inv(w)
    requires forall id :: id in ids ==>
      id in w.streams.open && w.streams.open[id].epoch.Some?
      && Replaced(w.store, w.streams.open[id].session, w.streams.open[id].epoch.value)
    ensures Inv(w.(cut := w.cut + CutAll(w.streams.open, ids)))
  {
    hide Marked, StreamsKnown;
  }

  /** A stream that started up to the mark, with another epoch, is of an older
      Record than the one opened or created after the mark was taken. */
  lemma StaleIsOlder(w: World, op: nat, id: nat)
    requires Inv(w) && Enabled(w, CutStreams(op))
    requires id in Stale(w.streams.open, w.openers[op].session, w.openers[op].epoch, Some(w.openers[op].mark))
    ensures w.streams.open[id].epoch.Some?
    ensures Replaced(w.store, w.streams.open[id].session, w.streams.open[id].epoch.value)
  {
    assert StartedBefore(w.streams.open[id], w.openers[op]);
  }

  lemma UnsureKeeps(w: World, op: nat)
    requires Inv(w) && Enabled(w, CutStreams(op))
    ensures var o := w.openers[op];
      Inv(w.(openers := w.openers[op :=
        o.(unsure := Some(Unsure(w.streams.open, o.session, o.epoch, Some(o.mark))))]))
  {
    hide Marked, StreamsKnown, CutsSound, OneRecord;
  }

  lemma CutStreamsKeeps(w: World, op: nat)
    requires Inv(w) && Enabled(w, CutStreams(op))
    ensures Inv(Do(w, CutStreams(op)))
  {
    hide Inv, Replaced;
    var o := w.openers[op];
    var stale := Stale(w.streams.open, o.session, o.epoch, Some(o.mark));
    forall id | id in stale ensures w.streams.open[id].epoch.Some?
      && Replaced(w.store, w.streams.open[id].session, w.streams.open[id].epoch.value)
    {
      StaleIsOlder(w, op, id);
    }
    CutsKeep(w, stale);
    var w1 := w.(cut := w.cut + CutAll(w.streams.open, stale));
    UnsureKeeps(w1, op);
    MarksKeep(w1.(openers := w1.openers[op :=
      o.(unsure := Some(Unsure(w.streams.open, o.session, o.epoch, Some(o.mark))))]), o.session, o.epoch);
  }

  /** A stream the opener was unsure of, whose epoch is not the Record's now. */
  lemma UnsureIsOlder(w: World, op: nat, id: nat)
    requires Inv(w) && Enabled(w, ReadAgain(op)) && w.openers[op].session in w.store.records
    requires id in w.openers[op].unsure.value && id in w.streams.open
    requires w.streams.open[id].epoch != Epoch(w.store, w.openers[op].session)
    ensures w.streams.open[id].epoch.Some?
    ensures Replaced(w.store, w.streams.open[id].session, w.streams.open[id].epoch.value)
  {
    hide Marked, OneRecord, CutsSound;
  }

  lemma ForgetOpener(w: World, op: nat)
    requires Inv(w)
    ensures Inv(w.(openers := w.openers - {op}))
  {
    hide Marked, OneRecord, CutsSound, StreamsKnown;
  }

  lemma ReadAgainKeeps(w: World, op: nat)
    requires Inv(w) && Enabled(w, ReadAgain(op))
    ensures Inv(Do(w, ReadAgain(op)))
  {
    var o := w.openers[op];
    var now := Epoch(w.store, o.session);
    if now.Some? {
      var stale := set id | id in o.unsure.value && id in w.streams.open && w.streams.open[id].epoch != now;
      forall id | id in stale ensures w.streams.open[id].epoch.Some?
        && Replaced(w.store, w.streams.open[id].session, w.streams.open[id].epoch.value)
      {
        UnsureIsOlder(w, op, id);
      }
      hide Inv, Replaced;
      CutsKeep(w, stale);
      ForgetOpener(w.(cut := w.cut + CutAll(w.streams.open, stale)), op);
    } else {
      ForgetOpener(w, op);
    }
  }

  lemma EndedKeeps(w: World, ids: set<nat>)
    requires Inv(w) && ids <= w.streams.open.Keys
    ensures Inv(w.(ended := w.ended + ids))
  {
    hide Marked, StreamsKnown, CutsSound, OpenersKnown;
  }

  lemma EndSessionKeeps(w: World, session: nat)
    requires Inv(w)
    ensures Inv(Do(w, EndSession(session)))
  {
    hide Inv;
    var ids := Stale(w.streams.open, session, None, None);
    EndedKeeps(w, ids);
    MarksKeep(w.(ended := w.ended + ids), session, None);
  }

  /** What startStream hands to be cut is of an older Record: the opening stream
      saw every epoch that is newer than its own, and would have rechecked. */
  lemma OlderIsOlder(w: World, id: nat, other: nat)
    requires Inv(w) && Enabled(w, StartUp(id)) && !MustRecheck(w.streams.open[id])
    requires other in Others(w.streams.open - {id}, w.streams.open[id].session, w.streams.open[id].epoch)
    ensures w.streams.open[other].epoch.Some?
    ensures Replaced(w.store, w.streams.open[other].session, w.streams.open[other].epoch.value)
  {
    var x, o := w.streams.open[id], w.streams.open[other];
    assert SawOrFollows(o, x);
    assert o.epoch !in x.seen;
    assert Known(w.store, x.session, x.epoch.value) && Known(w.store, o.session, o.epoch.value);
  }

  /** The start itself: with the streams of other epochs cut and the opening ones
      marked, the stream counts as started. */
  function Begun(w: World, id: nat): (w': World)
    requires id in w.streams.open
  {
    var s := w.streams.open[id].(seen := [], started := true, startedAt := w.streams.starts + 1);
    w.(streams := Streams(w.streams.open[id := s], w.streams.starts + 1, w.streams.over))
  }

  predicate Compared(w: World, id: nat, i: nat)
    requires id in w.streams.open && i in w.streams.open
  {
    var x, o := w.streams.open[id], w.streams.open[i];
    i != id && o.session == x.session ==>
      if o.started then o.epoch == x.epoch || i in w.cut else x.epoch in o.seen
  }

  lemma BegunStreams(w: World, id: nat)
    requires Inv(w) && Enabled(w, StartUp(id))
    requires forall i :: i in w.streams.open ==> Compared(w, id, i)
    ensures StreamsKnown(Begun(w, id).store, Begun(w, id).streams, Begun(w, id).rechecking)
      && Marked(Begun(w, id).streams.open, Begun(w, id).rechecking)
      && OneRecord(Begun(w, id).streams.open, Over(Begun(w, id)))
  {
    hide OpenersKnown, UnsureKnown, CutsSound;
    var w' := Begun(w, id);
    forall i, j | i in w'.streams.open && j in w'.streams.open && j !in w'.rechecking
      ensures SawOrFollows(w'.streams.open[i], w'.streams.open[j])
    {
      assert Compared(w, id, j) && SawOrFollows(w.streams.open[i], w.streams.open[j]);
    }
    forall i | Live(w'.streams.open, Over(w'), i) && w'.streams.open[i].session == w.streams.open[id].session
      ensures w'.streams.open[i].epoch == w.streams.open[id].epoch
    {
      assert Compared(w, id, i);
    }
  }

  lemma BegunOpeners(w: World, id: nat)
    requires Inv(w) && Enabled(w, StartUp(id))
    ensures OpenersKnown(Begun(w, id).store, Begun(w, id).streams, Begun(w, id).openers)
      && UnsureKnown(Begun(w, id).streams.open, Begun(w, id).openers, Begun(w, id).registered)
      && CutsSound(Begun(w, id).store, Begun(w, id).cut)
  {
    hide Marked, OneRecord;
  }

  lemma StartKeeps(w: World, id: nat)
    requires Inv(w) && Enabled(w, StartUp(id)) && !MustRecheck(w.streams.open[id])
    ensures Inv(Do(w, StartUp(id)))
  {
    var x, open := w.streams.open[id], w.streams.open;
    var older := Others(open - {id}, x.session, x.epoch);
    forall o | o in older ensures open[o].epoch.Some? && Replaced(w.store, open[o].session, open[o].epoch.value)
    {
      OlderIsOlder(w, id, o);
    }
    CutsKeep(w, older);
    var w1 := w.(cut := w.cut + CutAll(open, older));
    MarksKeep(w1, x.session, x.epoch);
    var w2 := w1.(streams := w1.streams.(open := AllMarked(open, x.session, x.epoch)));
    forall i | i in w2.streams.open ensures Compared(w2, id, i)
    {
      assert i != id && open[i].started && open[i].session == x.session && open[i].epoch != x.epoch ==> i in older;
    }
    BegunStreams(w2, id);
    BegunOpeners(w2, id);
    StartComposes(w, id);
    hide StreamsKnown, Marked, OpenersKnown, UnsureKnown, CutsSound, OneRecord;
    assert Do(w, StartUp(id)) == Begun(w2, id);
  }

  lemma StartComposes(w: World, id: nat)
    requires Enabled(w, StartUp(id)) && !MustRecheck(w.streams.open[id])
    ensures var x, open := w.streams.open[id], w.streams.open;
      Do(w, StartUp(id)) ==
        Begun(w.(cut := w.cut + CutAll(open, Others(open - {id}, x.session, x.epoch)),
                 streams := w.streams.(open := AllMarked(open, x.session, x.epoch))), id)
  {
    var x, open := w.streams.open[id], w.streams.open;
    assert AllMarked(open, x.session, x.epoch)[id := x.(seen := [], started := true, startedAt := w.streams.starts + 1)]
        == AllMarked(open - {id}, x.session, x.epoch)[
          id := x.(seen := [], started := true, startedAt := w.streams.starts + 1)];
  }

  lemma RecheckKeeps(w: World, id: nat)
    requires Inv(w) && Enabled(w, StartUp(id)) && MustRecheck(w.streams.open[id])
    ensures Inv(Do(w, StartUp(id)))
  {
    var w' := Do(w, StartUp(id));
    assert w'.streams.open == w.streams.open[id := w.streams.open[id].(seen := [])];
    hide Start;
    forall i, j | i in w'.streams.open && j in w'.streams.open && j !in w'.rechecking
      ensures SawOrFollows(w'.streams.open[i], w'.streams.open[j])
    {
      assert SawOrFollows(w.streams.open[i], w.streams.open[j]);
    }
  }

  lemma CreateKeeps(w: World, op: nat)
    requires Inv(w) && Enabled(w, CreateRecord(op))
    ensures Inv(Do(w, CreateRecord(op)))
  {
    var o := w.openers[op];
    var w1 := w.(store := Changed(w.store, Create(o.session)));
    OpenerReads(w1, op);
  }

  lemma OpenerReads(w: World, op: nat)
    requires Inv(w) && op in w.openers && w.openers[op].epoch.None? && w.openers[op].session in w.store.records
    ensures var o := w.openers[op];
      Inv(w.(openers := w.openers[op := o.(epoch := Epoch(w.store, o.session))]))
  {
    var o := w.openers[op];
    OpenersKeep(w, op, o.(epoch := Epoch(w.store, o.session)));
  }

  lemma StepKeeps(w: World, step: Step)
    requires Inv(w) && Enabled(w, step)
    ensures Inv(Do(w, step))
  {
    match step
    case Elsewhere(_) =>
    case Register(_, _) =>
    case ReadEpoch(id) => ReadKeeps(w, id);
    case StartUp(id) =>
      if MustRecheck(w.streams.open[id]) { RecheckKeeps(w, id); } else { StartKeeps(w, id); }
    case Leave(id) => LeaveKeeps(w, id);
    case MarkOpener(op, session) => OpenersKeep(w, op, Opener(session, w.streams.starts, None, None));
    case OpenRecord(op) => OpenerReads(w, op);
    case CreateRecord(op) => CreateKeeps(w, op);
    case CutStreams(op) => CutStreamsKeeps(w, op);
    case ReadAgain(op) => ReadAgainKeeps(w, op);
    case EndSession(session) => EndSessionKeeps(w, session);
  }

  lemma {:induction false} RunsKeep(w: World, steps: seq<Step>)
    requires Inv(w) && Runs(w, steps)
    ensures Inv(After(w, steps))
    decreases |steps|
  {
    if steps != [] {
      StepKeeps(w, steps[0]);
      RunsKeep(Do(w, steps[0]), steps[1..]);
    }
  }

  // ----- the theorems -----

  /** A stream cut as created again is of a Record that has been replaced, and
      whatever happens to the store afterwards its epoch never comes back. */
  lemma CutsAreFinal(w: World, steps: seq<Step>, id: nat, later: seq<Change>)
    requires Fresh(w) && Runs(w, steps) && id in After(w, steps).cut
    ensures var w' := After(w, steps);
      Epoch(AllChanged(w'.store, later), w'.cut[id].session) != Some(w'.cut[id].epoch)
  {
    RunsKeep(w, steps);
    var w' := After(w, steps);
    ReplacedForGood(w'.store, later, w'.cut[id].session, w'.cut[id].epoch);
  }

  /** No two started streams of a Session are left on different Records. */
  lemma StreamsFollowOneRecord(w: World, steps: seq<Step>, i: nat, j: nat)
    requires Fresh(w) && Runs(w, steps)
    ensures var w' := After(w, steps);
      Live(w'.streams.open, Over(w'), i) && Live(w'.streams.open, Over(w'), j) ==>
        w'.streams.open[i].session == w'.streams.open[j].session ==>
        w'.streams.open[i].epoch == w'.streams.open[j].epoch
  {
    RunsKeep(w, steps);
  }

  // ----- what an open leaves -----

  /** Later than w1: a stream that was started then is gone, or as it was, and one that
      was cut or ended stays so. */
  ghost predicate Kept(w1: World, w: World, id: nat)
    requires id in w1.streams.open
  {
    && id in w.registered && w1.cut.Keys <= w.cut.Keys && w1.ended <= w.ended
    && (id in w.streams.open ==>
          var s, s1 := w.streams.open[id], w1.streams.open[id];
          s.started && s.session == s1.session && s.epoch == s1.epoch)
  }

  lemma StepKept(w1: World, w: World, id: nat, step: Step)
    requires id in w1.streams.open && w1.streams.open[id].started && Kept(w1, w, id) && Enabled(w, step)
    ensures Kept(w1, Do(w, step), id)
  {
    hide Stale, Unsure, Others, CutAll, Changed, Epoch, MustRecheck;
  }

  /** The opener that cut streams, until its second read. */
  predicate Waiting(w: World, op: nat, session: nat, ids: set<nat>)
  {
    op in w.openers && w.openers[op].session == session && w.openers[op].unsure == Some(ids)
  }

  lemma {:induction false} StaysKept(w1: World, w: World, id: nat, op: nat, ids: set<nat>, steps: seq<Step>)
    requires id in w1.streams.open && w1.streams.open[id].started && Kept(w1, w, id)
    requires Waiting(w, op, w1.streams.open[id].session, ids) && Runs(w, steps) && ReadAgain(op) !in steps
    ensures Kept(w1, After(w, steps), id) && Waiting(After(w, steps), op, w1.streams.open[id].session, ids)
    decreases |steps|
  {
    if steps != [] {
      StepKept(w1, w, id, steps[0]);
      assert steps[0] in steps && Waiting(Do(w, steps[0]), op, w1.streams.open[id].session, ids);
      hide Kept, Do, Waiting;
      StaysKept(w1, Do(w, steps[0]), id, op, ids, steps[1..]);
    }
  }

  lemma CutStreamsSplits(w: World, op: nat, id: nat)
    requires Inv(w) && Enabled(w, CutStreams(op))
    requires id in w.streams.open && w.streams.open[id].started && w.streams.open[id].session == w.openers[op].session
    ensures var o, s, w' := w.openers[op], w.streams.open[id], Do(w, CutStreams(op));
      var ids := Unsure(w.streams.open, o.session, o.epoch, Some(o.mark));
      && id in w'.streams.open && w'.streams.open[id] == s && Kept(w', w', id)
      && Waiting(w', op, o.session, ids) && s.epoch.Some?
      && (id in ids ==> s.epoch != o.epoch)
      && (s.epoch == o.epoch || id in w'.cut || (id in ids && s.startedAt > o.mark))
  {
    hide Marked, OneRecord, CutsSound, OpenersKnown, Sound;
  }

  lemma ReadAgainCuts(w: World, op: nat, session: nat, ids: set<nat>, id: nat)
    requires Waiting(w, op, session, ids) && Enabled(w, ReadAgain(op)) && session in w.store.records
    requires id in w.streams.open ==> w.streams.open[id].epoch.Some?
    ensures var w' := Do(w, ReadAgain(op)); w'.streams == w.streams && w'.ended == w.ended && w'.store == w.store
    ensures id in Do(w, ReadAgain(op)).cut <==>
      id in w.cut || (id in ids && id in w.streams.open && w.streams.open[id].epoch != Epoch(w.store, session))
  {
  }

  /** Started when the open cut the others, still open, and neither cut nor ended. */
  predicate LeftFrom(w1: World, w: World, session: nat, id: nat)
  {
    && id in w1.streams.open && w1.streams.open[id].started && w1.streams.open[id].session == session
    && id in w.streams.open && id !in w.cut && id !in w.ended
  }

  /** An opener of this Instance in any run, which cuts streams at w1, and reads the
      Record again at w3. */
  ghost predicate Opens(w: World, steps: seq<Step>, w1: World, op: nat, later: seq<Step>, w3: World)
  {
    && Fresh(w) && Runs(w, steps) && w1 == After(w, steps) && Enabled(w1, CutStreams(op))
    && Runs(Do(w1, CutStreams(op)), later) && ReadAgain(op) !in later && w3 == After(Do(w1, CutStreams(op)), later)
    && Enabled(w3, ReadAgain(op)) && w1.openers[op].session in w3.store.records
  }

  /** The streams of its Session that were started when an open cut the others, and that
      its second read leaves: each has the epoch that was opened, or it started after the
      mark and has the epoch the Record has now. */
  lemma OpenCutsTheOthers(w: World, steps: seq<Step>, w1: World, op: nat, later: seq<Step>, w3: World, id: nat)
    requires Opens(w, steps, w1, op, later, w3)
    ensures var o, w4 := w1.openers[op], Do(w3, ReadAgain(op));
      LeftFrom(w1, w4, o.session, id) ==>
        var s, was := w4.streams.open[id], w1.streams.open[id];
        && s.epoch == was.epoch
        && (s.epoch == o.epoch || (was.startedAt > o.mark && s.epoch == Epoch(w3.store, o.session)))
    ensures var o, w4 := w1.openers[op], Do(w3, ReadAgain(op));
      LeftFrom(w1, w3, o.session, id) && w3.streams.open[id].epoch == o.epoch ==> LeftFrom(w1, w4, o.session, id)
  {
    RunsKeep(w, steps);
    var o := w1.openers[op];
    if id in w1.streams.open && w1.streams.open[id].started && w1.streams.open[id].session == o.session {
      var ids := Unsure(w1.streams.open, o.session, o.epoch, Some(o.mark));
      var w2 := Do(w1, CutStreams(op));
      CutStreamsSplits(w1, op, id);
      assert w3 == After(w2, later) && Runs(w2, later);
      hide Inv, Unsure, Runs, After, Do, Epoch, Fresh, Enabled;
      StaysKept(w2, w2, id, op, ids, later);
      ReadAgainCuts(w3, op, o.session, ids, id);
    }
  }

  /** So an open leaves only streams of the Record there is at its second read exactly
      when that is still the Record it opened, or no stream of the one it opened is left
      by then. */
  lemma OpenCutsIff(w: World, steps: seq<Step>, w1: World, op: nat, later: seq<Step>, w3: World)
    requires Opens(w, steps, w1, op, later, w3)
    ensures var o, w4, now := w1.openers[op], Do(w3, ReadAgain(op)), Epoch(w3.store, w1.openers[op].session);
      (forall id :: LeftFrom(w1, w4, o.session, id) ==> w4.streams.open[id].epoch == now) <==>
        (o.epoch == now || forall id :: LeftFrom(w1, w3, o.session, id) ==> w3.streams.open[id].epoch != o.epoch)
  {
    var o, w4, now := w1.openers[op], Do(w3, ReadAgain(op)), Epoch(w3.store, w1.openers[op].session);
    assert w4.streams == w3.streams && w4.ended == w3.ended && w3.cut.Keys <= w4.cut.Keys;
    forall id ensures LeftFrom(w1, w4, o.session, id) ==>
        LeftFrom(w1, w3, o.session, id) && (w4.streams.open[id].epoch == o.epoch || w4.streams.open[id].epoch == now)
      ensures LeftFrom(w1, w3, o.session, id) && w3.streams.open[id].epoch == o.epoch ==>
        LeftFrom(w1, w4, o.session, id)
    {
      OpenCutsTheOthers(w, steps, w1, op, later, w3, id);
      hide Opens, Do, Enabled, After, Runs;
    }
    hide Opens, Do, After, Runs;
  }

  /** The case it excludes: stream 9 of the Record that was opened, which another Instance
      deleted and created again before the second read. */
  lemma OpenLeavesItsOwn()
    ensures var s := Stream(1, Some(1), true, 1, []);
      var w := World(Store(map[1 := 1], 1), Streams(map[9 := s], 1, false), {}, map[5 := Opener(1, 1, Some(1), None)],
                     map[], {}, {9});
      var w3 := Do(Do(Do(w, CutStreams(5)), Elsewhere(Delete(1))), Elsewhere(Create(1)));
      && Inv(w) && Enabled(w3, ReadAgain(5)) && LeftFrom(w, Do(w3, ReadAgain(5)), 1, 9)
      && w3.streams.open[9].epoch == Some(1) && Epoch(w3.store, 1) == Some(2)
  {
  }

  // ----- what a mark tells -----

  /** Later than w1, when the last start had its number m: the streams on record
      up to m are the ones that were started by then. */
  predicate Divided(w1: World, w: World)
  {
    && w.streams.starts >= w1.streams.starts && w1.registered <= w.registered
    && w1.streams.open.Keys <= w1.registered && w.streams.open.Keys <= w.registered
    && forall id :: id in w.streams.open ==>
         var s := w.streams.open[id];
         if id in w1.streams.open && w1.streams.open[id].started then s.started && s.startedAt <= w1.streams.starts
         else s.started ==> s.startedAt > w1.streams.starts
  }

  lemma StepDivides(w1: World, w: World, step: Step)
    requires Divided(w1, w) && Enabled(w, step)
    ensures Divided(w1, Do(w, step))
  {
    hide Stale, Unsure, Others, CutAll, Changed, Epoch, MustRecheck;
  }

  lemma {:induction false} StaysDivided(w1: World, w: World, steps: seq<Step>)
    requires Divided(w1, w) && Runs(w, steps)
    ensures Divided(w1, After(w, steps))
    decreases |steps|
  {
    if steps != [] {
      StepDivides(w1, w, steps[0]);
      hide Divided, Do;
      StaysDivided(w1, Do(w, steps[0]), steps[1..]);
    }
  }

  /** Whatever happens after a mark is taken, it tells the streams that had started
      by then, and no others: they are the ones with a number up to the mark. */
  lemma MarkDividesStarts(w: World, steps: seq<Step>, later: seq<Step>, id: nat)
    requires Fresh(w) && Runs(w, steps) && Runs(After(w, steps), later)
    requires var w2 := After(After(w, steps), later); id in w2.streams.open && w2.streams.open[id].started
    ensures var w1, w2 := After(w, steps), After(After(w, steps), later);
      w2.streams.open[id].startedAt <= w1.streams.starts <==> id in w1.streams.open && w1.streams.open[id].started
  {
    RunsKeep(w, steps);
    var w1 := After(w, steps);
    StaysDivided(w1, w1, later);
  }

  /** The step shows the streams of the Session that are opening its epoch, or the
      Record's end. */
  predicate Shows(w: World, step: Step, session: nat, epoch: Option<nat>)
    requires Enabled(w, step)
  {
    match step
    case CutStreams(op) => w.openers[op].session == session && w.openers[op].epoch == epoch
    case EndSession(ended) => ended == session && epoch.None?
    case StartUp(id) =>
      w.streams.open[id].session == session && w.streams.open[id].epoch == epoch && !MustRecheck(w.streams.open[id])
    case _ => false
  }

  /** The stream will read the Record's epoch again before it starts, unless what
      it read is the epoch it was shown. */
  predicate Wary(w: World, id: nat, epoch: Option<nat>)
  {
    && id in w.registered
    && (id in w.streams.open ==>
          var s := w.streams.open[id];
          if s.started then s.epoch == epoch else id in w.rechecking || epoch in s.seen)
  }

  lemma {:induction false} StaysWary(w: World, steps: seq<Step>, id: nat, epoch: Option<nat>)
    requires Wary(w, id, epoch) && Runs(w, steps) && ReadEpoch(id) !in steps
    ensures Wary(After(w, steps), id, epoch)
    decreases |steps|
  {
    if steps != [] {
      assert steps[0] in steps;
      StaysWary(Do(w, steps[0]), steps[1..], id, epoch);
    }
  }

  /** Registered before it reads the Record, a stream misses nothing: shown an epoch
      at any moment while it opens, it does not start on another one, however long
      it takes, without having read the Record again after that. */
  lemma MarkedStreamRereads(w: World, steps: seq<Step>, id: nat, mark: Step, later: seq<Step>, epoch: Option<nat>)
    requires Fresh(w) && Runs(w, steps) && Opening(After(w, steps), id)
    requires var w1 := After(w, steps);
      Enabled(w1, mark) && mark != StartUp(id) && Shows(w1, mark, w1.streams.open[id].session, epoch)
      && Runs(Do(w1, mark), later)
    requires ReadEpoch(id) !in later
    ensures var w2 := After(Do(After(w, steps), mark), later);
      id in w2.streams.open && w2.streams.open[id].started ==> w2.streams.open[id].epoch == epoch
  {
    RunsKeep(w, steps);
    StaysWary(Do(After(w, steps), mark), later, id, epoch);
  }

  // ----- the ends of a delete -----

  /** A delete ends every started stream of its Session, and no other. */
  lemma DeleteEndsAll(w: World, session: nat, id: nat)
    requires id !in w.ended
    ensures id in Do(w, EndSession(session)).ended <==>
      id in w.streams.open && w.streams.open[id].started && w.streams.open[id].session == session
      && w.streams.open[id].epoch.Some?
  {
  }

  /** The Session never has a Record of that epoch again. */
  ghost predicate GoneForGood(store: Store, session: nat, epoch: Option<nat>)
  {
    forall later :: Epoch(AllChanged(store, later), session) != epoch
  }

  /** The streams a delete ends are all of Records that are gone for good exactly when
      none of them is of the Record there is at that moment; and so they are when no
      Record is there, which is when nobody created one after the delete. */
  lemma DeleteEndsIff(w: World, steps: seq<Step>, session: nat)
    requires Fresh(w) && Runs(w, steps)
    ensures var w' := After(w, steps); var ids := Stale(w'.streams.open, session, None, None);
      && ((forall id :: id in ids ==> GoneForGood(w'.store, session, w'.streams.open[id].epoch)) <==>
          forall id :: id in ids ==> w'.streams.open[id].epoch != Epoch(w'.store, session))
      && (session !in w'.store.records ==>
          forall id :: id in ids ==> GoneForGood(w'.store, session, w'.streams.open[id].epoch))
  {
    RunsKeep(w, steps);
    var w' := After(w, steps);
    var ids := Stale(w'.streams.open, session, None, None);
    forall id | id in ids
      ensures GoneForGood(w'.store, session, w'.streams.open[id].epoch) <==>
        w'.streams.open[id].epoch != Epoch(w'.store, session)
    {
      OtherIsGone(w', id);
    }
  }

  lemma OtherIsGone(w: World, id: nat)
    requires Inv(w) && id in w.streams.open && w.streams.open[id].started
    ensures var s := w.streams.open[id];
      s.epoch.Some? && (GoneForGood(w.store, s.session, s.epoch) <==> s.epoch != Epoch(w.store, s.session))
  {
    var s := w.streams.open[id];
    if s.epoch == Epoch(w.store, s.session) {
      assert AllChanged(w.store, []) == w.store;
    } else {
      forall later ensures Epoch(AllChanged(w.store, later), s.session) != s.epoch
      {
        ReplacedForGood(w.store, later, s.session, s.epoch.value);
      }
    }
  }

  lemma RunsCons(w: World, step: Step, rest: seq<Step>)
    requires Enabled(w, step) && Runs(Do(w, step), rest)
    ensures Runs(w, [step] + rest) && After(w, [step] + rest) == After(Do(w, step), rest)
  {
    assert ([step] + rest)[1..] == rest;
  }

  /** The one-stream worlds of the run below. */
  function Example(store: Store, open: map<nat, Stream>, starts: nat, ended: set<nat>, registered: set<nat>): (w: World)
  {
    World(store, Streams(open, starts, false), {}, map[], map[], ended, registered)
  }

  lemma ExampleStore()
    ensures var w := Example(Store(map[1 := 1], 1), map[], 0, {}, {});
      Do(Do(w, Elsewhere(Delete(1))), Elsewhere(Create(1))) == Example(Store(map[1 := 2], 2), map[], 0, {}, {})
  {
    assert map[1 := 1] - {1} == map[];
  }

  lemma ExampleOpens(store: Store)
    requires store == Store(map[1 := 2], 2)
    ensures var w := Example(store, map[], 0, {}, {});
      && Enabled(w, Register(9, 1)) && Enabled(Do(w, Register(9, 1)), ReadEpoch(9))
      && Do(Do(w, Register(9, 1)), ReadEpoch(9)) ==
        Example(store, map[9 := Stream(1, Some(2), false, 0, [])], 0, {}, {9})
  {
  }

  lemma ExampleStarts(store: Store)
    ensures var w := Example(store, map[9 := Stream(1, Some(2), false, 0, [])], 0, {}, {9});
      && Enabled(w, StartUp(9))
      && Do(w, StartUp(9)) == Example(store, map[9 := Stream(1, Some(2), true, 1, [])], 1, {}, {9})
  {
    var open := map[9 := Stream(1, Some(2), false, 0, [])];
    assert open - {9} == map[];
  }

  lemma ExampleEnds(store: Store)
    ensures var w := Example(store, map[9 := Stream(1, Some(2), true, 1, [])], 1, {}, {9});
      && 9 in Do(w, EndSession(1)).ended && 9 in Do(w, EndSession(1)).streams.open
      && Do(w, EndSession(1)).store == store && Do(w, EndSession(1)).streams.open[9].epoch == Some(2)
  {
  }

  /** A delete makes no such check, so its ends can reach a stream of a Record that
      another Instance created after the delete, and that lives. */
  lemma DeleteEndsALiveStream()
    ensures var w := Example(Store(map[1 := 1], 1), map[], 0, {}, {});
      var steps := [Elsewhere(Delete(1)), Elsewhere(Create(1)), Register(9, 1),
        ReadEpoch(9), StartUp(9), EndSession(1)];
      && Fresh(w) && Runs(w, steps)
      && 9 in After(w, steps).ended && 9 in After(w, steps).streams.open
      && After(w, steps).streams.open[9].epoch == Epoch(After(w, steps).store, 1)
  {
    var store := Store(map[1 := 2], 2);
    var w0 := Example(Store(map[1 := 1], 1), map[], 0, {}, {});
    var w2 := Example(store, map[], 0, {}, {});
    var w5 := Example(store, map[9 := Stream(1, Some(2), true, 1, [])], 1, {}, {9});
    ExampleStore();
    ExampleOpens(store);
    ExampleStarts(store);
    ExampleEnds(store);
    hide Do;
    RunsCons(w5, EndSession(1), []);
    RunsCons(Do(Do(w2, Register(9, 1)), ReadEpoch(9)), StartUp(9), [EndSession(1)]);
    RunsCons(Do(w2, Register(9, 1)), ReadEpoch(9), [StartUp(9), EndSession(1)]);
    RunsCons(w2, Register(9, 1), [ReadEpoch(9), StartUp(9), EndSession(1)]);
    RunsCons(Do(w0, Elsewhere(Delete(1))), Elsewhere(Create(1)),
      [Register(9, 1), ReadEpoch(9), StartUp(9), EndSession(1)]);
    RunsCons(w0, Elsewhere(Delete(1)),
             [Elsewhere(Create(1)), Register(9, 1), ReadEpoch(9), StartUp(9), EndSession(1)]);
  }
}
