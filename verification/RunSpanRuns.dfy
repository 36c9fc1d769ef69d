/** The span of a Run under every interleaving of the Session's goroutine, of the
    Aborts, and of any goroutine that writes an Event of its own, over a Journal
    that refuses everything after its first refusal. */
module RunSpanRuns {
  import opened Seqs
  import opened RunSpan

  /** How far the Session's goroutine is with its Run. */
  datatype Phase = Idle | Running | Ending | Final | Finished

  datatype Session = Session(phase: Phase, staged: seq<Event>)

  datatype Author = TheSession | AnAbort | Another

  /** Who holds the write lock: with a stamped batch, and then with it written. */
  datatype Writer = Free | Stamped(author: Author, batch: seq<Event>) | Stored(author: Author, batch: seq<Event>)

  datatype Journal = Journal(log: seq<Event>, stopped: bool)

  datatype World = World(
    run: Run,
    session: Session,
    writer: Writer,
    journal: Journal,
    toWrite: nat,             // Aborts counted and not yet at the write lock
    next: nat,                // the next Run
    promised: set<nat>)       // the Runs an Abort returned true for

  datatype Step =
    | BeginRun
    | Stage(n: nat)           // Events of the step in progress
    | Flush
    | BeginEnd
    | StageEnd                // once the Aborts that write have finished
    | EndRun
    | TryAbort
    | WriteAbort
    | WriteOther(n: nat)
    | Accept
    | Refuse
    | Release
    | AbortDone

  function Others(n: nat, run: Option<nat>): (events: seq<Event>)
  {
    seq(n, i => Event(Other, run))
  }

  predicate SessionFree(w: World)
  {
    w.writer.Free? || w.writer.author != TheSession
  }

  predicate Enabled(w: World, step: Step)
  {
    match step
    case BeginRun => w.session.phase == Idle
    case Stage(_) => (w.session.phase == Running || w.session.phase == Ending) && SessionFree(w)
    case Flush => w.session.phase != Idle && w.session.staged != [] && w.writer.Free?
    case BeginEnd => w.session.phase == Running && SessionFree(w)
    case StageEnd => w.session.phase == Ending && SessionFree(w) && w.run.aborts == 0
    case EndRun => w.session.phase == Finished && SessionFree(w)
    case TryAbort => true
    case WriteAbort => w.toWrite > 0 && w.writer.Free?
    case WriteOther(_) => w.writer.Free?
    case Accept => w.writer.Stamped? && !w.journal.stopped
    case Refuse => w.writer.Stamped?
    case Release => w.writer.Stored?
    case AbortDone => w.run.aborts > w.toWrite + Writing(w.writer)
  }

  /** An Abort at the write lock. */
  function Writing(writer: Writer): (n: nat)
  {
    if !writer.Free? && writer.author == AnAbort then 1 else 0
  }

  function Write(w: World, author: Author, events: seq<Event>): (w': World)
  {
    var (run, batch) := OpenSpan(w.run, events);
    w.(run := run, writer := Stamped(author, batch))
  }

  function Do(w: World, step: Step): (w': World)
    requires Enabled(w, step)
  {
    match step
    case BeginRun =>
      w.(run := Begin(w.run, w.next), next := w.next + 1,
         session := Session(Running, [Event(Started, Some(w.next))]))
    case Stage(n) => w.(session := w.session.(staged := w.session.staged + Others(n, w.run.id)))
    case Flush =>
      var phase := if w.session.phase == Final then Finished else w.session.phase;
      Write(w, TheSession, w.session.staged).(session := Session(phase, []))
    case BeginEnd => w.(run := w.run.(ending := true), session := w.session.(phase := Ending))
    case StageEnd => w.(session := Session(Final, w.session.staged + [Event(Ended, w.run.id)]))
    case EndRun =>
      w.(run := if w.run.id.Some? then Over(w.run, w.run.id.value) else w.run, session := Session(Idle, []))
    case TryAbort =>
      var (outcome, run) := Abort(w.run);
      w.(run := run, toWrite := if outcome == InFlight then w.toWrite + 1 else w.toWrite,
         promised := if outcome != NoRun && w.run.id.Some? then w.promised + {w.run.id.value} else w.promised)
    case WriteAbort => Write(w, AnAbort, [Event(AbortRequested, None)]).(toWrite := w.toWrite - 1)
    case WriteOther(n) => Write(w, Another, Others(n, None))
    case Accept =>
      w.(journal := w.journal.(log := w.journal.log + w.writer.batch),
        writer := Stored(w.writer.author, w.writer.batch))
    case Refuse => w.(journal := w.journal.(stopped := true), writer := Free)
    case Release => w.(run := CloseSpan(w.run, w.writer.batch), writer := Free)
    case AbortDone => w.(run := w.run.(aborts := w.run.aborts - 1))
  }

  // ----- the invariant -----

  predicate Early(phase: Phase)
  {
    phase == Running || phase == Ending || phase == Final
  }

  /** The flags say how far the Run is, and an ended Run is not aborted. */
  predicate FlagsMatch(run: Run, phase: Phase, next: nat)
  {
    && (run.stop <==> phase != Idle)
    && (run.id.Some? <==> phase != Idle)
    && (phase != Idle ==> run.id.value < next && (run.ending <==> phase != Running))
    && (phase == Idle ==> !run.open)
    && (run.abortBeforeStart && phase != Idle ==> !run.open || phase == Finished)
  }

  /** What is staged: run_started first while the span is not opened, then Events of
      the Run, and run_ended last once it is staged. */
  ghost predicate StagedIs(run: Run, session: Session)
  {
    if Early(session.phase) then exists n: nat :: IsStaged(session, run, n)
    else session.staged == []
  }

  predicate IsStaged(session: Session, run: Run, n: nat)
  {
    session.staged == Body(run, n, session.phase == Final)
  }

  function Body(run: Run, n: nat, ended: bool): (events: seq<Event>)
  {
    (if run.open then [] else [Event(Started, run.id)]) + Others(n, run.id)
      + (if ended then [Event(Ended, run.id)] else [])
  }

  /** Aborts write only while the Run cannot write its end. */
  predicate AbortsCounted(run: Run, phase: Phase, writer: Writer, toWrite: nat)
  {
    && toWrite + Writing(writer) <= run.aborts
    && (run.aborts > 0 ==> run.open && (phase == Running || phase == Ending))
    && (!writer.Free? && writer.author == AnAbort ==> writer.batch == [Event(AbortRequested, run.id)])
  }

  /** What the log comes to with the batch that is being written. */
  function Pending(journal: Journal, writer: Writer): (p: Option<Parse>)
  {
    Reads(EMPTY, journal.log + if writer.Stamped? then writer.batch else [])
  }

  predicate Closing(writer: Writer)
  {
    !writer.Free? && Ends(writer.batch)
  }

  /** While the Journal accepts, the span the flags say is open is the log's. */
  predicate Synced(run: Run, phase: Phase, writer: Writer, journal: Journal, next: nat)
  {
    && Reads(EMPTY, journal.log).Some?
    && (forall r :: r in Reads(EMPTY, journal.log).value.done ==> r < next)
    && (Early(phase) ==> run.id.Some? && run.id.value !in Reads(EMPTY, journal.log).value.done)
    && (!journal.stopped ==>
          && Pending(journal, writer).Some?
          && Pending(journal, writer).value.open == (if run.open && !Closing(writer) then run.id else None)
          && (phase == Finished ==> run.open ==> Closing(writer))
          && (Early(phase) ==> run.id.value !in Pending(journal, writer).value.done)
          && (forall r :: r in Pending(journal, writer).value.done ==> r < next))
    && (Closing(writer) ==> phase == Finished && writer.author == TheSession)
  }

  /** A written abort_requested is of the Run in flight, which has not ended. */
  ghost predicate BatchNames(run: Run, writer: Writer, journal: Journal)
  {
    writer.Stamped? ==> forall r: nat :: Event(AbortRequested, Some(r)) in writer.batch ==>
      writer.author != Another && run.id == Some(r) && Event(Ended, Some(r)) !in journal.log
  }

  /** An Abort that returned true is written, or will be before its Run ends. */
  predicate Kept(run: Run, phase: Phase, writer: Writer, log: seq<Event>, toWrite: nat, r: nat)
  {
    || Event(AbortRequested, Some(r)) in log
    || (writer.Stamped? && Event(AbortRequested, Some(r)) in writer.batch)
    || (run.id == Some(r) && Early(phase) && ((run.abortBeforeStart && !run.open) || toWrite > 0))
  }

  predicate Lost(journal: Journal, r: nat)
  {
    journal.stopped && Event(Ended, Some(r)) !in journal.log
  }

  ghost predicate PromisesKept(w: World)
  {
    forall r: nat :: r in w.promised ==>
      Kept(w.run, w.session.phase, w.writer, w.journal.log, w.toWrite, r) || Lost(w.journal, r)
  }

  ghost predicate Inv(w: World)
  {
    && FlagsMatch(w.run, w.session.phase, w.next)
    && StagedIs(w.run, w.session)
    && AbortsCounted(w.run, w.session.phase, w.writer, w.toWrite)
    && Synced(w.run, w.session.phase, w.writer, w.journal, w.next)
    && BatchNames(w.run, w.writer, w.journal)
    && PromisesKept(w)
  }

  // ----- what a batch becomes, and how it reads -----

  lemma {:induction false} OpenAppend(run: Run, a: seq<Event>, b: seq<Event>)
    ensures OpenSpan(run, a + b).0 == OpenSpan(OpenSpan(run, a).0, b).0
    ensures OpenSpan(run, a + b).1 == OpenSpan(run, a).1 + OpenSpan(OpenSpan(run, a).0, b).1
  {
    if b == [] {
      assert a + b == a;
    } else {
      assert (a + b)[..|a + b| - 1] == a + b[..|b| - 1];
      OpenAppend(run, a, b[..|b| - 1]);
    }
  }

  lemma {:induction false} OpenOthers(run: Run, n: nat, id: Option<nat>)
    ensures OpenSpan(run, Others(n, id)).0 == run
    ensures OpenSpan(run, Others(n, id)).1 == Others(n, if id.None? && run.open then run.id else id)
  {
    if n > 0 {
      assert Others(n, id)[..n - 1] == Others(n - 1, id);
      OpenOthers(run, n - 1, id);
    }
  }

  lemma {:induction false} ReadsOthers(p: Parse, n: nat, id: Option<nat>)
    requires id.None? || p.open == id
    ensures Reads(p, Others(n, id)) == Some(p)
  {
    if n > 0 {
      assert Others(n, id)[..n - 1] == Others(n - 1, id);
      ReadsOthers(p, n - 1, id);
    }
  }

  lemma ReadsOne(p: Parse, e: Event)
    ensures Reads(p, [e]) == Next(p, e)
  {
    assert [e][..0] == [];
  }

  lemma OpensOne(run: Run, e: Event)
    ensures OpenSpan(run, [e]).0 == OpenOne(run, e).0 && OpenSpan(run, [e]).1 == OpenOne(run, e).1
  {
    assert [e][..0] == [];
  }

  /** How the Session's batch begins: with the span's start while it is not open, and
      the Abort that came before it. */
  function Head(run: Run): (events: seq<Event>)
  {
    if run.open then []
    else [Event(Started, run.id)] + if run.abortBeforeStart then [Event(AbortRequested, run.id)] else []
  }

  function Tail(run: Run, ended: bool): (events: seq<Event>)
  {
    if ended then [Event(Ended, run.id)] else []
  }

  function Opened(run: Run): (r: Run)
  {
    if run.open then run else run.(open := true, abortBeforeStart := false)
  }

  function BatchOf(run: Run, n: nat, ended: bool): (batch: seq<Event>)
  {
    Head(run) + Others(n, run.id) + Tail(run, ended)
  }

  lemma SessionBatch(run: Run, n: nat, ended: bool)
    requires run.id.Some?
    ensures OpenSpan(run, Body(run, n, ended)).0 == Opened(run)
    ensures OpenSpan(run, Body(run, n, ended)).1 == BatchOf(run, n, ended)
  {
    var start := if run.open then [] else [Event(Started, run.id)];
    OpensOne(run, Event(Started, run.id));
    OpensOne(Opened(run), Event(Ended, run.id));
    OpenOthers(Opened(run), n, run.id);
    assert OpenSpan(run, start).0 == Opened(run) && OpenSpan(run, start).1 == Head(run);
    OpenAppend(run, start, Others(n, run.id));
    OpenAppend(run, start + Others(n, run.id), Tail(run, ended));
  }

  lemma SessionBatchReads(p: Parse, run: Run, n: nat, ended: bool)
    requires run.id.Some? && run.id.value !in p.done
    requires p.open == if run.open then run.id else None
    ensures Reads(p, BatchOf(run, n, ended))
         == Some(if ended then Parse(None, p.done + {run.id.value}) else Parse(run.id, p.done))
  {
    var started := Parse(run.id, p.done);
    ReadsOne(p, Event(Started, run.id));
    ReadsOne(started, Event(AbortRequested, run.id));
    ReadsAppend(p, [Event(Started, run.id)], [Event(AbortRequested, run.id)]);
    assert [Event(Started, run.id)] + [] == [Event(Started, run.id)];
    assert Reads(p, Head(run)) == Some(started);
    ReadsOthers(started, n, run.id);
    ReadsAppend(p, Head(run), Others(n, run.id));
    ReadsOne(started, Event(Ended, run.id));
    ReadsAppend(p, Head(run) + Others(n, run.id), Tail(run, ended));
  }

  // ----- each step keeps the invariant -----

  function AfterFlush(w: World, n: nat): (w': World)
  {
    var ended := w.session.phase == Final;
    w.(run := Opened(w.run), writer := Stamped(TheSession, BatchOf(w.run, n, ended)),
       session := Session(if ended then Finished else w.session.phase, []))
  }

  lemma FlushDoes(w: World, n: nat)
    requires Enabled(w, Flush) && w.run.id.Some? && IsStaged(w.session, w.run, n)
    ensures Do(w, Flush) == AfterFlush(w, n)
  {
    SessionBatch(w.run, n, w.session.phase == Final);
  }

  lemma FlushKeeps(w: World)
    requires Inv(w) && Enabled(w, Flush)
    ensures Inv(Do(w, Flush))
  {
    assert Early(w.session.phase);
    var n: nat :| IsStaged(w.session, w.run, n);
    FlushDoes(w, n);
    FlushFlags(w, n);
    assert w.session.phase == Final ==> w.toWrite == 0;
    hide Do, Enabled, BatchOf, Head, PromisesKept, StagedIs, AbortsCounted, BatchNames;
    var w', ended := AfterFlush(w, n), w.session.phase == Final;
    FlushSynced(w, w.run, n, ended, w'.writer.batch, w'.session.phase);
    NothingStaged(w'.run, w'.session);
    hide Synced, FlagsMatch;
  }

  lemma FlushFlags(w: World, n: nat)
    requires Inv(w) && Enabled(w, Flush) && Early(w.session.phase)
    ensures var w' := AfterFlush(w, n);
      && FlagsMatch(w'.run, w'.session.phase, w'.next)
      && AbortsCounted(w'.run, w'.session.phase, w'.writer, w'.toWrite)
      && BatchNames(w'.run, w'.writer, w'.journal)
  {
    hide PromisesKept, StagedIs;
    ParseMeans(w.journal.log);
    assert Event(Ended, w.run.id) !in w.journal.log;
    hide BatchOf, Reads, Ends, Pending, Synced;
  }

  lemma NothingStaged(run: Run, session: Session)
    requires session.staged == [] && (Early(session.phase) ==> run.open && session.phase != Final)
    ensures StagedIs(run, session)
  {
    if Early(session.phase) { assert IsStaged(session, run, 0); }
  }

  lemma FlushSynced(w: World, run: Run, n: nat, ended: bool, batch: seq<Event>, phase: Phase)
    requires run == w.run && w.writer.Free? && Early(w.session.phase) && FlagsMatch(run, w.session.phase, w.next)
    requires Synced(run, w.session.phase, w.writer, w.journal, w.next)
    requires batch == BatchOf(run, n, ended) && (Ends(batch) <==> ended)
    requires phase == if ended then Finished else w.session.phase
    requires phase != Final
    ensures Synced(Opened(run), phase, Stamped(TheSession, batch), w.journal, w.next)
  {
    assert w.journal.log + [] == w.journal.log;
    if !w.journal.stopped {
      var p := Reads(EMPTY, w.journal.log).value;
      SessionBatchReads(p, run, n, ended);
      ReadsAppend(EMPTY, w.journal.log, batch);
    }
    hide Reads, BatchOf, Ends;
  }

  lemma BeginRunKeeps(w: World)
    requires Inv(w) && Enabled(w, BeginRun)
    ensures Inv(Do(w, BeginRun))
  {
    hide Reads;
    var w' := Do(w, BeginRun);
    assert Others(0, w'.run.id) == [];
    assert IsStaged(w'.session, w'.run, 0);
  }

  lemma StageKeeps(w: World, n: nat)
    requires Inv(w) && Enabled(w, Stage(n))
    ensures Inv(Do(w, Stage(n)))
  {
    hide Synced, PromisesKept, BatchNames;
    var w' := Do(w, Stage(n));
    var m: nat :| IsStaged(w.session, w.run, m);
    assert Others(m, w.run.id) + Others(n, w.run.id) == Others(m + n, w.run.id);
    assert IsStaged(w'.session, w'.run, m + n);
    SamePromises(w, w');
  }

  /** Nothing that a promise rests on changed. */
  lemma SamePromises(w: World, w': World)
    requires PromisesKept(w)
    requires w'.run.id == w.run.id && w'.run.open == w.run.open && w'.run.abortBeforeStart == w.run.abortBeforeStart
    requires Early(w.session.phase) ==> Early(w'.session.phase)
    requires w'.writer == w.writer && w'.journal == w.journal && w'.toWrite == w.toWrite && w'.promised == w.promised
    ensures PromisesKept(w')
  {
  }

  lemma BeginEndKeeps(w: World)
    requires Inv(w) && Enabled(w, BeginEnd)
    ensures Inv(Do(w, BeginEnd))
  {
    hide Reads, Pending, PromisesKept;
    var w' := Do(w, BeginEnd);
    var m: nat :| IsStaged(w.session, w.run, m);
    assert IsStaged(w'.session, w'.run, m);
    SamePromises(w, w');
  }

  lemma StageEndKeeps(w: World)
    requires Inv(w) && Enabled(w, StageEnd)
    ensures Inv(Do(w, StageEnd))
  {
    hide Reads, Pending, PromisesKept;
    var w' := Do(w, StageEnd);
    var m: nat :| IsStaged(w.session, w.run, m);
    assert IsStaged(w'.session, w'.run, m);
    SamePromises(w, w');
  }

  lemma EndRunKeeps(w: World)
    requires Inv(w) && Enabled(w, EndRun)
    ensures Inv(Do(w, EndRun))
  {
    hide Reads, Ends;
  }

  lemma TryAbortKeeps(w: World)
    requires Inv(w)
    ensures Inv(Do(w, TryAbort))
  {
    hide Reads, Pending;
    var w' := Do(w, TryAbort);
    if Early(w.session.phase) {
      var m: nat :| IsStaged(w.session, w.run, m);
      assert IsStaged(w'.session, w'.run, m);
    }
  }

  /** A batch that changes nothing of the span. */
  lemma WritePlainSynced(w: World, author: Author, batch: seq<Event>)
    requires w.writer.Free? && Synced(w.run, w.session.phase, w.writer, w.journal, w.next)
    requires !Ends(batch)
    requires forall p: Parse :: p.open == (if w.run.open then w.run.id else None) ==> Reads(p, batch) == Some(p)
    ensures Synced(w.run, w.session.phase, Stamped(author, batch), w.journal, w.next)
  {
    assert w.journal.log + [] == w.journal.log;
    ReadsAppend(EMPTY, w.journal.log, batch);
    hide Reads, Ends;
  }

  lemma WriteAbortKeeps(w: World)
    requires Inv(w) && Enabled(w, WriteAbort)
    ensures Inv(Do(w, WriteAbort))
  {
    var batch := [Event(AbortRequested, w.run.id)];
    OpensOne(w.run, Event(AbortRequested, None));
    var w' := Do(w, WriteAbort);
    assert w'.run == w.run && w'.writer == Stamped(AnAbort, batch);
    forall p: Parse | p.open == w.run.id ensures Reads(p, batch) == Some(p) { ReadsOne(p, batch[0]); }
    ParseMeans(w.journal.log);
    assert Event(Ended, w.run.id) !in w.journal.log;
    assert batch[0] in batch;
    WritePlainSynced(w, AnAbort, batch);
    hide Reads, OpenSpan, Synced, Do;
  }

  lemma WriteOtherKeeps(w: World, n: nat)
    requires Inv(w) && Enabled(w, WriteOther(n))
    ensures Inv(Do(w, WriteOther(n)))
  {
    var id := if w.run.open then w.run.id else None;
    var batch := Others(n, id);
    OpenOthers(w.run, n, None);
    var w' := Do(w, WriteOther(n));
    assert w'.run == w.run && w'.writer == Stamped(Another, batch);
    forall p: Parse | p.open == id ensures Reads(p, batch) == Some(p) { ReadsOthers(p, n, id); }
    assert forall e :: e in batch ==> e.kind == Other;
    WritePlainSynced(w, Another, batch);
    hide Reads, OpenSpan, Synced, Do, Others, StagedIs;
  }

  lemma AcceptKeeps(w: World)
    requires Inv(w) && Enabled(w, Accept)
    ensures Inv(Do(w, Accept))
  {
    var w' := Do(w, Accept);
    assert w'.journal.log + [] == w'.journal.log;
    hide Reads, Ends, StagedIs;
  }

  lemma RefuseKeeps(w: World)
    requires Inv(w) && Enabled(w, Refuse)
    ensures Inv(Do(w, Refuse))
  {
    hide Reads, Ends, StagedIs, Pending;
  }

  lemma ReleaseKeeps(w: World)
    requires Inv(w) && Enabled(w, Release)
    ensures Inv(Do(w, Release))
  {
    hide Reads, Ends;
    var w' := Do(w, Release);
    if Early(w.session.phase) {
      var m: nat :| IsStaged(w.session, w.run, m);
      assert IsStaged(w'.session, w'.run, m);
    }
  }

  lemma AbortDoneKeeps(w: World)
    requires Inv(w) && Enabled(w, AbortDone)
    ensures Inv(Do(w, AbortDone))
  {
    hide Reads, Pending, PromisesKept;
    var w' := Do(w, AbortDone);
    if Early(w.session.phase) {
      var m: nat :| IsStaged(w.session, w.run, m);
      assert IsStaged(w'.session, w'.run, m);
    }
    SamePromises(w, w');
  }

  lemma StepKeeps(w: World, step: Step)
    requires Inv(w) && Enabled(w, step)
    ensures Inv(Do(w, step))
  {
    hide Inv, Do, Enabled;
    match step
    case BeginRun => BeginRunKeeps(w);
    case Stage(n) => StageKeeps(w, n);
    case Flush => FlushKeeps(w);
    case BeginEnd => BeginEndKeeps(w);
    case StageEnd => StageEndKeeps(w);
    case EndRun => EndRunKeeps(w);
    case TryAbort => TryAbortKeeps(w);
    case WriteAbort => WriteAbortKeeps(w);
    case WriteOther(n) => WriteOtherKeeps(w, n);
    case Accept => AcceptKeeps(w);
    case Refuse => RefuseKeeps(w);
    case Release => ReleaseKeeps(w);
    case AbortDone => AbortDoneKeeps(w);
  }

  // ----- every run -----

  ghost predicate Runs(w: World, steps: seq<Step>)
    decreases |steps|
  {
    steps == [] || (Enabled(w, steps[0]) && Runs(Do(w, steps[0]), steps[1..]))
  }

  ghost function After(w: World, steps: seq<Step>): (w': World)
    requires Runs(w, steps)
    decreases |steps|
  {
    if steps == [] then w else After(Do(w, steps[0]), steps[1..])
  }

  predicate Fresh(w: World)
  {
    && w.run == Run(None, false, false, false, false, 0) && w.session == Session(Idle, []) && w.writer == Free
    && w.journal == Journal([], false) && w.toWrite == 0 && w.promised == {}
  }

  lemma {:induction false} RunsKeep(w: World, steps: seq<Step>)
    requires Inv(w) && Runs(w, steps)
    ensures Inv(After(w, steps))
    decreases |steps|
  {
    if steps != [] {
      StepKeeps(w, steps[0]);
      hide Inv, Do, Enabled;
      RunsKeep(Do(w, steps[0]), steps[1..]);
    }
  }

  /** In every interleaving, each logged Event that names a Run stands between that
      Run's run_started and its run_ended, of which the log holds one each at most. */
  lemma EveryEventInItsSpan(w: World, steps: seq<Step>, i: nat, r: nat)
    requires Fresh(w) && Runs(w, steps)
    requires i < |After(w, steps).journal.log| && After(w, steps).journal.log[i].run == Some(r)
    ensures var log := After(w, steps).journal.log;
      && (exists s :: 0 <= s <= i && log[s] == Event(Started, Some(r)))
      && (forall e :: 0 <= e < |log| && log[e] == Event(Ended, Some(r)) ==> i <= e)
      && (forall s, t :: 0 <= s < t < |log| && IsBound(log[s], r) ==> log[s] != log[t])
  {
    RunsKeep(w, steps);
    EventsInsideSpan(After(w, steps).journal.log, i, r);
  }

  /** An Abort that returned true for a Run whose end is logged has its
      abort_requested in the log, after the Run's run_started and before its
      run_ended; and no abort_requested names no Run. */
  lemma AbortIsInTheSpan(w: World, steps: seq<Step>, r: nat)
    requires Fresh(w) && Runs(w, steps)
    requires r in After(w, steps).promised && Event(Ended, Some(r)) in After(w, steps).journal.log
    ensures var log := After(w, steps).journal.log;
      exists s, a, e :: 0 <= s < a < e < |log| && log[s] == Event(Started, Some(r))
        && log[a] == Event(AbortRequested, Some(r)) && log[e] == Event(Ended, Some(r))
  {
    RunsKeep(w, steps);
    var w' := After(w, steps);
    var log := w'.journal.log;
    ParseMeans(log);
    assert r in Reads(EMPTY, log).value.done;
    assert Event(AbortRequested, Some(r)) in log;
    var a :| 0 <= a < |log| && log[a] == Event(AbortRequested, Some(r));
    var e :| 0 <= e < |log| && log[e] == Event(Ended, Some(r));
    EventsInsideSpan(log, a, r);
    var s :| 0 <= s <= a && log[s] == Event(Started, Some(r));
    assert s < a < e;
  }

  /** It needs the Journal to stop: when one refuses a Run's run_started and then
      takes the Event of another goroutine, that Event names a Run that never began. */
  lemma NeedsJournalToStop(w: World)
    requires Fresh(w)
    ensures Runs(w, [BeginRun, Flush, Refuse, WriteOther(1)])
    ensures var w' := After(w, [BeginRun, Flush, Refuse, WriteOther(1)]);
      w'.writer.Stamped? && Reads(EMPTY, w'.journal.log + w'.writer.batch).None?
  {
    var w1 := Do(w, BeginRun);
    OpensOne(w1.run, Event(Started, Some(w.next)));
    var w3 := Do(Do(w1, Flush), Refuse);
    OpenOthers(w3.run, 1, None);
    var e := Event(Other, Some(w.next));
    assert Others(1, Some(w.next)) == [e] && w3.journal.log == [] && [] + [e] == [e];
    ReadsOne(EMPTY, e);
    var steps := [BeginRun, Flush, Refuse, WriteOther(1)];
    assert steps[1..] == [Flush, Refuse, WriteOther(1)] && steps[1..][1..] == [Refuse, WriteOther(1)];
    assert [Refuse, WriteOther(1)][1..] == [WriteOther(1)] && [WriteOther(1)][1..] == [];
  }
}
