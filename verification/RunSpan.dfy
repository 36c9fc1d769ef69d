/** The span of a Run in the Event log: what opens and closes it, how an Event that
    names no Run is stamped, and what an Abort becomes. */
module RunSpan {
  import opened Seqs

  datatype Kind = Started | Ended | AbortRequested | Other

  datatype Event = Event(kind: Kind, run: Option<nat>)

  /** The run state the span is kept in, guarded by one lock. */
  datatype Run = Run(
    id: Option<nat>,
    stop: bool,               // there is a Run to cancel
    ending: bool,
    abortBeforeStart: bool,
    open: bool,               // the span: run_started is being written, run_ended is not written
    aborts: nat)              // Aborts that are writing their Event, which the Run's end waits for

  // ----- what each locked step does -----

  function StampOne(run: Run, e: Event): (r: Event)
  {
    if e.run.None? && run.open then e.(run := run.id) else e
  }

  function OpenOne(run: Run, e: Event): (r: (Run, seq<Event>))
  {
    var stamped := StampOne(run, e);
    if e.kind != Started then (run, [stamped])
    else (run.(open := true, abortBeforeStart := false),
          if run.abortBeforeStart then [stamped, Event(AbortRequested, run.id)] else [stamped])
  }

  /** The batch as it is written, and the run state it is written under. */
  function OpenSpan(run: Run, events: seq<Event>): (r: (Run, seq<Event>))
  {
    if events == [] then (run, []) else
    var (before, out) := OpenSpan(run, events[..|events| - 1]);
    var (after, last) := OpenOne(before, Last(events));
    (after, out + last)
  }

  predicate Ends(events: seq<Event>)
  {
    exists e :: e in events && e.kind == Ended
  }

  function CloseSpan(run: Run, events: seq<Event>): (r: Run)
  {
    if Ends(events) then run.(open := false) else run
  }

  datatype AbortOutcome = NoRun | BeforeStart | InFlight

  /** An Abort stops the Run when there is one that is not ending. It is written
      with run_started when that is not written yet, and otherwise beside the Run. */
  function Abort(run: Run): (r: (AbortOutcome, Run))
  {
    if !run.stop || run.ending then (NoRun, run)
    else if !run.open then (BeforeStart, run.(abortBeforeStart := true))
    else (InFlight, run.(aborts := run.aborts + 1))
  }

  function Begin(run: Run, id: nat): (r: Run)
  {
    run.(id := Some(id), stop := true, ending := false, abortBeforeStart := false)
  }

  function Over(run: Run, id: nat): (r: Run)
  {
    if run.id == Some(id) then run.(open := false, id := None, stop := false) else run.(open := false)
  }

  predicate Starts(events: seq<Event>)
  {
    exists i :: 0 <= i < |events| && events[i].kind == Started
  }

  /** Each Event as it is, but with the Run whose span is open when it names none. */
  ghost predicate StampedAs(run: Run, events: seq<Event>, out: seq<Event>)
  {
    && |out| == |events|
    && forall i :: 0 <= i < |out| ==>
         out[i] == if run.open && events[i].run == None then events[i].(run := run.id) else events[i]
  }

  lemma {:induction false} StampsPlain(run: Run, events: seq<Event>)
    requires !Starts(events)
    ensures OpenSpan(run, events).0 == run && StampedAs(run, events, OpenSpan(run, events).1)
    ensures |OpenSpan(run, events).1| == |events|
  {
    if events != [] {
      var front := events[..|events| - 1];
      assert forall i :: 0 <= i < |front| ==> front[i] == events[i];
      StampsPlain(run, front);
      assert Last(events).kind != Started;
    }
  }

  lemma {:induction false} SpanAppend(run: Run, a: seq<Event>, b: seq<Event>)
    ensures OpenSpan(run, a + b).0 == OpenSpan(OpenSpan(run, a).0, b).0
    ensures OpenSpan(run, a + b).1 == OpenSpan(run, a).1 + OpenSpan(OpenSpan(run, a).0, b).1
  {
    if b == [] {
      assert a + b == a;
    } else {
      assert (a + b)[..|a + b| - 1] == a + b[..|b| - 1];
      SpanAppend(run, a, b[..|b| - 1]);
    }
  }

  lemma {:induction false} StampsFlags(run: Run, events: seq<Event>)
    ensures OpenSpan(run, events).0 ==
      run.(open := run.open || Starts(events), abortBeforeStart := run.abortBeforeStart && !Starts(events))
  {
    if events != [] {
      var front := events[..|events| - 1];
      StampsFlags(run, front);
      assert forall i :: 0 <= i < |front| ==> front[i] == events[i];
      if Last(events).kind == Started { assert events[|events| - 1].kind == Started; }
      if Starts(front) {
        var i :| 0 <= i < |front| && front[i].kind == Started;
        assert events[i].kind == Started;
      }
    }
  }

  lemma SpanOfOne(run: Run, e: Event)
    ensures OpenSpan(run, [e]).0 == OpenOne(run, e).0 && OpenSpan(run, [e]).1 == OpenOne(run, e).1
    ensures StampedAs(run, [e], [OpenOne(run, e).1[0]])
  {
    assert [e][..0] == [];
    assert [] + OpenOne(run, e).1 == OpenOne(run, e).1;
  }

  /** What a batch that run_started begins is written as: its first Event, the Abort
      that came before, and the rest in the span. */
  lemma StampsFirst(run: Run, events: seq<Event>)
    requires events != [] && events[0].kind == Started && !Starts(events[1..])
    ensures var aborted := if run.abortBeforeStart then [Event(AbortRequested, run.id)] else [];
      var out := OpenSpan(run, events).1;
      && |out| == |events| + |aborted| && out[1..1 + |aborted|] == aborted
      && StampedAs(run, [events[0]], out[..1])
      && StampedAs(run.(open := true, abortBeforeStart := false), events[1..], out[1 + |aborted|..])
  {
    hide OpenSpan, StampedAs, Starts;
    var head := OpenOne(run, events[0]);
    SpanOfOne(run, events[0]);
    assert [events[0]] + events[1..] == events;
    SpanAppend(run, [events[0]], events[1..]);
    StampsPlain(head.0, events[1..]);
    var rest := OpenSpan(head.0, events[1..]).1;
    assert (head.1 + rest)[|head.1|..] == rest;
    assert (head.1 + rest)[..1] == [head.1[0]];
    assert (head.1 + rest)[1..|head.1|] == head.1[1..];
    assert |rest| == |events| - 1;
  }

  /** A batch opens the span when it holds run_started, which an Abort that came before
      waits for. Events that name no Run get the one whose span is open; an Abort that
      waits follows the run_started at the head of a batch. */
  ghost predicate Stamped(run: Run, events: seq<Event>, after: Run, out: seq<Event>)
  {
    && after == run.(open := run.open || Starts(events), abortBeforeStart := run.abortBeforeStart && !Starts(events))
    && (!Starts(events) ==> StampedAs(run, events, out))
    && (events != [] && events[0].kind == Started && !Starts(events[1..]) ==>
          var aborted := if run.abortBeforeStart then [Event(AbortRequested, run.id)] else [];
          && |out| == |events| + |aborted| && out[1..1 + |aborted|] == aborted
          && StampedAs(run, [events[0]], out[..1])
          && StampedAs(run.(open := true, abortBeforeStart := false), events[1..], out[1 + |aborted|..]))
  }

  lemma SpanIsStamped(run: Run, events: seq<Event>)
    ensures Stamped(run, events, OpenSpan(run, events).0, OpenSpan(run, events).1)
  {
    hide StampedAs, OpenSpan;
    StampsFlags(run, events);
    if !Starts(events) { StampsPlain(run, events); }
    if events != [] && events[0].kind == Started && !Starts(events[1..]) { StampsFirst(run, events); }
  }

  // ----- the state, changed in place -----

  class RunState {
    var id: Option<nat>
    var stop: bool
    var ending: bool
    var abortBeforeStart: bool
    var open: bool
    var aborts: nat

    function State(): (r: Run)
      reads this
    {
      Run(id, stop, ending, abortBeforeStart, open, aborts)
    }

    constructor ()
      ensures State() == Run(None, false, false, false, false, 0)
    {
      id, stop, ending, abortBeforeStart, open, aborts := None, false, false, false, false, 0;
    }

    method BeginRun(run: nat)
      modifies this
      ensures State() == Begin(old(State()), run)
      ensures id == Some(run) && stop && !ending && !abortBeforeStart && open == old(open) && aborts == old(aborts)
    {
      id := Some(run);
      ending := false;
      abortBeforeStart := false;
      stop := true;
    }

    method EndRun(run: nat)
      modifies this
      ensures State() == Over(old(State()), run)
      ensures !open && aborts == old(aborts) && ending == old(ending)
      ensures if old(id) == Some(run) then id == None && !stop else id == old(id) && stop == old(stop)
    {
      open := false;
      if id == Some(run) {
        id := None;
        stop := false;
      }
    }

    /** Events that name no Run are given the one whose span is open, and an Abort that
        came before it opened follows the run_started that opens it. */
    method StampEvents(events: seq<Event>) returns (out: seq<Event>)
      modifies this
      ensures (State(), out) == OpenSpan(old(State()), events)
      ensures Stamped(old(State()), events, State(), out)
    {
      SpanIsStamped(State(), events);
      hide Stamped;
      out := [];
      for i := 0 to |events|
        invariant (State(), out) == OpenSpan(old(State()), events[..i])
      {
        assert events[..i + 1][..i] == events[..i];
        ghost var before, sofar := State(), out;
        var event := events[i];
        if event.run == None && open { event := event.(run := id); }
        out := out + [event];
        if event.kind == Started {
          open := true;
          if abortBeforeStart {
            abortBeforeStart := false;
            out := out + [Event(AbortRequested, id)];
          }
        }
        assert State() == OpenOne(before, events[i]).0;
        assert out == sofar + OpenOne(before, events[i]).1;
      }
      assert events[..|events|] == events;
    }

    method CloseAfter(events: seq<Event>)
      modifies this
      ensures State() == CloseSpan(old(State()), events)
      ensures State() == old(State()).(open := old(open) && forall e :: e in events ==> e.kind != Ended)
    {
      for i := 0 to |events|
        invariant State() == old(State())
        invariant forall j :: 0 <= j < i ==> events[j].kind != Ended
      {
        if events[i].kind == Ended {
          open := false;
          return;
        }
      }
    }

    method TryAbort() returns (outcome: AbortOutcome)
      modifies this
      ensures (outcome, State()) == Abort(old(State()))
      ensures outcome.NoRun? <==> !old(stop) || old(ending)
      ensures outcome.BeforeStart? <==> old(stop) && !old(ending) && !old(open)
      ensures abortBeforeStart == (old(abortBeforeStart) || outcome.BeforeStart?)
      ensures aborts == old(aborts) + if outcome.InFlight? then 1 else 0
      ensures id == old(id) && stop == old(stop) && ending == old(ending) && open == old(open)
    {
      if !stop || ending { return NoRun; }
      if !open {
        abortBeforeStart := true;
        return BeforeStart;
      }
      aborts := aborts + 1;
      return InFlight;
    }
  }

  // ----- the log, read back -----

  /** After a stretch of the log: the Run whose span is open, and those that ended. */
  datatype Parse = Parse(open: Option<nat>, done: set<nat>)

  /** How one Event goes on from there, or None when it may not stand there: a Run
      starts once and outside every span, ends once, and every other Event that names
      a Run stands in its span, as every abort_requested does. */
  function Next(p: Parse, e: Event): (r: Option<Parse>)
  {
    match e.kind
    case Started =>
      if e.run.Some? && p.open.None? && e.run.value !in p.done then Some(p.(open := e.run)) else None
    case Ended =>
      if e.run.Some? && p.open == e.run then Some(Parse(None, p.done + {e.run.value})) else None
    case AbortRequested => if e.run.Some? && p.open == e.run then Some(p) else None
    case Other => if e.run.None? || p.open == e.run then Some(p) else None
  }

  function Reads(p: Parse, log: seq<Event>): (r: Option<Parse>)
  {
    if log == [] then Some(p) else
    match Reads(p, log[..|log| - 1])
    case None => None
    case Some(q) => Next(q, Last(log))
  }

  const EMPTY := Parse(None, {})

  lemma {:induction false} ReadsAppend(p: Parse, a: seq<Event>, b: seq<Event>)
    ensures Reads(p, a + b) == if Reads(p, a).Some? then Reads(Reads(p, a).value, b) else None
  {
    if b == [] {
      assert a + b == a;
    } else {
      assert (a + b)[..|a + b| - 1] == a + b[..|b| - 1];
      ReadsAppend(p, a, b[..|b| - 1]);
    }
  }

  lemma {:induction false} ReadsPrefix(p: Parse, log: seq<Event>, i: nat)
    requires i <= |log| && Reads(p, log).Some?
    ensures Reads(p, log[..i]).Some?
  {
    if i < |log| {
      ReadsPrefix(p, log[..|log| - 1], i);
      assert log[..|log| - 1][..i] == log[..i];
    } else {
      assert log[..i] == log;
    }
  }

  /** The open Run has started and not ended, the others that ended did both, and no
      other Run is named. */
  lemma {:induction false} ParseMeans(log: seq<Event>)
    requires Reads(EMPTY, log).Some?
    ensures var p := Reads(EMPTY, log).value;
      && (forall r: nat :: Event(Started, Some(r)) in log <==> p.open == Some(r) || r in p.done)
      && (forall r: nat :: Event(Ended, Some(r)) in log <==> r in p.done)
      && (p.open.Some? ==> p.open.value !in p.done)
  {
    if log != [] {
      ParseMeans(log[..|log| - 1]);
      assert log == log[..|log| - 1] + [Last(log)];
    }
  }

  predicate IsBound(e: Event, r: nat)
  {
    e.run == Some(r) && (e.kind == Started || e.kind == Ended)
  }

  /** Every logged Event that names a Run stands between that Run's run_started and
      its run_ended, of which there is one each. */
  lemma EventsInsideSpan(log: seq<Event>, i: nat, r: nat)
    requires Reads(EMPTY, log).Some? && i < |log| && log[i].run == Some(r)
    ensures exists s :: 0 <= s <= i && log[s] == Event(Started, Some(r))
    ensures forall e :: 0 <= e < |log| && log[e] == Event(Ended, Some(r)) ==> i <= e
    ensures forall s, t :: 0 <= s < t < |log| && IsBound(log[s], r) ==> log[s] != log[t]
  {
    ReadsPrefix(EMPTY, log, i + 1);
    ReadsPrefix(EMPTY, log, i);
    assert log[..i + 1][..i] == log[..i];
    ParseMeans(log[..i]);
    if log[i].kind != Started {
      assert Event(Started, Some(r)) in log[..i];
    }
    forall e | 0 <= e < i ensures log[e] != Event(Ended, Some(r))
    {
      assert log[e] == log[..i][e];
    }
    forall s, t | 0 <= s < t < |log| && IsBound(log[s], r) ensures log[s] != log[t]
    {
      OnceOnly(log, s, t, r);
    }
  }

  lemma OnceOnly(log: seq<Event>, s: nat, t: nat, r: nat)
    requires Reads(EMPTY, log).Some? && s < t < |log|
    requires IsBound(log[s], r)
    ensures log[s] != log[t]
  {
    ReadsPrefix(EMPTY, log, t + 1);
    ReadsPrefix(EMPTY, log, t);
    assert log[..t + 1][..t] == log[..t];
    ParseMeans(log[..t]);
    assert log[s] == log[..t][s];
    assert log[s] in log[..t];
  }
}
