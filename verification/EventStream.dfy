/** One subscriber of a Feed: the queue that publishers fill without waiting,
    and the state that sends it to the Record when it overflows. The functions
    say what each locked step does to the state; the class is the subscriber
    itself, changed in place, with each method proved against its function. */
module EventStream {
  import opened Seqs

  /** A stored Event has its number in the Record; a delta follows one and is
      never stored; an Instance Event is neither. */
  datatype Event =
    | Stored(number: nat, body: nat)
    | Delta(body: nat)
    | Instance(body: nat)

  datatype Sub = Sub(
    max: nat,         // how many Events the queue holds before it overflows
    mixed: bool,      // an Instance's Feed, which mixes Sessions
    queue: seq<Event>,
    cursor: nat,      // number of the last stored Event queued or delivered
    cursorSet: bool,  // false for a live subscriber whose stream has not started
    behind: bool,     // read the Record after resume
    resume: nat,
    skipped: nat,
    ending: bool)

  /** What the forwarding goroutine gets from the queue. */
  datatype Taken = Skips(count: nat) | Queued(event: Event) | Nothing

  // ----- what each locked step does -----

  /** The index of the oldest delta in the queue, or its length. */
  function OldestDelta(queue: seq<Event>): (i: nat)
    ensures i <= |queue|
    ensures i < |queue| ==> queue[i].Delta?
    ensures forall j :: 0 <= j < i ==> !queue[j].Delta?
  {
    if queue == [] then 0
    else if queue[0].Delta? then 0
    else 1 + OldestDelta(queue[1..])
  }

  predicate IsOldestDelta(queue: seq<Event>, i: int)
  {
    0 <= i < |queue| && queue[i].Delta? && forall j :: 0 <= j < i ==> !queue[j].Delta?
  }

  function Without(queue: seq<Event>, i: nat): (r: seq<Event>)
    requires i < |queue|
  {
    queue[..i] + queue[i + 1..]
  }

  function FallBehind(s: Sub): (r: Sub)
  {
    s.(behind := true, resume := s.cursor)
  }

  function Push(s: Sub, e: Event): (r: Sub)
  {
    var s' := s.(queue := s.queue + [e]);
    if e.Stored? && !s.mixed then s'.(cursor := e.number, cursorSet := true) else s'
  }

  /** The end of offer, for an Event that passed the filter and is next. */
  function Queue(s: Sub, e: Event): (r: Sub)
  {
    if |s.queue| < s.max then Push(s, e)
    else
      var i := OldestDelta(s.queue);
      if i < |s.queue| then
        Push(s.(queue := Without(s.queue, i), skipped := if s.mixed then s.skipped + 1 else s.skipped), e)
      else if s.mixed then s.(skipped := s.skipped + 1)
      else if e.Delta? then s
      else FallBehind(s)
  }

  function Offered(s: Sub, e: Event, keep: bool): (r: Sub)
  {
    if s.ending || s.behind then s
    else if e.Stored? && !s.mixed && s.cursorSet && e.number <= s.cursor then s
    else if e.Stored? && !s.mixed && s.cursorSet && e.number > s.cursor + 1 then FallBehind(s)
    else if keep then Queue(s, e)
    else if e.Stored? && !s.mixed then s.(cursor := e.number, cursorSet := true)
    else s
  }

  function Popped(s: Sub): (r: (Taken, Sub))
  {
    if s.skipped > 0 then (Skips(s.skipped), s.(skipped := 0))
    else if s.queue != [] then (Queued(s.queue[0]), s.(queue := s.queue[1..]))
    else (Nothing, s)
  }

  /** A catch-up read that returned Events up to number last. */
  function CaughtUpTo(s: Sub, last: nat): (r: Sub)
  {
    s.(resume := last, cursor := if s.cursor < last then last else s.cursor)
  }

  /** A catch-up read that returned nothing: rejoin the live Events once the
      Feed has published nothing newer than what was read. */
  function Rejoined(s: Sub, published: nat): (r: Sub)
  {
    if s.resume >= published then s.(behind := false, cursorSet := true) else s
  }

  /** A tail read, one Event at a time: what a live publish covered meanwhile is
      skipped by its number, and a gap falls behind. */
  function Looked(s: Sub, batch: seq<Event>, keep: Event -> bool): (r: Sub)
    requires forall e :: e in batch ==> e.Stored?
    decreases |batch|
  {
    if batch == [] || s.behind then s
    else
      var e := batch[0];
      assert forall x :: x in batch[1..] ==> x in batch;
      if e.number <= s.cursor then Looked(s, batch[1..], keep)
      else if e.number != s.cursor + 1 then FallBehind(s)
      else
        Looked(s.(cursor := e.number, queue := if keep(e) then s.queue + [e] else s.queue), batch[1..], keep)
  }

  /** What a store returns: stored Events with no number left out. */
  predicate Consecutive(batch: seq<Event>)
    requires forall e :: e in batch ==> e.Stored?
  {
    forall i :: 0 <= i < |batch| ==> batch[i].number == batch[0].number + i
  }

  /** Those of them past a number. */
  function PastNumber(batch: seq<Event>, number: nat): (r: seq<Event>)
    requires batch != [] && batch[0].Stored?
  {
    if number < batch[0].number then batch
    else if number - batch[0].number >= |batch| then []
    else batch[number - batch[0].number + 1..]
  }

  lemma {:induction false} FilterFirst(keep: Event -> bool, batch: seq<Event>)
    requires batch != []
    ensures Filter(keep, batch) == (if keep(batch[0]) then [batch[0]] else []) + Filter(keep, batch[1..])
  {
    assert batch == [batch[0]] + batch[1..] && [batch[0]][..0] == [];
    FilterAppend(keep, [batch[0]], batch[1..]);
  }

  function LookedAt(s: Sub, e: Event, keep: bool): (r: Sub)
    requires e.Stored?
  {
    if e.number <= s.cursor then s
    else s.(cursor := e.number, queue := if keep then s.queue + [e] else s.queue)
  }

  lemma LookFirst(s: Sub, batch: seq<Event>, keep: Event -> bool)
    requires batch != [] && forall e :: e in batch ==> e.Stored?
    requires !s.behind && batch[0].number <= s.cursor + 1
    ensures forall e :: e in batch[1..] ==> e.Stored?
    ensures Looked(s, batch, keep) == Looked(LookedAt(s, batch[0], keep(batch[0])), batch[1..], keep)
    ensures batch[1..] == [] ==> Looked(s, batch, keep) == LookedAt(s, batch[0], keep(batch[0]))
  {
    assert forall x :: x in batch[1..] ==> x in batch;
  }

  lemma AfterFirst(batch: seq<Event>, cursor: nat, keep: Event -> bool)
    requires batch != [] && (forall e :: e in batch ==> e.Stored?) && batch[0].number <= cursor + 1
    requires |batch| > 1 ==> batch[1].Stored? && batch[1].number == batch[0].number + 1
    ensures Filter(keep, PastNumber(batch, cursor)) ==
      (if batch[0].number == cursor + 1 && keep(batch[0]) then [batch[0]] else [])
      + if |batch| == 1 then []
        else Filter(keep, PastNumber(batch[1..], if batch[0].number == cursor + 1 then cursor + 1 else cursor))
  {
    if batch[0].number == cursor + 1 {
      FilterFirst(keep, batch);
    } else if |batch| > 1 {
      assert PastNumber(batch, cursor) == PastNumber(batch[1..], cursor);
    }
  }

  /** A tail read that starts no later than the next Event queues what of it passes
      the filter and is new, in order. */
  lemma {:induction false} LooksOn(s: Sub, batch: seq<Event>, keep: Event -> bool)
    requires batch != [] && forall e :: e in batch ==> e.Stored?
    requires Consecutive(batch) && !s.behind && batch[0].number <= s.cursor + 1
    ensures Looked(s, batch, keep) == s.(
      cursor := if s.cursor < Last(batch).number then Last(batch).number else s.cursor,
      queue := s.queue + Filter(keep, PastNumber(batch, s.cursor)))
    decreases |batch|
  {
    hide Filter, Looked, PastNumber;
    LookFirst(s, batch, keep);
    AfterFirst(batch, s.cursor, keep);
    var rest := batch[1..];
    if rest != [] {
      assert forall i :: 0 <= i < |rest| ==> rest[i] == batch[i + 1];
      LooksOn(LookedAt(s, batch[0], keep(batch[0])), rest, keep);
      assert Last(rest) == Last(batch);
    }
  }

  // ----- the subscriber -----

  class Subscription {
    const max: nat
    const mixed: bool
    var queue: seq<Event>
    var cursor: nat
    var cursorSet: bool
    var behind: bool
    var resume: nat
    var skipped: nat
    var ending: bool

    function State(): (s: Sub)
      reads this
    {
      Sub(max, mixed, queue, cursor, cursorSet, behind, resume, skipped, ending)
    }

    /** Feed.Subscribe: with a number to start after, the stream begins behind,
        and reads the Record first. */
    constructor (max: nat, mixed: bool, after: Option<nat>)
      ensures State() == if after.Some? && !mixed
        then Sub(max, mixed, [], after.value, true, true, after.value, 0, false)
        else Sub(max, mixed, [], 0, false, false, 0, 0, false)
    {
      this.max, this.mixed := max, mixed;
      queue, skipped, ending := [], 0, false;
      behind, cursorSet, cursor, resume := false, false, 0, 0;
      if after.Some? && !mixed {
        behind, cursorSet, cursor, resume := true, true, after.value, after.value;
      }
    }

    /** Whether the Event is one this stream takes now: it is neither ending nor
        behind, the Event passes the filter, and a stored one is the next. */
    predicate Takes(e: Event, keep: bool)
      reads this
    {
      !ending && !behind && keep && (e.Stored? && !mixed && cursorSet ==> e.number == cursor + 1)
    }

    /** A stored Event was missed in between. */
    predicate Gap(e: Event)
      reads this
    {
      !ending && !behind && e.Stored? && !mixed && cursorSet && e.number > cursor + 1
    }

    /** A stored Event this stream gets to now, whether it passes the filter or not. */
    predicate Covers(e: Event)
      reads this
    {
      !ending && !behind && e.Stored? && !mixed && (cursorSet ==> e.number == cursor + 1)
    }

    /** What is taken goes last in the queue. A full queue makes room by its oldest
        delta; without one, a delta is dropped, and for any other Event the stream
        falls behind, or counts it on an Instance's Feed. */
    method Offer(e: Event, keep: bool)
      modifies this
      ensures State() == Offered(old(State()), e, keep)
      ensures !old(Takes(e, keep)) ==> queue == old(queue) && skipped == old(skipped)
      ensures old(Takes(e, keep)) && old(|queue|) < max ==>
        queue == old(queue) + [e] && behind == old(behind) && skipped == old(skipped)
      ensures old(Takes(e, keep)) && old(|queue|) >= max && (exists i :: IsOldestDelta(old(queue), i)) ==>
        (exists i :: IsOldestDelta(old(queue), i) && queue == old(queue)[..i] + old(queue)[i + 1..] + [e])
        && behind == old(behind) && skipped == old(skipped) + if mixed then 1 else 0
      ensures old(Takes(e, keep)) && old(|queue|) >= max && (forall q :: q in old(queue) ==> !q.Delta?) ==>
        queue == old(queue) && behind == (old(behind) || (!mixed && !e.Delta?))
        && skipped == old(skipped) + if mixed then 1 else 0
      ensures behind && !old(behind) ==> resume == old(cursor)
      ensures !old(Takes(e, keep)) ==> behind == (old(behind) || old(Gap(e)))
      ensures cursor == if old(Covers(e)) && !behind then e.number else old(cursor)
    {
      if ending && !behind { return; }
      var stored := e.Stored? && !mixed;
      if behind { return; }
      if stored {
        if cursorSet {
          if e.number <= cursor { return; }
          if e.number > cursor + 1 {
            behind, resume := true, cursor;
            return;
          }
        }
        if !keep {
          cursor, cursorSet := e.number, true;
          return;
        }
      } else if !keep {
        return;
      }
      if |queue| >= max {
        var dropped := DropOldestDelta();
        if !dropped {
          if mixed {
            skipped := skipped + 1;
          } else if !e.Delta? {
            behind, resume := true, cursor;
          }
          return;
        }
        if mixed { skipped := skipped + 1; }
      }
      queue := queue + [e];
      if stored { cursor, cursorSet := e.number, true; }
    }

    /** Makes room in a full queue: only a delta may be skipped. */
    method DropOldestDelta() returns (dropped: bool)
      modifies this`queue
      ensures dropped <==> OldestDelta(old(queue)) < |old(queue)|
      ensures queue == if dropped then Without(old(queue), OldestDelta(old(queue))) else old(queue)
    {
      var i := 0;
      while i < |queue|
        invariant i <= |queue| && queue == old(queue)
        invariant OldestDelta(queue) == i + OldestDelta(queue[i..])
      {
        if queue[i].Delta? {
          queue := queue[..i] + queue[i + 1..];
          return true;
        }
        i := i + 1;
      }
      return false;
    }

    method PopQueued() returns (taken: Taken)
      modifies this
      ensures (taken, State()) == Popped(old(State()))
      ensures old(skipped) > 0 ==> taken == Skips(old(skipped)) && skipped == 0 && queue == old(queue)
      ensures old(skipped) == 0 && old(queue) != [] ==> taken.Queued? && [taken.event] + queue == old(queue)
    {
      if skipped > 0 {
        taken := Skips(skipped);
        skipped := 0;
      } else if |queue| > 0 {
        taken := Queued(queue[0]);
        queue := queue[1..];
      } else {
        taken := Nothing;
      }
    }

    /** The end of catchUp after a read that returned Events: the kept ones are
        the pending batch. */
    method CatchUp(batch: seq<Event>, keep: Event -> bool) returns (pending: seq<Event>)
      requires batch != [] && forall e :: e in batch ==> e.Stored?
      modifies this
      ensures State() == CaughtUpTo(old(State()), Last(batch).number)
      ensures pending == Filter(keep, batch)
      ensures resume == Last(batch).number && cursor == (if old(cursor) < resume then resume else old(cursor))
      ensures queue == old(queue) && behind == old(behind) && cursorSet == old(cursorSet)
    {
      resume := batch[|batch| - 1].number;
      if cursor < resume { cursor := resume; }
      pending := [];
      for i := 0 to |batch|
        invariant pending == Filter(keep, batch[..i])
      {
        assert batch[..i + 1][..i] == batch[..i];
        if keep(batch[i]) { pending := pending + [batch[i]]; }
      }
      assert batch[..|batch|] == batch;
    }

    method Rejoin(published: nat) returns (caughtUp: bool)
      modifies this
      ensures State() == Rejoined(old(State()), published)
      ensures caughtUp <==> !behind
      ensures !behind <==> !old(behind) || resume >= published
      ensures resume >= published ==> cursorSet
      ensures queue == old(queue) && cursor == old(cursor) && resume == old(resume)
    {
      if resume >= published { behind, cursorSet := false, true; }
      caughtUp := !behind;
    }

    method Look(batch: seq<Event>, keep: Event -> bool)
      requires forall e :: e in batch ==> e.Stored?
      modifies this
      ensures State() == Looked(old(State()), batch, keep)
      ensures !old(behind) && batch != [] && Consecutive(batch) && batch[0].number <= old(cursor) + 1 ==>
        !behind && cursor == (if old(cursor) < Last(batch).number then Last(batch).number else old(cursor))
        && queue == old(queue) + Filter(keep, PastNumber(batch, old(cursor)))
      ensures !old(behind) && batch != [] && Consecutive(batch) && batch[0].number > old(cursor) + 1 ==>
        behind && resume == cursor == old(cursor) && queue == old(queue)
    {
      if !behind && batch != [] && Consecutive(batch) && batch[0].number <= cursor + 1 {
        LooksOn(State(), batch, keep);
      }
      if behind { return; }
      var i := 0;
      while i < |batch|
        invariant i <= |batch| && !behind
        invariant Looked(old(State()), batch, keep) == Looked(State(), batch[i..], keep)
      {
        var e := batch[i];
        assert batch[i..][1..] == batch[i + 1..] && e in batch;
        i := i + 1;
        if e.number > cursor {
          if e.number != cursor + 1 {
            behind, resume := true, cursor;
            return;
          }
          cursor := e.number;
          if keep(e) { queue := queue + [e]; }
        }
      }
    }

    method End()
      modifies this
      ensures State() == old(State()).(ending := true)
    {
      ending := true;
    }
  }

  // ----- one step at a time -----

  /** A live subscriber whose stream has not started falls behind, and so reads
      the whole Record from its first Event, exactly when its queue is full of
      Events that are no deltas and one more arrives that is none either. */
  lemma LiveStart(s: Sub, e: Event, keep: bool)
    requires !s.mixed && !s.cursorSet && !s.behind
    ensures Offered(s, e, keep).behind <==>
      !s.ending && keep && !e.Delta? && |s.queue| >= s.max && forall q :: q in s.queue ==> !q.Delta?
    ensures Offered(s, e, keep).behind ==> Offered(s, e, keep).resume == s.cursor
  {
    if forall q :: q in s.queue ==> !q.Delta? {
      assert OldestDelta(s.queue) == |s.queue|;
    }
  }

  /** Such a subscriber: one Instance Event in a buffer of one, and then the
      stored Event 7. It reads the Record from Event 1 on, not from Event 7. */
  lemma LiveStartReadsTheRecord()
    ensures var s := Sub(1, false, [Instance(0)], 0, false, false, 0, 0, false);
      Offered(s, Stored(7, 0), true).behind && Offered(s, Stored(7, 0), true).resume == 0
  {
    var s := Sub(1, false, [Instance(0)], 0, false, false, 0, 0, false);
    LiveStart(s, Stored(7, 0), true);
  }

  // ----- an Instance's Feed counts what it skips -----

  datatype MixedStep = Offer(event: Event, keep: bool) | Pop

  /** A run of a mixed subscriber, with how many Events it was offered that pass
      the filter and how many it delivered or reported as skipped. */
  datatype MixedRun = MixedRun(sub: Sub, offered: nat, delivered: nat, reported: nat)

  function MixedNext(r: MixedRun, step: MixedStep): (r': MixedRun)
  {
    match step
    case Offer(e, keep) =>
      r.(sub := Offered(r.sub, e, keep), offered := if keep then r.offered + 1 else r.offered)
    case Pop =>
      var (taken, sub) := Popped(r.sub);
      match taken
      case Skips(n) => r.(sub := sub, reported := r.reported + n)
      case Queued(_) => r.(sub := sub, delivered := r.delivered + 1)
      case Nothing => r
  }

  function MixedRuns(r: MixedRun, steps: seq<MixedStep>): (r': MixedRun)
    decreases |steps|
  {
    if steps == [] then r else MixedRuns(MixedNext(r, steps[0]), steps[1..])
  }

  /** A subscriber of an Instance's Feed that falls behind is told exactly how
      many Events it missed: over any run each kept Event is delivered, waits in
      the queue, or is in a count of skipped ones. */
  lemma {:induction false} MixedCountsEverySkip(r: MixedRun, steps: seq<MixedStep>)
    requires r.sub.mixed && !r.sub.behind && !r.sub.ending
    requires r.offered == r.delivered + r.reported + |r.sub.queue| + r.sub.skipped
    ensures var r' := MixedRuns(r, steps);
      r'.offered == r'.delivered + r'.reported + |r'.sub.queue| + r'.sub.skipped
    decreases |steps|
  {
    if steps != [] {
      MixedCountsEverySkip(MixedNext(r, steps[0]), steps[1..]);
    }
  }
}
