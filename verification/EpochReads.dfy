/** A Session stream bound to epoch e, over any history of deletes and creates. It
    takes Events from two places: reads of whatever Record the store holds under
    the ID, checked against the epoch before any Event is queued, and the Feed it
    acquired under its ID and epoch, where any Writer on this Instance may publish.
    It never delivers an Event of another Record. */
module EpochReads {
  import opened Seqs
  import opened RecordStore

  /** The Feed of one Record: its Session's ID and its epoch. */
  datatype Key = Key(session: nat, epoch: nat)

  datatype Entry = Entry(feed: nat, refs: nat)

  /** The Feeds in use, each numbered as it was made. */
  datatype Feeds = Feeds(byKey: map<Key, Entry>, made: nat)

  // ----- the Feeds in use, changed in place -----

  function Acquired(f: Feeds, key: Key): (f': Feeds)
  {
    if key in f.byKey then f.(byKey := f.byKey[key := f.byKey[key].(refs := f.byKey[key].refs + 1)])
    else Feeds(f.byKey[key := Entry(f.made, 1)], f.made + 1)
  }

  function Released(f: Feeds, key: Key): (f': Feeds)
  {
    if key !in f.byKey then f
    else if f.byKey[key].refs > 1 then f.(byKey := f.byKey[key := f.byKey[key].(refs := f.byKey[key].refs - 1)])
    else f.(byKey := f.byKey - {key})
  }

  class FeedSet {
    var byKey: map<Key, Entry>
    var made: nat
    var closed: set<nat>

    function State(): (f: Feeds)
      reads this
    {
      Feeds(byKey, made)
    }

    constructor ()
      ensures State() == Feeds(map[], 0) && closed == {}
    {
      byKey, made, closed := map[], 0, {};
    }

    method AcquireFeed(key: Key) returns (feed: nat)
      modifies this`byKey, this`made
      ensures State() == Acquired(old(State()), key) && key in byKey && feed == byKey[key].feed
      ensures key in old(byKey) ==> byKey[key].feed == old(byKey)[key].feed && made == old(made)
      ensures key !in old(byKey) ==> byKey[key].feed == old(made) && made == old(made) + 1
      ensures byKey[key].refs == if key in old(byKey) then old(byKey)[key].refs + 1 else 1
      ensures byKey - {key} == old(byKey) - {key}
    {
      if key !in byKey {
        byKey, made := byKey[key := Entry(made, 0)], made + 1;
      }
      var entry := byKey[key];
      byKey := byKey[key := entry.(refs := entry.refs + 1)];
      return entry.feed;
    }

    /** The last user closes the Feed. */
    method ReleaseFeed(key: Key)
      requires key in byKey ==> byKey[key].refs > 0
      modifies this`byKey, this`closed
      ensures State() == Released(old(State()), key)
      ensures key in byKey <==> key in old(byKey) && old(byKey)[key].refs > 1
      ensures key in byKey ==> byKey[key] == old(byKey)[key].(refs := old(byKey)[key].refs - 1)
      ensures byKey - {key} == old(byKey) - {key}
      ensures closed == old(closed) + if key in old(byKey) && key !in byKey then {old(byKey)[key].feed} else {}
    {
      if key !in byKey { return; }
      var entry := byKey[key].(refs := byKey[key].refs - 1);
      if entry.refs > 0 {
        byKey := byKey[key := entry];
        return;
      }
      byKey := byKey - {key};
      closed := closed + {entry.feed};
    }
  }

  // ----- the transition system -----

  /** An Event as it reached the subscriber: the Record it was written in, and its
      number there. */
  datatype Sourced = Sourced(record: Key, number: nat)

  datatype World = World(
    store: Store,
    feeds: Feeds,
    writers: map<nat, Key>,           // the Record each Writer opened
    mine: Key,                        // the stream's Record
    feed: nat,                        // the Feed the stream acquired
    holding: bool,
    read: Option<seq<Sourced>>,       // a read of the store that is not checked yet
    queued: seq<Sourced>,             // queued for delivery, from reads and from the Feed
    failed: bool)                     // the stream has ended

  datatype Step =
    | ChangeStore(change: Change)
    | OpenWriter(id: nat, session: nat)
    | AcquireFeed(key: Key)
    | ReleaseFeed(key: Key)
    | Publish(id: nat, number: nat)   // a Writer's publisher looks its Record's Feed up
    | Read(numbers: seq<nat>)         // the store answers with Events of its current Record
    | Check                           // SubscribeVerify: load the epoch again
    | LetGo                           // the stream that ended releases its Feed

  /** The users of a Feed other than the stream. */
  function OtherUsers(w: World, key: Key): (n: int)
    requires key in w.feeds.byKey
  {
    w.feeds.byKey[key].refs - if w.holding && key == w.mine then 1 else 0
  }

  predicate Enabled(w: World, step: Step)
  {
    match step
    case OpenWriter(id, session) => id !in w.writers && session in w.store.records
    case ReleaseFeed(key) => key in w.feeds.byKey && OtherUsers(w, key) > 0
    case Publish(id, _) => id in w.writers
    case Read(_) => w.read.None? && !w.failed
    case Check => w.read.Some?
    case LetGo => w.failed && w.holding
    case _ => true
  }

  function Tagged(record: Key, numbers: seq<nat>): (r: seq<Sourced>)
    ensures |r| == |numbers| && forall i :: 0 <= i < |r| ==> r[i] == Sourced(record, numbers[i])
  {
    seq(|numbers|, i requires 0 <= i < |numbers| => Sourced(record, numbers[i]))
  }

  /** Events published on a Feed reach its subscribers, whoever looked it up. */
  predicate Reaches(w: World, record: Key)
  {
    record in w.feeds.byKey && w.feeds.byKey[record].feed == w.feed && !w.failed
  }

  /** A read that returns nothing costs no check; one of a deleted Record fails. */
  function Do(w: World, step: Step): (w': World)
    requires Enabled(w, step)
  {
    match step
    case ChangeStore(change) => w.(store := Changed(w.store, change))
    case OpenWriter(id, session) => w.(writers := w.writers[id := Key(session, w.store.records[session])])
    case AcquireFeed(key) => w.(feeds := Acquired(w.feeds, key))
    case ReleaseFeed(key) => w.(feeds := Released(w.feeds, key))
    case Publish(id, number) =>
      if Reaches(w, w.writers[id]) then w.(queued := w.queued + [Sourced(w.writers[id], number)]) else w
    case Read(numbers) =>
      (match Epoch(w.store, w.mine.session)
       case None => w.(failed := true)
       case Some(now) =>
         if numbers == [] then w else w.(read := Some(Tagged(Key(w.mine.session, now), numbers))))
    case Check =>
      if Epoch(w.store, w.mine.session) == Some(w.mine.epoch)
      then w.(queued := w.queued + w.read.value, read := None)
      else w.(read := None, failed := true)
    case LetGo => w.(feeds := Released(w.feeds, w.mine), holding := false)
  }

  ghost predicate Runs(w: World, steps: seq<Step>)
    decreases |steps|
  {
    steps == [] || (Enabled(w, steps[0]) && Runs(Do(w, steps[0]), steps[1..]))
  }

  ghost function After(w: World, steps: seq<Step>): (w': World)
    requires Runs(w, steps)
    decreases |steps|
  {
    if steps == [] then w else After(Do(w, steps[0]), steps[1..])
  }

  // ----- the invariant -----

  /** Each Feed has users, and is under one key. */
  ghost predicate FeedsSound(f: Feeds)
  {
    && (forall key :: key in f.byKey ==> f.byKey[key].feed < f.made && f.byKey[key].refs > 0)
    && (forall a, b :: a in f.byKey && b in f.byKey && f.byKey[a].feed == f.byKey[b].feed ==> a == b)
  }

  /** Right after the stream acquired the Feed of the epoch it had read, which may by
      then have been replaced. */
  ghost predicate Opened(w: World)
  {
    && Sound(w.store) && FeedsSound(w.feeds)
    && (Epoch(w.store, w.mine.session) == Some(w.mine.epoch) || Replaced(w.store, w.mine.session, w.mine.epoch))
    && w.holding && w.mine in w.feeds.byKey && w.feed == w.feeds.byKey[w.mine].feed
    && w.read.None? && w.queued == [] && !w.failed
  }

  ghost predicate Inv(w: World)
  {
    && Sound(w.store) && FeedsSound(w.feeds)
    && (w.holding ==> w.mine in w.feeds.byKey && w.feeds.byKey[w.mine].feed == w.feed)
    && (!w.holding ==> w.failed)
    && (Epoch(w.store, w.mine.session) == Some(w.mine.epoch) || Replaced(w.store, w.mine.session, w.mine.epoch))
    && (forall x :: x in w.queued ==> x.record == w.mine)
    && (w.read.Some? && Epoch(w.store, w.mine.session) == Some(w.mine.epoch) ==>
          forall x :: x in w.read.value ==> x.record == w.mine)
  }

  lemma StepFeeds(w: World, step: Step)
    requires Inv(w) && Enabled(w, step)
    ensures FeedsSound(Do(w, step).feeds)
    ensures var w' := Do(w, step); w'.holding ==> w.mine in w'.feeds.byKey && w'.feeds.byKey[w.mine].feed == w.feed
  {
    hide FeedsSound, Replaced, RecordStore.Sound;
    match step
    case AcquireFeed(key) => AcquiredSound(w.feeds, key);
    case ReleaseFeed(key) => ReleasedSound(w.feeds, key);
    case LetGo => ReleasedSound(w.feeds, w.mine);
    case _ =>
  }

  lemma AcquiredSound(f: Feeds, key: Key)
    requires FeedsSound(f)
    ensures FeedsSound(Acquired(f, key))
  {
  }

  lemma ReleasedSound(f: Feeds, key: Key)
    requires FeedsSound(f)
    ensures FeedsSound(Released(f, key))
  {
  }

  lemma StepKeeps(w: World, step: Step)
    requires Inv(w) && Enabled(w, step)
    ensures Inv(Do(w, step))
  {
    if step.ChangeStore? && Replaced(w.store, w.mine.session, w.mine.epoch) {
      ReplacedForGood(w.store, [step.change], w.mine.session, w.mine.epoch);
    }
    assert step.Publish? && Reaches(w, w.writers[step.id]) ==> w.writers[step.id] == w.mine;
    StepFeeds(w, step);
    hide FeedsSound, Acquired, Released;
  }

  // ----- the theorem -----

  lemma {:induction false} NeverAnotherRecord(w: World, steps: seq<Step>)
    requires Inv(w) && Runs(w, steps)
    ensures Inv(After(w, steps))
    ensures forall x :: x in After(w, steps).queued ==> x.record == w.mine
    decreases |steps|
  {
    if steps != [] {
      StepKeeps(w, steps[0]);
      NeverAnotherRecord(Do(w, steps[0]), steps[1..]);
    }
  }

  /** In every run, every Event queued for delivery is of the stream's own Record,
      whether it came from a read of the store or from the Feed: the epoch a read is
      checked against never comes back, and the Feed the stream acquired stays the one
      under its key, and under no other, as long as the stream holds it. */
  lemma OpenedStreamsNeverMix(w: World, steps: seq<Step>)
    requires Opened(w) && Runs(w, steps)
    ensures forall x :: x in After(w, steps).queued ==> x.record == w.mine
  {
    NeverAnotherRecord(w, steps);
  }

  /** And nothing is kept from it: as long as it has not ended, each Event a Writer of
      its Record publishes is queued, whenever that Writer opened; a read is queued
      whole when the check finds the Record still there; and it ends exactly when a read
      or a check does not. */
  lemma NothingIsKeptFromIt(w: World, steps: seq<Step>, step: Step)
    requires Opened(w) && Runs(w, steps) && Enabled(After(w, steps), step)
    ensures var now, after := After(w, steps), Do(After(w, steps), step);
      var there := w.mine.session in now.store.records && now.store.records[w.mine.session] == w.mine.epoch;
      && (step.Publish? && now.writers[step.id] == w.mine && !now.failed ==>
            after.queued == now.queued + [Sourced(w.mine, step.number)])
      && (step.Check? && there ==> after.queued == now.queued + now.read.value && after.failed == now.failed)
      && (step.Read? && there && step.numbers != [] ==> after.read == Some(Tagged(w.mine, step.numbers)))
      && (!now.failed ==>
            (after.failed <==> (step.Check? && !there) || (step.Read? && w.mine.session !in now.store.records)))
  {
    NeverAnotherRecord(w, steps);
    SameStream(w, steps);
    hide Runs, After, FeedsSound, RecordStore.Sound;
  }

  lemma {:induction false} SameStream(w: World, steps: seq<Step>)
    requires Runs(w, steps)
    ensures After(w, steps).mine == w.mine && After(w, steps).feed == w.feed
    decreases |steps|
  {
    if steps != [] { SameStream(Do(w, steps[0]), steps[1..]); }
  }
}
