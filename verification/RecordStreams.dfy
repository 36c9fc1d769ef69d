/** The client streams of one Instance, which are each bound to the epoch of the
    Record they opened. A stream is registered before it reads the Record, is
    marked with the epochs seen meanwhile, and starts in one locked step that
    also tells which other streams are of an older Record. */
module RecordStreams {
  import opened Seqs

  /** A client stream. seen holds the epochs this Instance saw while the stream
      was opening, None for a delete. */
  datatype Stream = Stream(session: nat, epoch: Option<nat>, started: bool, startedAt: nat, seen: seq<Option<nat>>)

  datatype Streams = Streams(open: map<nat, Stream>, starts: nat, over: bool)

  datatype StartResult = Recheck | Started(older: set<nat>, over: bool)

  // ----- what each locked step does -----

  /** s as a mark of another stream or of an opener leaves it. */
  function MarkedWith(s: Stream, session: nat, epoch: Option<nat>): (r: Stream)
  {
    if s.session == session && !s.started then s.(seen := s.seen + [epoch]) else s
  }

  function AllMarked(open: map<nat, Stream>, session: nat, epoch: Option<nat>): (r: map<nat, Stream>)
    ensures r.Keys == open.Keys
  {
    map id | id in open :: MarkedWith(open[id], session, epoch)
  }

  /** The started streams of a Session with another epoch. */
  function Others(open: map<nat, Stream>, session: nat, epoch: Option<nat>): (ids: set<nat>)
  {
    set id | id in open && open[id].session == session && open[id].started && open[id].epoch != epoch
  }

  predicate MustRecheck(s: Stream)
  {
    exists i :: 0 <= i < |s.seen| && s.seen[i] != s.epoch
  }

  function Start(st: Streams, id: nat): (r: (StartResult, Streams))
    requires id in st.open
  {
    var s := st.open[id].(seen := []);
    if MustRecheck(st.open[id]) then (Recheck, st.(open := st.open[id := s]))
    else
      var rest := st.open - {id};
      var s' := s.(started := true, startedAt := st.starts + 1);
      (Started(Others(rest, s.session, s.epoch), st.over),
       st.(open := AllMarked(rest, s.session, s.epoch)[id := s'], starts := st.starts + 1))
  }

  /** The streams an opener with mark finds of another Record than its own, by
      whether they started up to mark. */
  function Stale(open: map<nat, Stream>, session: nat, epoch: Option<nat>, mark: Option<nat>): (ids: set<nat>)
  {
    set id | id in Others(open, session, epoch) && (mark.None? || open[id].startedAt <= mark.value)
  }

  function Unsure(open: map<nat, Stream>, session: nat, epoch: Option<nat>, mark: Option<nat>): (ids: set<nat>)
  {
    Others(open, session, epoch) - Stale(open, session, epoch, mark)
  }

  // ----- the set of streams, changed in place -----

  class StreamSet {
    var open: map<nat, Stream>
    var starts: nat
    var over: bool

    function State(): (s: Streams)
      reads this
    {
      Streams(open, starts, over)
    }

    constructor ()
      ensures State() == Streams(map[], 0, false)
    {
      open, starts, over := map[], 0, false;
    }

    method AddStream(id: nat, session: nat)
      requires id !in open
      modifies this`open
      ensures open == old(open)[id := Stream(session, None, false, 0, [])]
    {
      open := open[id := Stream(session, None, false, 0, [])];
    }

    method DropStream(id: nat)
      modifies this`open
      ensures open == old(open) - {id}
    {
      open := open - {id};
    }

    method StreamMark() returns (mark: nat)
      ensures mark == starts
    {
      mark := starts;
    }

    static method SawAnother(stream: Stream) returns (recheck: bool)
      ensures recheck <==> MustRecheck(stream)
    {
      recheck := false;
      for i := 0 to |stream.seen|
        invariant recheck <==> exists k :: 0 <= k < i && stream.seen[k] != stream.epoch
      {
        if stream.seen[i] != stream.epoch { recheck := true; }
      }
    }

    method StartStream(id: nat) returns (result: StartResult)
      requires id in open
      modifies this
      ensures (result, State()) == Start(old(State()), id)
      ensures result.Recheck? <==>
        exists i :: 0 <= i < |old(open)[id].seen| && old(open)[id].seen[i] != old(open)[id].epoch
      ensures result.Started? ==> result.over == over
      ensures result.Started? ==> forall k :: k in result.older <==>
        k != id && k in old(open) && old(open)[k].started
        && old(open)[k].session == old(open)[id].session && old(open)[k].epoch != old(open)[id].epoch
      ensures result.Recheck? ==> open == old(open)[id := old(open)[id].(seen := [])] && starts == old(starts)
      ensures result.Started? ==> starts == old(starts) + 1 && open.Keys == old(open).Keys
      ensures result.Started? ==> open[id] == old(open)[id].(seen := [], started := true, startedAt := starts)
      ensures result.Started? ==> forall k :: k in open && k != id ==>
        var was := old(open)[k];
        open[k] == if was.session == old(open)[id].session && !was.started
                   then was.(seen := was.seen + [old(open)[id].epoch]) else was
    {
      ghost var was := State();
      var stream := open[id];
      var recheck := SawAnother(stream);
      stream := stream.(seen := []);
      if recheck {
        open := open[id := stream];
        return Recheck;
      }
      starts := starts + 1;
      stream := stream.(started := true, startedAt := starts);
      open := open[id := stream];
      assert open - {id} == was.open - {id};
      var older := CompareOthers(id);
      return Started(older, over);
    }

    /** Marks the other streams of the Session that are opening, and collects
        the started ones of another Record. */
    method CompareOthers(id: nat) returns (older: set<nat>)
      requires id in open
      modifies this`open
      ensures older == Others(old(open) - {id}, old(open)[id].session, old(open)[id].epoch)
      ensures open == AllMarked(old(open) - {id}, old(open)[id].session, old(open)[id].epoch)[id := old(open)[id]]
    {
      var stream := open[id];
      ghost var rest := open - {id};
      ghost var found := Others(rest, stream.session, stream.epoch);
      older := {};
      var todo := open.Keys - {id};
      while todo != {}
        invariant todo <= rest.Keys && open.Keys == old(open).Keys && open[id] == stream
        invariant forall k :: k in rest ==>
          open[k] == if k in todo then rest[k] else MarkedWith(rest[k], stream.session, stream.epoch)
        invariant forall k :: k in older <==> k in found && k !in todo
        decreases |todo|
      {
        var k :| k in todo;
        todo := todo - {k};
        var other := open[k];
        if other.session == stream.session {
          if !other.started {
            open := open[k := other.(seen := other.seen + [stream.epoch])];
          } else if other.epoch != stream.epoch {
            older := older + {k};
          }
        }
      }
      assert older == found;
      assert open == AllMarked(rest, stream.session, stream.epoch)[id := stream];
    }

    /** mark is None for a delete, which every started stream came before. */
    method MarkStreams(session: nat, epoch: Option<nat>, mark: Option<nat>) returns (stale: set<nat>, unsure: set<nat>)
      modifies this`open
      ensures open == AllMarked(old(open), session, epoch)
      ensures stale == Stale(old(open), session, epoch, mark)
      ensures unsure == Unsure(old(open), session, epoch, mark)
      ensures forall k :: k in stale || k in unsure <==>
        k in old(open) && old(open)[k].started && old(open)[k].session == session && old(open)[k].epoch != epoch
      ensures forall k :: k in stale ==> mark.None? || old(open)[k].startedAt <= mark.value
      ensures forall k :: k in unsure ==> mark.Some? && old(open)[k].startedAt > mark.value
      ensures open.Keys == old(open).Keys
      ensures forall k :: k in open ==>
        var was := old(open)[k];
        open[k] == if was.session == session && !was.started then was.(seen := was.seen + [epoch]) else was
    {
      stale, unsure := {}, {};
      var todo := open.Keys;
      ghost var was := open;
      ghost var staleAll, unsureAll := Stale(open, session, epoch, mark), Unsure(open, session, epoch, mark);
      while todo != {}
        invariant todo <= was.Keys && open.Keys == was.Keys
        invariant forall k :: k in was ==> open[k] == if k in todo then was[k] else MarkedWith(was[k], session, epoch)
        invariant forall k :: k in stale <==> k in staleAll && k !in todo
        invariant forall k :: k in unsure <==> k in unsureAll && k !in todo
        decreases |todo|
      {
        var k :| k in todo;
        todo := todo - {k};
        var stream := open[k];
        if stream.session == session {
          if !stream.started {
            open := open[k := stream.(seen := stream.seen + [epoch])];
          } else if stream.epoch == epoch {
          } else if mark.None? || stream.startedAt <= mark.value {
            stale := stale + {k};
          } else {
            unsure := unsure + {k};
          }
        }
      }
      assert stale == staleAll && unsure == unsureAll;
      assert open == AllMarked(was, session, epoch);
    }
  }
}
