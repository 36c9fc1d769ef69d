/** The stream of one model call, which sends the request again when the connection
    is cut. The reply a Session builds is always that of one attempt alone, and a
    caller with no Session never receives events of two. */
module ModelStream {
  import opened Seqs
  import opened Coalesce
  import opened Reply

  /** How a read that failed goes on: whether the caller's context has ended, the
      failure is an interruption that may be retried, and a new response opens. */
  datatype Cut = Cut(ended: bool, interrupted: bool, retryable: bool, opens: bool)

  /** What one read of the response comes to, decoded. */
  datatype Read =
    | Chunk(events: seq<Event>, complete: bool, failed: bool)
    | End(events: seq<Event>, complete: bool, failed: bool, cut: Cut)
    | Broken(cut: Cut)

  datatype Received = Got(event: Event) | EndOfStream | Failure | Pending

  /** An event handed to the caller, and the attempt it was decoded from. */
  datatype Delivery = Delivery(attempt: nat, event: Event)

  /** The events of one attempt, in order. */
  function Of(attempt: nat, log: seq<Delivery>): (events: seq<Event>)
  {
    if log == [] then [] else
    Of(attempt, log[..|log| - 1]) + if Last(log).attempt == attempt then [Last(log).event] else []
  }

  lemma OfPush(attempt: nat, log: seq<Delivery>, d: Delivery)
    ensures Of(attempt, log + [d]) == if d.attempt == attempt then Of(attempt, log) + [d.event] else Of(attempt, log)
  {
    assert (log + [d])[..|log|] == log;
  }

  lemma {:induction false} OfNew(attempt: nat, log: seq<Delivery>)
    requires forall d :: d in log ==> d.attempt < attempt
    ensures Of(attempt, log) == []
  {
    if log != [] {
      assert Last(log) in log;
      OfNew(attempt, log[..|log| - 1]);
    }
  }

  /** The events of one response, each with the number of the response it is of. */
  function From(response: nat, events: seq<Event>): (ds: seq<Delivery>)
    ensures |ds| == |events| && forall i :: 0 <= i < |ds| ==> ds[i] == Delivery(response, events[i])
  {
    seq(|events|, i requires 0 <= i < |events| => Delivery(response, events[i]))
  }

  function EventsIn(read: Read): (events: seq<Event>)
  {
    match read
    case Chunk(events, _, _) => events
    case End(events, _, _, _) => events
    case Broken(_) => []
  }

  /** What the reads of one response come to, in order. */
  function EventsOf(rs: seq<Read>): (events: seq<Event>)
  {
    if rs == [] then [] else EventsOf(rs[..|rs| - 1]) + EventsIn(Last(rs))
  }

  lemma EventsPush(rs: seq<Read>, read: Read)
    ensures EventsOf(rs + [read]) == EventsOf(rs) + EventsIn(read)
  {
    assert (rs + [read])[..|rs|] == rs;
  }

  /** now holds the reads since the last of them that ended a response, or all of them
      after those there were. */
  ghost predicate SinceCut(was: seq<Read>, rs: seq<Read>, now: seq<Read>)
  {
    now == was + rs || exists m :: 0 < m <= |rs| && !rs[m - 1].Chunk? && now == rs[m..]
  }

  lemma SinceCutPush(was: seq<Read>, rs: seq<Read>, now: seq<Read>, read: Read)
    requires SinceCut(was, rs, now)
    ensures SinceCut(was, rs + [read], now + [read])
    ensures !read.Chunk? ==> SinceCut(was, rs + [read], [])
  {
    assert was + rs + [read] == was + (rs + [read]);
    if m :| 0 < m <= |rs| && !rs[m - 1].Chunk? && now == rs[m..] {
      assert (rs + [read])[m..] == now + [read] && (rs + [read])[m - 1] == rs[m - 1];
    }
    assert (rs + [read])[|rs| + 1..] == [];
  }

  lemma SinceCutJoins(was: seq<Read>, a: seq<Read>, mid: seq<Read>, b: seq<Read>, now: seq<Read>)
    requires SinceCut(was, a, mid) && SinceCut(mid, b, now)
    ensures SinceCut(was, a + b, now)
  {
    if now == mid + b {
      assert was + a + b == was + (a + b);
      if m :| 0 < m <= |a| && !a[m - 1].Chunk? && mid == a[m..] {
        assert (a + b)[m..] == a[m..] + b && (a + b)[m - 1] == a[m - 1];
      }
    } else {
      var m :| 0 < m <= |b| && !b[m - 1].Chunk? && now == b[m..];
      assert (a + b)[|a| + m..] == b[m..] && (a + b)[|a| + m - 1] == b[m - 1];
    }
  }

  /** The events up to the first Done. */
  function UpToDone(events: seq<Event>): (r: seq<Event>)
    decreases |events|
  {
    if events == [] then [] else
    [events[0]] + if events[0] == Done then [] else UpToDone(events[1..])
  }

  lemma {:induction false} UpToDoneIs(said: seq<Event>, rest: seq<Event>)
    requires said != [] && Last(said) == Done && Done !in said[..|said| - 1]
    ensures UpToDone(said + rest) == said
    decreases |said|
  {
    assert (said + rest)[1..] == said[1..] + rest && said == [said[0]] + said[1..];
    if |said| > 1 {
      assert said[0] in said[..|said| - 1];
      assert said[1..][..|said[1..]| - 1] == said[..|said| - 1][1..];
      UpToDoneIs(said[1..], rest);
    }
  }

  class Stream {
    const max: nat              // how many restarts the client allows
    const session: Reader?      // who is told that the request is sent again
    var response: nat           // the response that is read, by number: one for each attempt
    var decoder: nat            // the response whose bytes the decoder holds
    var queue: seq<Event>
    var complete: bool
    var failed: bool
    var delivered: bool
    var restarts: nat
    ghost var origins: seq<Delivery>   // the queue, each event with what it was decoded from
    ghost var log: seq<Delivery>       // what was handed to the caller
    ghost var gaveUp: bool             // a cut was not mended
    ghost var taken: seq<Read>         // the reads of the response so far

    constructor (max: nat, session: Reader?)
      requires session != null ==> session.Valid() && session.heard == []
      ensures Valid() && Going() && log == [] && this.session == session && this.max == max && queue == []
      ensures taken == []
    {
      this.max, this.session := max, session;
      queue, complete, failed, delivered, restarts := [], false, false, false, 0;
      response, decoder, origins, log, gaveUp, taken := 0, 0, [], [], false, [];
    }

    /** What was delivered of the response that is read, and what waits, is everything
        its reads came to. Everything that waits was decoded from that response, nothing
        that was delivered is of a later one, and with no Session everything that was
        delivered is of that one. */
    ghost predicate Valid()
      reads this
    {
      && restarts <= max && (delivered <==> log != [])
      && decoder == response && origins == From(response, queue)
      && Of(response, log) + queue == EventsOf(taken)
      && (forall d :: d in log ==> d.attempt <= response)
      && (session == null ==> forall d :: d in log ==> d.attempt == response)
    }

    /** The Session's reply, if there is a Session, is that of the attempt in
        progress. A Session reads no further once a cut was not mended. */
    ghost predicate Going()
      reads this, session
    {
      session != null ==> session.Valid() && session.heard == Of(response, log) && !gaveUp
    }

    /** The next event. wire is what the connection yields from here; what of it was
        not read is left. */
    method Recv(wire: seq<Read>) returns (received: Received, unread: seq<Read>)
      requires Valid() && Going()
      modifies this, session
      ensures Valid()
      ensures log == if received.Got? then old(log) + [Delivery(response, received.event)] else old(log)
      ensures session != null && received.Got? ==>
        session.Valid() && !gaveUp && Of(response, log) == session.heard + [received.event]
      ensures session != null && !received.Got? ==>
        session.Valid() && (session.heard == [] || session.heard == Of(response, log))
      ensures session != null ==> session.complete == old(session.complete)
      ensures received.Got? ==> |unread| < |wire| || (unread == wire && |queue| < |old(queue)|)
      ensures |unread| <= |wire| && unread == wire[|wire| - |unread|..]
      ensures response == old(response) ==> taken == old(taken) + wire[..|wire| - |unread|]
      ensures SinceCut(old(taken), wire[..|wire| - |unread|], taken)
    {
      hide Of, Valid, SinceCut, EventsOf;
      unread := wire;
      ghost var n := 0;
      SinceCutNothing(taken);
      assert wire[..0] == [] && old(taken) + [] == old(taken);
      while |queue| == 0
        invariant Valid() && Going() && log == old(log)
        invariant session != null ==> session.complete == old(session.complete)
        invariant |unread| < |wire| || (unread == wire && queue == old(queue))
        invariant n <= |wire| && unread == wire[n..] && response >= old(response)
        invariant response == old(response) ==> taken == old(taken) + wire[..n]
        invariant SinceCut(old(taken), wire[..n], taken)
        decreases |unread|, |queue| == 0
      {
        if failed { return Failure, unread; }
        if complete { return EndOfStream, unread; }
        if |unread| == 0 { return Pending, unread; }
        SinceCutPush(old(taken), wire[..n], taken, unread[0]);
        assert wire[..n + 1] == wire[..n] + [unread[0]];
        var goesOn := TakeRead(unread[0]);
        unread, n := unread[1..], n + 1;
        if !goesOn { return Failure, unread; }
      }
      var event := Deliver();
      return Got(event), unread;
    }

    /** One read of the connection: what it came to is decoded, and a cut is mended or
        stands. */
    method TakeRead(read: Read) returns (goesOn: bool)
      requires Valid() && Going()
      modifies this, session
      ensures Valid() && (goesOn ==> Going()) && log == old(log)
      ensures session != null ==> session.complete == old(session.complete)
      ensures session != null && !goesOn ==>
        session.Valid() && (session.heard == [] || session.heard == Of(response, log))
      ensures response == old(response) ==> taken == old(taken) + [read]
      ensures response != old(response) ==> response > old(response) && taken == [] && !read.Chunk?
    {
      hide Of, Valid, EventsOf;
      goesOn := true;
      var cut := Option<Cut>.None;
      match read {
        case Chunk(events, done, bad) => Decode(events, done, bad, read);
        case End(events, done, bad, c) =>
          Decode(events, done, bad, read);
          if !complete && !failed { cut := Some(c); }
        case Broken(c) =>
          Decode([], false, false, read);
          cut := Some(c);
      }
      if cut.Some? { goesOn := Recover(cut.value); }
    }

    /** Hands the next decoded event to the caller. */
    method Deliver() returns (event: Event)
      requires Valid() && Going() && queue != []
      modifies this`queue, this`origins, this`delivered, this`log
      ensures Valid() && queue == old(queue)[1..] && event == old(queue)[0]
      ensures log == old(log) + [old(origins)[0]] && old(origins)[0] == Delivery(response, event)
      ensures session != null ==> Of(response, log) == session.heard + [event]
    {
      hide Of, EventsOf;
      event := queue[0];
      OfPush(response, log, origins[0]);
      assert Of(response, log) + [event] + queue[1..] == Of(response, log) + queue;
      log := log + [origins[0]];
      queue, origins := queue[1..], origins[1..];
      delivered := true;
    }

    /** Takes what the decoder made of one read: events of the response it read. */
    method Decode(events: seq<Event>, done: bool, bad: bool, ghost read: Read)
      requires Valid() && Going() && EventsIn(read) == events
      modifies this`queue, this`origins, this`complete, this`failed, this`taken
      ensures Valid() && Going() && taken == old(taken) + [read]
      ensures queue == old(queue) + events && complete == (old(complete) || done) && failed == (old(failed) || bad)
    {
      hide Of, EventsOf;
      EventsPush(taken, read);
      assert Of(response, log) + (queue + events) == Of(response, log) + queue + events;
      queue, origins, taken := queue + events, origins + From(decoder, events), taken + [read];
      complete := complete || done;
      failed := failed || bad;
    }

    /** Sends the request again, or says that the failure stands: it stands when the
        caller has left, the failure is no interruption or not retryable, the
        restarts are used up, or output was delivered that nobody will drop. */
    method Recover(cut: Cut) returns (ok: bool)
      requires Valid() && Going()
      modifies this, session
      ensures Valid() && (ok ==> Going()) && log == old(log)
      ensures session != null ==>
        session.Valid() && session.complete == old(session.complete)
        && (session.heard == [] || session.heard == Of(response, log))
      ensures ok <==> !cut.ended && cut.interrupted && cut.retryable && old(restarts) < max
                      && (session != null || !old(delivered)) && cut.opens
      ensures ok ==>
        queue == [] && !complete && !failed && restarts == old(restarts) + 1 && response == old(response) + 1
      ensures !ok ==> queue == old(queue) && complete == old(complete) && failed == old(failed)
      ensures !ok ==> response == old(response) && taken == old(taken)
      ensures ok ==> taken == []
    {
      gaveUp := true;
      if cut.ended || !cut.interrupted || !cut.retryable || restarts >= max { return false; }
      if session == null && delivered { return false; }
      if session != null { session.Retried(); }
      restarts := restarts + 1;
      if !cut.opens { return false; }
      Reopen();
      return true;
    }

    /** Continues on a new response, and discards everything that was decoded from the
        interrupted one. */
    method Reopen()
      requires Valid() && restarts <= max && (session == null ==> log == [])
      requires session != null ==> session.Valid() && session.heard == []
      modifies this`response, this`decoder, this`queue, this`origins, this`complete, this`failed, this`gaveUp
      modifies this`taken
      ensures Valid() && Going() && taken == [] && queue == [] && !complete && !failed && response == old(response) + 1
    {
      response := response + 1;
      decoder := response;
      queue, origins, taken := [], [], [];
      complete, failed, gaveUp := false, false, false;
      OfNew(response, log);
    }
  }

  lemma SinceCutNothing(was: seq<Read>)
    ensures SinceCut(was, [], was)
  {
    assert was + [] == was;
  }

  /** The events of a reply that was read to its end: what the reads since the last
      mended cut come to, up to the first Done. */
  function ReplyOf(taken: seq<Read>): (events: seq<Event>)
  {
    UpToDone(EventsOf(taken))
  }

  /** Reads a reply to its end, or to a failure. However often the connection is cut
      and the request sent again, the reply is the merge of what the reads since the
      last mended cut come to, up to Done, and of nothing else: its text, reasoning,
      artifacts and calls are those, in order. */
  method ReadReply(stream: Stream, session: Reader, wire: seq<Read>) returns (reply: Option<Said>)
    requires stream.session == session && stream.Valid() && stream.Going() && !session.complete
    modifies stream, session
    ensures stream.Valid() && session.Valid()
    ensures exists k :: 0 <= k <= |wire| && SinceCut(old(stream.taken), wire[..k], stream.taken)
    ensures reply.Some? ==> ReplyOf(stream.taken) == Of(stream.response, stream.log)
    ensures reply.Some? ==> var said := SayAll(ReplyOf(stream.taken));
      reply.value == Said(Blocks(said.parts), said.calls)
    ensures reply.Some? ==> var events := ReplyOf(stream.taken);
      && TextOf(Text, reply.value.parts) == Streamed(Text, events)
      && TextOf(Reasoning, reply.value.parts) == Streamed(Reasoning, events)
      && Signatures(reply.value.parts) == Artifacts(events) && reply.value.calls == CallsMade(events)
    ensures reply.None? ==> session.heard <= EventsOf(stream.taken)
  {
    hide SinceCut, EventsOf, UpToDone, Of, SayAll, Total, TextOf, Signatures, Streamed, Artifacts, CallsMade, Blocks;
    var unread := wire;
    SinceCutNothing(stream.taken);
    while !session.complete
      invariant stream.Valid() && stream.Going()
      invariant |unread| <= |wire| && unread == wire[|wire| - |unread|..]
      invariant SinceCut(old(stream.taken), wire[..|wire| - |unread|], stream.taken)
      invariant session.complete ==>
        session.heard != [] && Last(session.heard) == Done && Done !in session.heard[..|session.heard| - 1]
      decreases |unread|, |stream.queue|
    {
      ghost var before, had, at := unread, stream.taken, |wire| - |unread|;
      var received, left := stream.Recv(unread);
      unread := left;
      SinceCutJoins(old(stream.taken), wire[..at], had, before[..|before| - |unread|], stream.taken);
      assert wire[..at] + before[..|before| - |unread|] == wire[..|wire| - |unread|];
      if !received.Got? { return None; }
      var ok := session.Apply(received.event);
      if !ok { return None; }
    }
    var said := session.Finish();
    UpToDoneIs(session.heard, stream.queue);
    StoredReplyKeeps(Of(stream.response, stream.log));
    SayKeeps(Of(stream.response, stream.log), Text);
    return Some(said);
  }
}
