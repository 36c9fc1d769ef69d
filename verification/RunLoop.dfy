/** One Run over a Transcript: its Turns, its Tool batches and its ends. A Run that
    starts on a well-formed Transcript leaves a well-formed one, whichever step
    fails, is refused, or is canceled, and each Tool result says truthfully
    whether its Tool was started. */
module RunLoop {
  import opened Seqs
  import opened Transcript
  import opened ToolBatch

  /** What is known of the open calls: the outcome each call has, which says
      whether its Tool was started. */
  ghost predicate Known(calls: seq<nat>, outcomes: map<nat, Outcome>, started: set<nat>)
  {
    && (forall i :: i in outcomes ==> i < |calls| && outcomes[i].call == calls[i])
    && (forall i :: i in outcomes ==> (outcomes[i].executed <==> i in started))
    && (forall i :: i in started && i < |calls| ==> i in outcomes)
  }

  /** The Transcript is base, which ends with the reply, and then the results of the
      first next calls. */
  ghost predicate Results(base: seq<Message>, ms: seq<Message>, calls: seq<nat>, next: nat, started: set<nat>)
  {
    && next <= |calls| && |ms| == |base| + next && base == ms[..|base|]
    && forall j: nat :: j < next ==>
         Answers(ms[|base| + j], calls[j]) && (ms[|base| + j].outcome.executed <==> j in started)
  }

  /** The closing results of the calls from next on: executed where the outcome had
      arrived and says so. */
  function Closing(calls: seq<nat>, next: nat, outcomes: map<nat, Outcome>, run: nat, status: Status)
      : (ms: seq<Message>)
    requires next <= |calls|
    decreases |calls| - next
  {
    if next == |calls| then [] else
    [ResultMessage(run, Outcome(calls[next], status, next in outcomes && outcomes[next].executed))]
      + Closing(calls, next + 1, outcomes, run, status)
  }

  function ResultMessage(run: nat, outcome: Outcome): (m: Message)
  {
    Message(ToolResult, Some(run), [], outcome, 0)
  }

  /** Where the committed results end once k groups have run. */
  function EndOf(groups: seq<seq<nat>>, k: nat): (end: nat)
    requires k <= |groups|
  {
    if k == 0 || groups[k - 1] == [] then 0 else Last(groups[k - 1]) + 1
  }

  lemma ResultsPush(base: seq<Message>, ms: seq<Message>, calls: seq<nat>, next: nat, started: set<nat>, m: Message)
    requires Results(base, ms, calls, next, started) && next < |calls|
    requires Answers(m, calls[next]) && (m.outcome.executed <==> next in started)
    ensures Results(base, ms + [m], calls, next + 1, started)
  {
  }

  /** Starting Tools of calls that have no result yet leaves the results true. */
  lemma NoResultsYet(ms: seq<Message>, calls: seq<nat>, outcomes: map<nat, Outcome>, started: set<nat>)
    requires outcomes == map[] && started == {}
    ensures Results(ms, ms, calls, 0, started) && Known(calls, outcomes, started) && calls[0..] == calls
  {
  }

  lemma ResultsStarted(base: seq<Message>, ms: seq<Message>, calls: seq<nat>, next: nat, was: set<nat>, now: set<nat>)
    requires Results(base, ms, calls, next, was)
    requires forall i :: i < next ==> (i in was <==> i in now)
    ensures Results(base, ms, calls, next, now)
  {
  }

  /** Each plan is of its own call, and a blocked one has its result. */
  ghost predicate Planned(plans: seq<Plan>, calls: seq<nat>)
  {
    && |plans| == |calls|
    && forall i :: 0 <= i < |plans| ==>
         plans[i].call == calls[i]
         && (plans[i].blocked ==> plans[i].result.call == calls[i] && !plans[i].result.executed)
  }

  /** The calls with an outcome are the blocked ones and those of the groups so far. */
  ghost predicate Settled(plans: seq<Plan>, outcomes: map<nat, Outcome>, ran: set<nat>)
  {
    forall i: nat :: i in outcomes <==> i < |plans| && (plans[i].blocked || i in ran)
  }

  /** What a Run does that others can see, in order: the Messages it commits, a
      Transcript a TurnPreparer puts in place of the one there was, the boundaries at
      which it takes what waits, its Model calls, those an Interrupt cut short, and the
      Tools it starts. */
  datatype Act =
    | Committed(message: Message)
    | Rewritten(transcript: seq<Message>)
    | Boundary
    | ModelCalled
    | Interrupted
    | ToolsStarted(calls: set<nat>)

  /** What an act makes of the Transcript. */
  function Redone(ms: seq<Message>, act: Act): (r: seq<Message>)
  {
    match act
    case Committed(m) => ms + [m]
    case Rewritten(t) => t
    case _ => ms
  }

  function Replay(ms: seq<Message>, acts: seq<Act>): (r: seq<Message>)
  {
    if acts == [] then ms else Redone(Replay(ms, acts[..|acts| - 1]), Last(acts))
  }

  lemma ReplayStill(ms: seq<Message>, acts: seq<Act>, act: Act)
    ensures Replay(ms, acts + [act]) == Redone(Replay(ms, acts), act)
  {
    assert (acts + [act])[..|acts|] == acts;
  }

  /** The first act since, and whether one is among those since. */
  predicate First(was: seq<Act>, act: Act, now: seq<Act>)
  {
    was <= now && |was| < |now| && now[|was|] == act
  }

  predicate Did(was: seq<Act>, act: Act, now: seq<Act>)
  {
    was <= now && exists i :: |was| <= i < |now| && now[i] == act
  }

  /** Since then the Model was called and its reply committed, or an Interrupt cut the
      call short. */
  predicate WentOn(was: seq<Act>, id: nat, now: seq<Act>)
  {
    Did(was, Interrupted, now) || Replied(was, id, now)
  }

  predicate Replied(was: seq<Act>, id: nat, now: seq<Act>)
  {
    was <= now && exists i, j :: |was| <= i < j < |now| && now[i] == ModelCalled && IsReply(now[j], id)
  }

  predicate IsReply(act: Act, id: nat)
  {
    act.Committed? && act.message.role == Assistant && act.message.run == Some(id)
  }

  lemma WentOnSince(was: seq<Act>, id: nat, later: seq<Act>, now: seq<Act>, still: seq<Act>)
    requires was <= later && WentOn(later, id, now) && now <= still
    ensures WentOn(was, id, still)
  {
    if Did(later, Interrupted, now) {
      var i :| |later| <= i < |now| && now[i] == Interrupted;
      assert still[i] == Interrupted;
    } else {
      var i, j :| |later| <= i < j < |now| && now[i] == ModelCalled && IsReply(now[j], id);
      assert still[i] == ModelCalled && IsReply(still[j], id);
    }
  }

  lemma ReplyAnswers(was: seq<Act>, id: nat, now: seq<Act>, reply: Message)
    requires Did(was, ModelCalled, now) && reply.role == Assistant && reply.run == Some(id)
    ensures WentOn(was, id, now + [Committed(reply)])
  {
    var i :| |was| <= i < |now| && now[i] == ModelCalled;
    var still := now + [Committed(reply)];
    assert still[i] == ModelCalled && IsReply(still[|now|], id);
  }

  /** What is committed of a list of Messages that waited: each of this Run, a notice as
      a notice and any other as the user's. */
  function Injected(m: Message, id: nat): (act: Act)
  {
    Committed(m.(role := if m.role == Notice then Notice else User, run := Some(id)))
  }

  function Injections(items: seq<Message>, id: nat): (acts: seq<Act>)
  {
    seq(|items|, i requires 0 <= i < |items| => Injected(items[i], id))
  }

  lemma InjectionsUpTo(items: seq<Message>, id: nat, i: nat)
    requires i < |items|
    ensures |Injections(items, id)| == |items| && Injections(items, id)[i] == Injected(items[i], id)
    ensures Injected(items[i], id) ==
      Committed(items[i].(role := if items[i].role == Notice then Notice else User, run := Some(id)))
  {
  }

  lemma InjectionsAll(items: seq<Message>, id: nat)
    ensures |Injections(items, id)| == |items| && Injections(items, id)[..|items|] == Injections(items, id)
    ensures Injections(items, id)[..0] == []
  {
  }

  class Run {
    const id: nat
    const workers: nat
    var transcript: seq<Message>
    var calls: seq<nat>              // the batch: what the last committed reply asks for
    var next: nat                    // its first call without a committed result
    var outcomes: map<nat, Outcome>
    ghost var base: seq<Message>     // the Transcript before the results of the batch
    ghost var started: set<nat>      // the calls of the latest batch whose Tools were started
    ghost const initial: seq<Message>
    ghost var acts: seq<Act>         // what the Run did so far

    constructor (id: nat, workers: nat, transcript: seq<Message>)
      requires workers >= 1 && WellFormed(transcript)
      ensures Valid() && Idle() && this.transcript == transcript && this.id == id && this.workers == workers
      ensures acts == [] && initial == transcript
    {
      this.id, this.workers, this.transcript, base := id, workers, transcript, transcript;
      initial, acts := transcript, [];
      calls, next, outcomes, started := [], 0, map[], {};
      new;
      ClosedIsWellFormed(transcript);
    }

    /** The Transcript is what the acts of the Run made of the one it began with. */
    ghost predicate Recorded()
      reads this
    {
      transcript == Replay(initial, acts)
    }

    /** The calls the Transcript has no result for are the batch's, from next on. */
    ghost predicate Valid()
      reads this
    {
      && workers >= 1
      && Results(base, transcript, calls, next, started) && Open(transcript) == Some(calls[next..])
      && Known(calls, outcomes, started) && Recorded()
    }

    ghost predicate Idle()
      reads this
    {
      calls == [] && next == 0 && outcomes == map[]
    }

    /** The batch of the reply that base ends with, before its Tools run. */
    ghost predicate Fresh()
      reads this
    {
      base == transcript && next == 0 && outcomes == map[] && started == {}
    }

    /** Appends a Message, or refuses it for a limit. Only the closing results of a
        failed Run are exempt. */
    method Append(m: Message, enforce: bool) returns (ok: bool)
      modifies this`transcript, this`acts
      ensures old(acts) <= acts
      ensures transcript == if ok then old(transcript) + [m] else old(transcript)
      ensures acts == if ok then old(acts) + [Committed(m)] else old(acts)
      ensures old(Recorded()) ==> Recorded()
      ensures !enforce ==> ok
    {
      var overLimit: bool := *;
      if enforce && overLimit { return false; }
      ReplayStill(initial, acts, Committed(m));
      transcript, acts := transcript + [m], acts + [Committed(m)];
      return true;
    }

    /** A Message outside a batch: no tool result, and no reply that asks for Tools. */
    method AppendPlain(m: Message) returns (ok: bool)
      requires Valid() && Idle() && m.role != ToolResult && Asked(m) == []
      modifies this`transcript, this`base, this`acts
      ensures old(acts) <= acts
      ensures Valid() && Idle()
      ensures transcript == if ok then old(transcript) + [m] else old(transcript)
      ensures acts == if ok then old(acts) + [Committed(m)] else old(acts)
    {
      OpenPush(transcript, m);
      hide Open;
      ok := Append(m, true);
      base := transcript;
    }

    lemma ReplyOpens(reply: Message)
      requires Valid() && Idle() && reply.role == Assistant
      ensures Open(transcript) == Some([]) && Open(transcript + [reply]) == Some(reply.calls) && Recorded()
    {
      OpenPush(transcript, reply);
    }

    method CommitReply(reply: Message) returns (ok: bool)
      requires Valid() && Idle() && reply.role == Assistant
      modifies this`transcript, this`base, this`calls, this`started, this`acts
      ensures old(acts) <= acts
      ensures Valid() && Fresh()
      ensures transcript == if ok then old(transcript) + [reply] else old(transcript)
      ensures acts == if ok then old(acts) + [Committed(reply)] else old(acts)
      ensures calls == if ok then reply.calls else []
    {
      hide Open, Results, Known, Replay;
      ReplyOpens(reply);
      ok := Append(reply, true);
      base, started := transcript, {};
      if ok && |reply.calls| > 0 { calls := reply.calls; }
      NoResultsYet(transcript, calls, outcomes, started);
    }

    // ----- a Tool batch -----

    /** Each call is checked before it runs: unknown, invalid and blocked calls
        settle here, without having started. A failing extension fails the Run. */
    method Preflight() returns (plans: Option<seq<Plan>>)
      ensures plans.Some? ==> Planned(plans.value, calls)
    {
      var out: seq<Plan> := [];
      for i := 0 to |calls|
        invariant Planned(out, calls[..i])
      {
        var rejected: bool := *;
        var extensionFails: bool := *;
        var sequential: bool := *;
        var blocked: bool := *;
        if rejected {
          out := out + [Plan(calls[i], false, true, Outcome(calls[i], Failed, false))];
        } else if extensionFails {
          return None;
        } else {
          out := out + [Plan(calls[i], sequential, blocked, Outcome(calls[i], Blocked, false))];
        }
      }
      assert calls[..|calls|] == calls;
      return Some(out);
    }

    /** The Tools of a group report in any order, each its own outcome once. */
    method WorkerReports(plans: seq<Plan>, group: seq<nat>) returns (signals: seq<Signal>)
      requires forall i :: i in group ==> i < |plans|
      ensures FromWorkers(plans, group, signals)
    {
      signals := [];
      var n: int := *;
      for i := 0 to if n < 0 then 0 else n
        invariant FromWorkers(plans, group, signals)
      {
        var at: int := *;
        if at < 0 || at >= |group| { continue; }
        var index := group[at];
        assert index in group;
        var reported := false;
        for j := 0 to |signals|
          invariant reported <==> exists k :: 0 <= k < j && Reports(signals[k], index)
        {
          if signals[j].Result? && signals[j].index == index { reported := true; }
        }
        var progress: bool := *;
        var status: Status := *;
        if progress {
          signals := signals + [Progress(index)];
        } else if !reported {
          assert forall k :: 0 <= k < |signals| ==> !Reports(signals[k], index);
          signals := signals + [Result(index, Outcome(plans[index].call, status, true))];
        }
      }
    }

    method SettleBlocked(plans: seq<Plan>)
      requires Valid() && Fresh() && Planned(plans, calls)
      modifies this`outcomes
      ensures Valid() && Settled(plans, outcomes, {})
    {
      for i := 0 to |plans|
        invariant Known(calls, outcomes, started)
        invariant Settled(plans[..i], outcomes, {})
      {
        if plans[i].blocked { outcomes := outcomes[i := plans[i].result]; }
      }
    }

    /** Starts the Tools of a group, and gives what they report. Nothing else starts
        one, and what was started stays on record. */
    method LaunchGroup(plans: seq<Plan>, group: seq<nat>) returns (signals: seq<Signal>)
      requires forall i :: i in group ==> i < |plans|
      modifies this`started, this`acts
      ensures acts == old(acts) + [ToolsStarted(Elements(group))]
      ensures started == old(started) + Elements(group)
      ensures FromWorkers(plans, group, signals) && (old(Recorded()) ==> Recorded())
    {
      ReplayStill(initial, acts, ToolsStarted(Elements(group)));
      started, acts := started + Elements(group), acts + [ToolsStarted(Elements(group))];
      signals := WorkerReports(plans, group);
    }

    /** Runs one group: every call of it comes to an outcome, and its Tools were
        started unless the Run was canceled before. */
    method ExecuteGroup(plans: seq<Plan>, group: seq<nat>, ghost ran: set<nat>)
      requires Valid() && Planned(plans, calls) && Settled(plans, outcomes, ran)
      requires forall i :: i in group ==> next <= i < |plans| && i !in outcomes
      modifies this`outcomes, this`started, this`acts
      ensures old(acts) <= acts
      ensures Valid() && Settled(plans, outcomes, ran + Elements(group))
      ensures started == old(started) || started == old(started) + Elements(group)
    {
      var run := new GroupRun(plans, group);
      var canceled: bool := *;
      if canceled {
        run.CancelRest(false);
      } else {
        var signals := LaunchGroup(plans, group);
        var _ := run.Collect(signals);
      }
      ResultsStarted(base, transcript, calls, next, old(started), started);
      MergeKnown(calls, plans, group, outcomes, run.outcomes, old(started), started);
      outcomes := outcomes + run.outcomes;
    }

    /** What the extensions make of a result, and what is spilled of it: any stage
        may fail, and none changes whose result it is or whether its Tool ran. A
        result too large for a Message is replaced by a failed one. */
    method CommitResult(index: nat) returns (ok: bool)
      requires Valid() && index == next < |calls| && index in outcomes
      modifies this`transcript, this`next, this`acts
      ensures old(acts) <= acts
      ensures Valid()
      ensures ok ==> next == index + 1
    {
      var outcome := outcomes[index];
      assert outcome.call == calls[index] && (outcome.executed <==> index in started);
      hide Results, Known, Open;
      var extensionFails: bool := *;
      if extensionFails { return false; }
      var status: Status := *;
      outcome := outcome.(status := status);
      var spillFails: bool := *;
      if spillFails { return false; }
      ok := CommitResultMessage(outcome);
      if !ok { return false; }
      next := index + 1;
      var flushed: bool := *;
      return flushed;
    }

    lemma ValidMeans()
      requires Valid()
      ensures Recorded() && Results(base, transcript, calls, next, started) && Open(transcript) == Some(calls[next..])
    {
    }

    method CommitResultMessage(outcome: Outcome) returns (ok: bool)
      requires Valid() && next < |calls|
      requires outcome.call == calls[next] && (outcome.executed <==> next in started)
      modifies this`transcript, this`acts
      ensures old(acts) <= acts
      ensures Recorded() && (!ok ==> transcript == old(transcript))
      ensures ok ==> Results(base, transcript, calls, next + 1, started) && Open(transcript) == Some(calls[next + 1..])
    {
      hide Replay, Recorded, Valid, Known, Results, Open;
      ValidMeans();
      var m := ResultMessage(id, outcome);
      var instead := ResultMessage(id, outcome.(status := Failed));
      ResultCommits(base, transcript, calls, next, started, m);
      ResultCommits(base, transcript, calls, next, started, instead);
      ok := Append(m, true);
      var tooLarge: bool := *;
      if !ok && tooLarge { ok := Append(instead, true); }
    }

    /** Commits in source order, and only calls whose outcome is known. */
    method CommitUpTo(end: nat) returns (ok: bool)
      requires Valid() && next <= end <= |calls|
      requires forall i :: next <= i < end ==> i in outcomes
      modifies this`transcript, this`next, this`acts
      ensures old(acts) <= acts
      ensures Valid()
      ensures ok ==> next == end
    {
      while next < end
        invariant Valid() && old(next) <= next <= end && old(acts) <= acts
      {
        var committed := CommitResult(next);
        if !committed { return false; }
      }
      return true;
    }

    /** The blocked calls settle, the others run in groups, and the results commit
        in source order as soon as every call before them has settled. When all
        goes well the reply is followed by one result per call, in order, each
        executed exactly when its Tool was started. */
    method RunToolBatch() returns (ok: bool)
      requires Valid() && Fresh()
      modifies this`transcript, this`calls, this`next, this`outcomes, this`base, this`started, this`acts
      ensures old(acts) <= acts
      ensures Valid()
      ensures !ok ==> calls == old(calls) && base == old(base)
      ensures ok ==> Idle() && Results(old(transcript), transcript, old(calls), |old(calls)|, started)
    {
      ok := false;
      var preflight := Preflight();
      if preflight.Some? {
        var plans := preflight.value;
        SettleBlocked(plans);
        ok := RunGroups(plans);
      }
      if ok {
        assert calls[|calls|..] == [];
        Reset();
      }
    }

    method RunGroups(plans: seq<Plan>) returns (ok: bool)
      requires Valid() && next == 0 && Planned(plans, calls) && Settled(plans, outcomes, {})
      modifies this`transcript, this`next, this`outcomes, this`started, this`acts
      ensures old(acts) <= acts
      ensures Valid()
      ensures ok ==> next == |calls|
    {
      assert |plans| == |calls| && workers >= 1;
      hide Valid, Settled, Planned, Grouping, Unblocked, Flatten, Fits;
      var groups := GroupPlans(plans, workers);
      var k := 0;
      ok := true;
      while ok && k < |groups|
        invariant Valid() && k <= |groups| && old(acts) <= acts
        invariant ok ==> Settled(plans, outcomes, Ran(groups, k)) && next == EndOf(groups, k)
      {
        ok := RunGroup(plans, groups, k);
        k := k + 1;
      }
      if ok {
        AllOutcomes(plans, groups, outcomes);
        ok := CommitUpTo(|plans|);
      }
    }

    /** The calls of a group are written before they run, and the results commit up
        to its last call. */
    method RunGroup(plans: seq<Plan>, groups: seq<seq<nat>>, k: nat) returns (ok: bool)
      requires Valid() && Planned(plans, calls)
      requires k < |groups| && Flatten(groups) == Unblocked(plans) && Grouping(plans, workers, groups)
      requires Settled(plans, outcomes, Ran(groups, k)) && next == EndOf(groups, k)
      modifies this`transcript, this`next, this`outcomes, this`started, this`acts
      ensures old(acts) <= acts
      ensures Valid()
      ensures ok ==> Settled(plans, outcomes, Ran(groups, k + 1)) && next == EndOf(groups, k + 1)
    {
      hide Grouping, Unblocked, Flatten, Ran, EndOf, Replay, Recorded, Elements, Fits, Open, Results, Known;
      assert |plans| == |calls| && workers >= 1;
      hide Valid, Settled, Planned;
      var group := groups[k];
      GroupIsNext(plans, workers, groups, k, outcomes);
      ok := *;    // whether the calls are written
      if ok {
        ExecuteGroup(plans, group, Ran(groups, k));
        SettledUpTo(plans, groups, k, outcomes);
        ok := CommitUpTo(group[|group| - 1] + 1);
      }
    }

    /** The end of a Run that failed: a closing result for every open call. The
        batch is then answered like any other, and says truthfully what ran. */
    method CloseOpenCalls(canceled: bool)
      requires Valid()
      modifies this`transcript, this`calls, this`next, this`outcomes, this`base, this`acts
      ensures old(acts) <= acts
      ensures Valid() && Idle()
      ensures transcript == old(transcript)
              + Closing(old(calls), old(next), old(outcomes), id, if canceled then Canceled else Failed)
      ensures Results(old(base), transcript, old(calls), |old(calls)|, started)
      ensures old(next) == |old(calls)| ==> acts == old(acts)
    {
      var status := if canceled then Canceled else Failed;
      assert next <= |calls| && workers >= 1;
      CloseFrom(next, status);
      hide Closing, Known, Results;
      assert calls[|calls|..] == [];
      Reset();
    }

    method CloseFrom(from: nat, status: Status)
      requires Recorded() && from <= |calls| && Known(calls, outcomes, started)
      requires Results(base, transcript, calls, from, started) && Open(transcript) == Some(calls[from..])
      modifies this`transcript, this`acts
      ensures old(acts) <= acts
      ensures Recorded() && transcript == old(transcript) + Closing(calls, from, outcomes, id, status)
      ensures from == |calls| ==> acts == old(acts)
      ensures Results(base, transcript, calls, |calls|, started) && Open(transcript) == Some(calls[|calls|..])
    {
      hide Results, Known, Open;
      ghost var all := transcript + Closing(calls, from, outcomes, id, status);
      for i := from to |calls|
        invariant transcript + Closing(calls, i, outcomes, id, status) == all
        invariant Recorded() && old(acts) <= acts && (i == from ==> acts == old(acts))
        invariant Results(base, transcript, calls, i, started) && Open(transcript) == Some(calls[i..])
      {
        CloseCall(i, status);
      }
    }

    method CloseCall(i: nat, status: Status)
      requires Recorded() && i < |calls| && Known(calls, outcomes, started)
      requires Results(base, transcript, calls, i, started) && Open(transcript) == Some(calls[i..])
      modifies this`transcript, this`acts
      ensures old(acts) <= acts
      ensures Recorded() && transcript + Closing(calls, i + 1, outcomes, id, status) ==
        old(transcript) + Closing(calls, i, outcomes, id, status)
      ensures Results(base, transcript, calls, i + 1, started) && Open(transcript) == Some(calls[i + 1..])
    {
      hide Results, Open, Known, Closing;
      var m := ResultMessage(id, Outcome(calls[i], status, i in outcomes && outcomes[i].executed));
      ClosesTruthfully(calls, outcomes, started, i);
      ResultCommits(base, transcript, calls, i, started, m);
      ClosingFirst(transcript, calls, i, outcomes, id, status);
      var _ := Append(m, false);
    }

    /** No batch is open. */
    method Reset()
      requires workers >= 1 && Recorded() && Open(transcript) == Some([])
      modifies this`calls, this`next, this`outcomes, this`base
      ensures Valid() && Idle()
    {
      calls, next, outcomes, base := [], 0, map[], transcript;
    }

    // ----- the Turns of the Run -----

    /** Puts on record what leaves the Transcript as it is. */
    ghost method Mark(act: Act)
      requires Valid() && Idle() && !act.Committed? && !act.Rewritten?
      modifies this`acts
      ensures Valid() && Idle() && acts == old(acts) + [act]
    {
      ReplayStill(initial, acts, act);
      acts := acts + [act];
    }

    /** Commits what was taken at this boundary, in order, until a commit or its write
        fails. */
    method ConsumeControl(items: seq<Message>) returns (ok: bool, injected: bool)
      requires Valid() && Idle()
      modifies this`transcript, this`base, this`acts
      ensures old(acts) <= acts
      ensures Valid() && Idle() && old(transcript) <= transcript && First(old(acts), Boundary, acts)
      ensures acts <= old(acts) + [Boundary] + Injections(items, id)
      ensures ok ==> acts == old(acts) + [Boundary] + Injections(items, id)
      ensures ok ==> (injected <==> exists i :: 0 <= i < |items| && items[i].role != Notice)
    {
      hide Valid, Injections, Injected;
      Mark(Boundary);
      InjectionsAll(items, id);
      injected := false;
      for i := 0 to |items|
        invariant Valid() && Idle() && old(transcript) <= transcript
        invariant acts == old(acts) + [Boundary] + Injections(items, id)[..i]
        invariant injected <==> exists k :: 0 <= k < i && items[k].role != Notice
      {
        InjectionsUpTo(items, id, i);
        ghost var all, was := Injections(items, id), old(acts) + [Boundary];
        assert was + all[..i + 1] == was + all[..i] + [all[i]] && was + all[..i] <= was + all;
        assert was + all[..i + 1] <= was + all;
        var notice := items[i].role == Notice;
        ok := AppendPlain(items[i].(role := if notice then Notice else User, run := Some(id)));
        var flushed: bool := *;
        if !ok || !flushed { return false, injected; }
        if !notice { injected := true; }
      }
      InjectionsAll(items, id);
      ok := true;
    }

    /** A TurnPreparer may put another well-formed Transcript in its place. */
    method PrepareTurn() returns (ok: bool, changed: bool)
      requires Valid() && Idle()
      modifies this`transcript, this`base, this`acts
      ensures old(acts) <= acts
      ensures Valid() && Idle()
      ensures acts == if changed then old(acts) + [Rewritten(transcript)] else old(acts)
      ensures !changed ==> transcript == old(transcript)
    {
      ok, changed := *, false;
      var rewritten: seq<Message> := *;
      if Open(rewritten) == Some([]) {
        changed := *;
        if changed {
          ReplayStill(initial, acts, Rewritten(rewritten));
          transcript, acts := rewritten, acts + [Rewritten(rewritten)];
          base := transcript;
        }
      }
    }

    /** Calls the Model once, and once more when it refuses the request as too long
        before any output and a TurnPreparer shortened it. A reply cut off by a
        failure asks for no Tool. */
    method CallModel() returns (failed: bool, modelFailed: bool, reply: Message)
      requires Valid() && Idle()
      modifies this`transcript, this`base, this`acts
      ensures old(acts) <= acts
      ensures Valid() && Idle()
      ensures reply.role == Assistant && reply.run == Some(id)
      ensures modelFailed ==> reply.calls == []
      ensures !failed ==> Did(old(acts), ModelCalled, acts)
    {
      reply := Message(Assistant, Some(id), [], Outcome(0, OK, false), 0);
      modelFailed := false;
      var refused := false;
      while true
        invariant Valid() && Idle() && reply.role == Assistant && reply.run == Some(id)
        invariant modelFailed ==> reply.calls == []
        invariant old(acts) <= acts && (refused ==> Did(old(acts), ModelCalled, acts))
        decreases if refused then 0 else 1
      {
        var prepared, changed := PrepareTurn();
        if !prepared { return true, false, reply; }
        if refused && !changed { return false, true, reply.(calls := []); }
        var written: bool := *;
        if !written { return true, false, reply; }
        var asked: seq<nat>;
        modelFailed, asked := ReadAssistant();
        reply := reply.(calls := asked);
        var overflow: bool := *;
        if !(modelFailed && overflow && !refused) { break; }
        refused := true;
      }
      return false, modelFailed, reply;
    }

    /** Reads a reply. Each time the request is sent again after some output, what was
        received may be kept as a cut-off reply, which asks for no Tool. */
    method ReadAssistant() returns (modelFailed: bool, asked: seq<nat>)
      requires Valid() && Idle()
      modifies this`transcript, this`base, this`acts
      ensures old(acts) <= acts
      ensures Valid() && Idle() && (modelFailed ==> asked == [])
      ensures First(old(acts), ModelCalled, acts)
    {
      Mark(ModelCalled);
      var retries: int := *;
      for i := 0 to if retries < 0 then 0 else retries
        invariant Valid() && Idle() && First(old(acts), ModelCalled, acts)
      {
        var kept: bool := *;
        if kept { var _ := AppendPlain(Message(Assistant, Some(id), [], Outcome(0, OK, false), 0)); }
      }
      modelFailed, asked := *, *;
      if modelFailed { asked := []; }
    }

    method Fail()
      requires Valid()
      modifies this`transcript, this`calls, this`next, this`outcomes, this`base, this`acts
      ensures old(acts) <= acts
      ensures Valid() && Idle()
      ensures Results(old(base), transcript, old(calls), |old(calls)|, started)
      ensures old(Idle()) ==> transcript == old(transcript) && acts == old(acts)
    {
      var canceled: bool := *;
      CloseOpenCalls(canceled);
    }

    /** One Turn. However it goes, each call of its reply has its result before
        anything else is committed. It does nothing before it has taken what waits. The
        Run goes on, or ends well, only when the Model was called and its reply is
        committed, or an Interrupt cut the call short. */
    method RunTurn() returns (more: bool, failed: bool)
      requires Valid() && Idle()
      modifies this`transcript, this`calls, this`next, this`outcomes, this`base, this`started, this`acts
      ensures old(acts) <= acts
      ensures Valid() && Idle()
      ensures acts == old(acts) || First(old(acts), Boundary, acts)
      ensures (more ==> !failed) && (!failed ==> WentOn(old(acts), id, acts))
    {
      hide WentOn, Replied, Injections, Valid;
      var canceled: bool := *;
      var refreshed: bool := *;
      if canceled || !refreshed { Fail(); return false, true; }
      var items: seq<Message> := *;
      var noticed, _ := ConsumeControl(items);
      if !noticed { Fail(); return false, true; }
      var broke, modelFailed, reply := CallModel();
      if broke { Fail(); return false, true; }
      if modelFailed {
        ghost var before := acts;
        more := AfterModelError(reply);
        if more { WentOnSince(old(acts), id, before, acts, acts); }
        return more, !more;
      }
      ghost var called := acts;
      var committed := CommitReply(reply);
      var flushed: bool := *;
      if !committed || !flushed { Fail(); return false, true; }
      ReplyAnswers(old(acts), id, called, reply);
      ghost var replied := acts;
      if |reply.calls| == 0 { more, failed := EndAnswerTurn(); } else { more, failed := EndToolTurn(); }
      WentOnSince(old(acts), id, old(acts), replied, acts);
    }

    /** An Interrupt cut the call short and the Run goes on, or the Run fails. The
        text received is kept as a reply that asks for no Tool. */
    method AfterModelError(reply: Message) returns (more: bool)
      requires Valid() && Idle() && reply.role == Assistant && reply.calls == []
      modifies this`transcript, this`calls, this`next, this`outcomes, this`base, this`acts
      ensures old(acts) <= acts
      ensures Valid() && Idle() && old(transcript) <= transcript
      ensures more ==> Did(old(acts), Boundary, acts) && WentOn(old(acts), id, acts)
    {
      hide Recorded, Replay, Results, Open, Known, Injections;
      var cutOff: bool := *;
      if cutOff { var _ := AppendPlain(reply); }
      var interrupted: bool := *;
      if interrupted {
        Mark(Interrupted);
        ghost var at := |acts| - 1;
        var items: seq<Message> := *;
        var consumed, _ := ConsumeControl(items);
        assert acts[at] == Interrupted && acts[at + 1] == Boundary;
        if !consumed { Fail(); }
        return consumed;
      }
      Fail();
      return false;
    }

    /** After a reply that asks for no Tool: a stop ends the Run well, what was taken at
        the boundary and is no notice keeps it going, and without either it ends well,
        or goes on with a notice when the output limit cut the reply off. */
    method EndAnswerTurn() returns (more: bool, failed: bool)
      requires Valid() && Idle()
      modifies this`transcript, this`calls, this`next, this`outcomes, this`base, this`acts
      ensures old(acts) <= acts
      ensures Valid() && Idle() && old(transcript) <= transcript
      ensures (more ==> !failed) && (more ==> First(old(acts), Boundary, acts))
    {
      hide Injections;
      var stopFails: bool := *;
      if stopFails { Fail(); return false, true; }
      var stop: bool := *;
      if stop { return false, false; }
      var items: seq<Message> := *;
      var consumed, injected := ConsumeControl(items);
      if !consumed { Fail(); return false, true; }
      if injected { return true, false; }
      var truncated: bool := *;
      if truncated {
        var continued := AppendPlain(Message(Notice, Some(id), [], Outcome(0, OK, false), 0));
        if !continued { Fail(); }
        return continued, !continued;
      }
      return false, false;
    }

    method EndToolTurn() returns (more: bool, failed: bool)
      requires Valid() && Fresh()
      modifies this`transcript, this`calls, this`next, this`outcomes, this`base, this`started, this`acts
      ensures old(acts) <= acts
      ensures Valid() && Idle()
      ensures TruthfulBatch(old(transcript), transcript, old(calls), started)
      ensures (more ==> !failed) && (more ==> Did(old(acts), Boundary, acts))
    {
      hide Results, Known, Closing, Injections;
      more := false;
      ghost var was, asked := transcript, calls;
      var settled := RunToolBatch();
      if !settled {
        Fail();
        BatchStays(was, transcript, transcript, asked, started);
        return false, true;
      }
      ghost var answered := transcript;
      var stopFails: bool := *;
      var stop: bool := *;
      if !stopFails && !stop {
        var items: seq<Message> := *;
        var consumed, _ := ConsumeControl(items);
        more := consumed;
      }
      failed := stopFails || (!stop && !more);
      if failed { Fail(); }
      BatchStays(was, answered, transcript, asked, started);
    }

    /** Commits the prompt as the first Message of the Run. */
    method CommitPrompt(prompt: Message) returns (ok: bool)
      requires Valid() && Idle() && prompt.role == User
      modifies this`transcript, this`base, this`acts
      ensures old(acts) <= acts && Valid() && Idle()
      ensures acts == old(acts) || acts == old(acts) + [Committed(prompt.(run := Some(id)))]
      ensures ok ==> acts == old(acts) + [Committed(prompt.(run := Some(id)))]
      ensures transcript == if acts == old(acts) then old(transcript) else old(transcript) + [prompt.(run := Some(id))]
    {
      ok := AppendPlain(prompt.(run := Some(id)));
      var flushed: bool := *;
      ok := ok && flushed;
    }

    method RunTurns(turns: nat) returns (more: bool, failed: bool)
      requires Valid() && Idle()
      modifies this`transcript, this`calls, this`next, this`outcomes, this`base, this`started, this`acts
      ensures old(acts) <= acts && Valid() && Idle()
      ensures turns == 0 ==> more && acts == old(acts) && transcript == old(transcript)
      ensures acts == old(acts) || First(old(acts), Boundary, acts)
      ensures (more ==> !failed) && (turns > 0 && !failed ==> WentOn(old(acts), id, acts))
    {
      hide WentOn, Recorded, Replay, Results, Open, Known;
      more, failed := true, false;
      var turn := 0;
      while more && turn < turns
        invariant turn <= turns && Valid() && Idle()
        invariant turn == 0 ==> more && acts == old(acts) && transcript == old(transcript)
        invariant acts == old(acts) || First(old(acts), Boundary, acts)
        invariant (more ==> !failed) && (turn > 0 && !failed ==> WentOn(old(acts), id, acts))
      {
        ghost var before := acts;
        more, failed := RunTurn();
        turn := turn + 1;
        if !failed { WentOnSince(old(acts), id, before, acts, acts); }
      }
    }

    /** A Run of any number of Turns leaves every call answered, at once, in order
        and once, on every exit. The prompt is the first thing it commits, and a
        boundary comes before anything else; with the prompt not committed nothing
        happens. A Run that does not fail has committed a reply of its Model, or was
        interrupted. */
    method ExecuteRun(prompt: Option<Message>, turns: nat) returns (more: bool, failed: bool)
      requires Valid() && Idle()
      requires prompt.Some? ==> prompt.value.role == User
      modifies this`transcript, this`calls, this`next, this`outcomes, this`base, this`started, this`acts
      ensures Valid() && Idle() && WellFormed(transcript)
      ensures acts == old(acts) ==> transcript == old(transcript) && (prompt.Some? ==> !more)
      ensures acts == old(acts) || First(old(acts), if prompt.Some? then Prompted(prompt.value, id) else Boundary, acts)
      ensures prompt.Some? && |acts| > |old(acts)| + 1 ==> acts[|old(acts)| + 1] == Boundary
      ensures turns == 0 ==> |acts| <= |old(acts)| + if prompt.Some? then 1 else 0
      ensures (more ==> !failed) && (turns > 0 && !failed ==> WentOn(old(acts), id, acts))
      ensures turns == 0 && more ==>
        transcript == old(transcript) + if prompt.Some? then [prompt.value.(run := Some(id))] else []
    {
      hide Results, Open, Known, Replay, WellFormed, WentOn;
      more := *;
      failed := !more;
      if !more {
        Fail();
      } else if prompt.Some? {
        more := CommitPrompt(prompt.value);
        failed := !more;
        if !more { Fail(); }
      }
      if more {
        ghost var before := acts;
        more, failed := RunTurns(turns);
        if turns > 0 && !failed { WentOnSince(old(acts), id, before, acts, acts); }
      }
      ValidMeans();
      assert calls[next..] == [];
      ClosedIsWellFormed(transcript);
    }
  }

  function Prompted(prompt: Message, id: nat): (act: Act)
  {
    Committed(prompt.(run := Some(id)))
  }

  /** The reply that was ends with is followed at once by one result per call, in
      order, each executed exactly when its Tool was started. */
  ghost predicate TruthfulBatch(was: seq<Message>, now: seq<Message>, calls: seq<nat>, started: set<nat>)
  {
    |was| + |calls| <= |now| && Results(was, now[..|was| + |calls|], calls, |calls|, started)
  }

  lemma BatchStays(was: seq<Message>, answered: seq<Message>, now: seq<Message>, calls: seq<nat>,
                   started: set<nat>)
    requires Results(was, answered, calls, |calls|, started) && answered <= now
    ensures TruthfulBatch(was, now, calls, started)
  {
    assert now[..|answered|] == answered;
  }

  lemma ClosingFirst(ms: seq<Message>, calls: seq<nat>, i: nat, outcomes: map<nat, Outcome>, run: nat, status: Status)
    requires i < |calls|
    ensures var m := ResultMessage(run, Outcome(calls[i], status, i in outcomes && outcomes[i].executed));
      (ms + [m]) + Closing(calls, i + 1, outcomes, run, status) == ms + Closing(calls, i, outcomes, run, status)
  {
  }

  lemma ClosesTruthfully(calls: seq<nat>, outcomes: map<nat, Outcome>, started: set<nat>, i: nat)
    requires i < |calls| && Known(calls, outcomes, started)
    ensures i in outcomes && outcomes[i].executed <==> i in started
  {
  }

  lemma ResultCommits(base: seq<Message>, ms: seq<Message>, calls: seq<nat>, next: nat, started: set<nat>, m: Message)
    requires Results(base, ms, calls, next, started) && next < |calls| && Open(ms) == Some(calls[next..])
    requires Answers(m, calls[next]) && (m.outcome.executed <==> next in started)
    ensures Results(base, ms + [m], calls, next + 1, started) && Open(ms + [m]) == Some(calls[next + 1..])
  {
    ResultsPush(base, ms, calls, next, started, m);
    OpenPush(ms, m);
    assert calls[next..][1..] == calls[next + 1..];
  }

  lemma MergeKnown(calls: seq<nat>, plans: seq<Plan>, group: seq<nat>, outcomes: map<nat, Outcome>,
                   completed: map<nat, Outcome>, was: set<nat>, now: set<nat>)
    requires Known(calls, outcomes, was) && Planned(plans, calls)
    requires forall i :: i in completed <==> i in group
    requires forall i :: i in group ==> i < |plans| && i !in outcomes
    requires forall i :: i in completed ==> completed[i].call == plans[i].call && (completed[i].executed <==> i in now)
    requires forall i :: i in was ==> i in now
    requires forall i :: i in now ==> i in was || i in group
    ensures Known(calls, outcomes + completed, now)
  {
  }

  lemma GroupIsNext(plans: seq<Plan>, workers: nat, groups: seq<seq<nat>>, k: nat, outcomes: map<nat, Outcome>)
    requires k < |groups| && Flatten(groups) == Unblocked(plans) && Grouping(plans, workers, groups)
    requires Settled(plans, outcomes, Ran(groups, k))
    ensures groups[k] != []
    ensures forall i :: i in groups[k] ==> EndOf(groups, k) <= i < |plans| && i !in outcomes
    ensures EndOf(groups, k) <= Last(groups[k]) && EndOf(groups, k + 1) == Last(groups[k]) + 1
  {
    hide Flatten, Unblocked;
    GroupOrder(plans, groups, k);
    assert Last(groups[k]) in groups[k];
    if k > 0 && groups[k - 1] != [] {
      GroupOrder(plans, groups, k - 1);
      hide Ran;
      assert Last(groups[k - 1]) in Ran(groups, k);
    }
  }

  /** When a group has run, every call up to its last has its outcome. */
  lemma SettledUpTo(plans: seq<Plan>, groups: seq<seq<nat>>, k: nat, outcomes: map<nat, Outcome>)
    requires k < |groups| && Flatten(groups) == Unblocked(plans) && groups[k] != []
    requires Settled(plans, outcomes, Ran(groups, k) + Elements(groups[k]))
    ensures Settled(plans, outcomes, Ran(groups, k + 1))
    ensures Last(groups[k]) < |plans| && forall i :: 0 <= i <= Last(groups[k]) ==> i in outcomes
  {
    hide Flatten, Unblocked;
    GroupOrder(plans, groups, k);
    hide Elements;
    assert Settled(plans, outcomes, Ran(groups, k + 1));
    forall i: nat | i <= Last(groups[k]) ensures i in outcomes
    {
      assert i in Ran(groups, k + 1) <==> Runs(plans, i);
    }
  }

  lemma AllOutcomes(plans: seq<Plan>, groups: seq<seq<nat>>, outcomes: map<nat, Outcome>)
    requires Flatten(groups) == Unblocked(plans) && Settled(plans, outcomes, Ran(groups, |groups|))
    ensures forall i :: 0 <= i < |plans| ==> i in outcomes
  {
    hide Flatten, Unblocked, Ran;
    AllRan(plans, groups);
  }
}
