/** How the Tool calls of one reply run: the groups they run in, and the outcomes
    a group comes to whatever order its Tools finish in and whenever the Run is
    canceled. */
module ToolBatch {
  import opened Seqs
  import opened Transcript

  /** A call after preflight. A blocked one is settled already, by result. */
  datatype Plan = Plan(call: nat, sequential: bool, blocked: bool, result: Outcome)

  // ----- groups -----

  function Flatten(groups: seq<seq<nat>>): (r: seq<nat>)
  {
    if groups == [] then [] else Flatten(groups[..|groups| - 1]) + Last(groups)
  }

  /** The indexes of the plans that run, in order. */
  function Unblocked(plans: seq<Plan>): (r: seq<nat>)
  {
    if plans == [] then [] else
    var rest := Unblocked(plans[..|plans| - 1]);
    if Last(plans).blocked then rest else rest + [|plans| - 1]
  }

  lemma {:induction false} UnblockedAscends(plans: seq<Plan>)
    ensures forall k :: 0 <= k < |Unblocked(plans)| ==> Runs(plans, Unblocked(plans)[k])
    ensures forall j, k :: 0 <= j < k < |Unblocked(plans)| ==> Unblocked(plans)[j] < Unblocked(plans)[k]
  {
    if plans != [] { UnblockedAscends(plans[..|plans| - 1]); }
  }

  /** A Sequential Tool in a group of its own. */
  predicate Alone(plans: seq<Plan>, group: seq<nat>)
  {
    |group| == 1 && group[0] < |plans| && plans[group[0]].sequential
  }

  /** A group holds one Sequential Tool, or up to workers others. */
  predicate Fits(plans: seq<Plan>, workers: nat, group: seq<nat>)
  {
    && 1 <= |group| <= workers
    && forall k :: 0 <= k < |group| ==>
         group[k] < |plans| && !plans[group[k]].blocked && (plans[group[k]].sequential ==> Alone(plans, group))
  }

  /** Nothing can join the group from behind. */
  predicate Sealed(plans: seq<Plan>, workers: nat, group: seq<nat>)
  {
    |group| == workers || Alone(plans, group)
  }

  /** Two groups that follow each other could not have been one. */
  predicate CannotJoin(plans: seq<Plan>, workers: nat, a: seq<nat>, b: seq<nat>)
  {
    Sealed(plans, workers, a) || Alone(plans, b)
  }

  /** The group being filled: no Sequential Tool, and not full. */
  predicate Filling(plans: seq<Plan>, workers: nat, current: seq<nat>)
  {
    |current| < workers && (current != [] ==> Fits(plans, workers, current) && !Alone(plans, current))
  }

  ghost predicate Grouping(plans: seq<Plan>, workers: nat, groups: seq<seq<nat>>)
  {
    && (forall k :: 0 <= k < |groups| ==> Fits(plans, workers, groups[k]))
    && (forall k :: 0 < k < |groups| ==> CannotJoin(plans, workers, groups[k - 1], groups[k]))
  }

  lemma AddGroup(plans: seq<Plan>, workers: nat, groups: seq<seq<nat>>, g: seq<nat>)
    requires Grouping(plans, workers, groups) && Fits(plans, workers, g)
    requires groups != [] ==> CannotJoin(plans, workers, Last(groups), g)
    ensures Grouping(plans, workers, groups + [g])
    ensures Flatten(groups + [g]) == Flatten(groups) + g
  {
    assert (groups + [g])[..|groups|] == groups;
  }

  lemma UnblockedPush(plans: seq<Plan>, i: nat)
    requires i < |plans|
    ensures Unblocked(plans[..i + 1]) == Unblocked(plans[..i]) + if plans[i].blocked then [] else [i]
  {
    assert plans[..i + 1][..i] == plans[..i];
  }

  lemma {:induction false} UnblockedComplete(plans: seq<Plan>, i: nat)
    requires i < |plans| && !plans[i].blocked
    ensures i in Unblocked(plans)
  {
    if i < |plans| - 1 { UnblockedComplete(plans[..|plans| - 1], i); }
  }

  lemma FitsAlone(plans: seq<Plan>, workers: nat, i: nat)
    requires i < |plans| && !plans[i].blocked && workers >= 1
    requires plans[i].sequential || workers == 1
    ensures Fits(plans, workers, [i]) && Sealed(plans, workers, [i])
    ensures plans[i].sequential ==> Alone(plans, [i])
  {
  }

  lemma Joins(plans: seq<Plan>, workers: nat, current: seq<nat>, i: nat)
    requires Filling(plans, workers, current)
    requires i < |plans| && !plans[i].blocked && !plans[i].sequential
    ensures Fits(plans, workers, current + [i])
    ensures |current + [i]| < workers ==> Filling(plans, workers, current + [i])
    ensures |current + [i]| == workers ==> Sealed(plans, workers, current + [i])
  {
    forall k | 0 <= k < |current| ensures !plans[current[k]].sequential
    {
      assert plans[current[k]].sequential ==> Alone(plans, current);
    }
  }

  /** The groups, one after the other, are exactly the calls that run, in source
      order; each fits, and none could be joined with the next. */
  method GroupPlans(plans: seq<Plan>, workers: nat) returns (groups: seq<seq<nat>>)
    requires workers >= 1
    ensures Flatten(groups) == Unblocked(plans)
    ensures Grouping(plans, workers, groups)
  {
    hide Grouping, Unblocked, Flatten, Fits, Alone;
    groups := [];
    assert Grouping(plans, workers, []) && Flatten([]) == Unblocked(plans[..0]) by { NoGroups(plans, workers); }
    var current: seq<nat> := [];
    for i := 0 to |plans|
      invariant Flatten(groups) + current == Unblocked(plans[..i])
      invariant Grouping(plans, workers, groups)
      invariant Filling(plans, workers, current)
      invariant groups != [] ==> Sealed(plans, workers, Last(groups))
    {
      UnblockedPush(plans, i);
      if plans[i].blocked { continue; }
      if plans[i].sequential || workers == 1 {
        FitsAlone(plans, workers, i);
        if |current| > 0 {
          AddGroup(plans, workers, groups, current);
          groups := groups + [current];
          current := [];
        }
        AddGroup(plans, workers, groups, [i]);
        groups := groups + [[i]];
        continue;
      }
      Joins(plans, workers, current, i);
      current := current + [i];
      if |current| == workers {
        AddGroup(plans, workers, groups, current);
        groups := groups + [current];
        current := [];
      }
    }
    assert plans[..|plans|] == plans;
    if |current| > 0 {
      AddGroup(plans, workers, groups, current);
      groups := groups + [current];
    }
  }

  lemma NoGroups(plans: seq<Plan>, workers: nat)
    ensures Grouping(plans, workers, []) && Flatten([]) == Unblocked(plans[..0])
  {
  }

  // ----- what the order of the groups gives -----

  predicate Runs(plans: seq<Plan>, i: nat)
  {
    i < |plans| && !plans[i].blocked
  }

  function Elements(s: seq<nat>): (r: set<nat>)
    ensures forall i :: i in r <==> i in s
    ensures |r| <= |s|
  {
    if s == [] then {} else
    assert s == s[..|s| - 1] + [Last(s)];
    Elements(s[..|s| - 1]) + {Last(s)}
  }

  /** The calls of the first k groups. */
  function Ran(groups: seq<seq<nat>>, k: nat): (r: set<nat>)
    requires k <= |groups|
  {
    if k == 0 then {} else Ran(groups, k - 1) + Elements(groups[k - 1])
  }

  lemma {:induction false} RanFlattens(groups: seq<seq<nat>>, k: nat)
    requires k <= |groups|
    ensures forall i :: i in Ran(groups, k) <==> i in Flatten(groups[..k])
  {
    if k > 0 {
      RanFlattens(groups, k - 1);
      assert groups[..k][..k - 1] == groups[..k - 1];
    }
  }

  /** The calls that run and come before the end of a group are all in the groups
      so far, and those of the group come after the groups before it. */
  lemma GroupOrder(plans: seq<Plan>, groups: seq<seq<nat>>, k: nat)
    requires k < |groups| && Flatten(groups) == Unblocked(plans) && groups[k] != []
    ensures forall i: nat :: i in Ran(groups, k + 1) <==> i <= Last(groups[k]) && Runs(plans, i)
    ensures forall i, j :: i in Ran(groups, k) && j in groups[k] ==> i < j
    ensures Runs(plans, Last(groups[k]))
  {
    assert groups[..k + 1][..k] == groups[..k];
    FlattenPrefix(groups, k + 1);
    RanFlattens(groups, k);
    RanFlattens(groups, k + 1);
    RunsIffUnblocked(plans);
    UnblockedAscends(plans);
    assert Flatten(groups[..k + 1]) == Flatten(groups[..k]) + groups[k];
    hide Flatten, Unblocked, Ran;
    PrefixOfAscending(Flatten(groups[..k]), groups[k], Unblocked(plans));
    assert Last(groups[k]) in groups[k];
  }

  lemma RunsIffUnblocked(plans: seq<Plan>)
    ensures forall i: nat :: i in Unblocked(plans) <==> Runs(plans, i)
  {
    UnblockedAscends(plans);
    forall i: nat ensures i in Unblocked(plans) <==> Runs(plans, i)
    {
      if Runs(plans, i) { UnblockedComplete(plans, i); }
    }
  }

  /** All groups together are all the calls that run. */
  lemma AllRan(plans: seq<Plan>, groups: seq<seq<nat>>)
    requires Flatten(groups) == Unblocked(plans)
    ensures forall i: nat :: i in Ran(groups, |groups|) <==> Runs(plans, i)
  {
    RanFlattens(groups, |groups|);
    assert groups[..|groups|] == groups;
    RunsIffUnblocked(plans);
  }

  lemma PrefixOfAscending(a: seq<nat>, b: seq<nat>, all: seq<nat>)
    requires forall j, k :: 0 <= j < k < |all| ==> all[j] < all[k]
    requires a + b <= all && b != []
    ensures forall i :: i in a + b <==> i <= Last(b) && i in all
    ensures forall i, j :: i in a && j in b ==> i < j
  {
    var ab := a + b;
    assert Last(b) == all[|ab| - 1];
    forall i ensures i in ab <==> i <= Last(b) && i in all
    {
      if i in ab {
        var k :| 0 <= k < |ab| && ab[k] == i;
        assert all[k] == i;
      }
      if i in all && i <= Last(b) {
        var k :| 0 <= k < |all| && all[k] == i;
        assert k < |ab|;
        assert ab[k] == i;
      }
    }
    forall i, j | i in a && j in b ensures i < j
    {
      var x :| 0 <= x < |a| && a[x] == i;
      var y :| 0 <= y < |b| && b[y] == j;
      assert all[x] == i && all[|a| + y] == j;
    }
  }

  lemma {:induction false} FlattenPrefix(groups: seq<seq<nat>>, k: nat)
    requires k <= |groups|
    ensures Flatten(groups[..k]) <= Flatten(groups)
  {
    if k < |groups| {
      FlattenPrefix(groups[..|groups| - 1], k);
      assert groups[..|groups| - 1][..k] == groups[..k];
    } else {
      assert groups[..k] == groups;
    }
  }

  // ----- one group -----

  /** A worker's report: a progress text, or the outcome of its call. */
  datatype Signal = Progress(index: nat) | Result(index: nat, outcome: Outcome)

  /** Workers report for their own call, and its outcome once, as executed. */
  ghost predicate FromWorkers(plans: seq<Plan>, group: seq<nat>, signals: seq<Signal>)
  {
    && (forall s :: s in signals ==> s.index in group && s.index < |plans|)
    && (forall s :: s in signals && s.Result? ==> s.outcome.call == plans[s.index].call && s.outcome.executed)
    && (forall i, j :: 0 <= i < j < |signals| && signals[i].Result? && signals[j].Result? ==>
          signals[i].index != signals[j].index)
  }

  predicate Reports(s: Signal, index: nat)
  {
    s.Result? && s.index == index
  }

  predicate Reported(signals: seq<Signal>, index: nat)
  {
    exists s :: s in signals && Reports(s, index)
  }

  /** What a call that reported comes to: its outcome, marked canceled when the Run
      was by then. */
  predicate Kept(signals: seq<Signal>, index: nat, outcome: Outcome)
  {
    exists s :: s in signals && Reports(s, index)
      && (outcome == s.outcome || outcome == s.outcome.(status := Canceled))
  }

  class GroupRun {
    const plans: seq<Plan>
    const group: seq<nat>
    var outcomes: map<nat, Outcome>

    constructor (plans: seq<Plan>, group: seq<nat>)
      ensures this.plans == plans && this.group == group && outcomes == map[]
    {
      this.plans, this.group, outcomes := plans, group, map[];
    }

    method Settle(index: nat, outcome: Outcome)
      modifies this
      ensures outcomes == old(outcomes)[index := outcome]
    {
      outcomes := outcomes[index := outcome];
    }

    /** Settles as canceled every call that has no outcome, and no other. */
    method CancelRest(started: bool)
      requires forall i :: i in group ==> i < |plans|
      modifies this
      ensures forall i :: i in outcomes <==> i in old(outcomes) || i in group
      ensures forall i :: i in old(outcomes) ==> outcomes[i] == old(outcomes)[i]
      ensures forall i :: i in group && i !in old(outcomes) ==>
        i in outcomes && outcomes[i] == Outcome(plans[i].call, Canceled, started)
    {
      for n := 0 to |group|
        invariant forall i :: i in outcomes <==> i in old(outcomes) || i in group[..n]
        invariant forall i :: i in old(outcomes) ==> outcomes[i] == old(outcomes)[i]
        invariant forall i :: i in group && i in outcomes && i !in old(outcomes) ==>
          outcomes[i] == Outcome(plans[i].call, Canceled, started)
      {
        var index := group[n];
        assert index in group && group[..n + 1] == group[..n] + [index];
        if index in outcomes { continue; }
        Settle(index, Outcome(plans[index].call, Canceled, started));
      }
      assert group[..|group|] == group;
    }

    /** What is settled is what the signals so far reported. */
    ghost predicate Heard(signals: seq<Signal>)
      reads this
    {
      && (forall i :: i in outcomes <==> i in group && Reported(signals, i))
      && (forall i :: i in outcomes ==> Kept(signals, i, outcomes[i]))
    }

    method Handle(signals: seq<Signal>, n: nat, canceled: bool)
      requires n < |signals| && FromWorkers(plans, group, signals) && Heard(signals[..n])
      modifies this
      ensures Heard(signals[..n + 1])
    {
      var signal := signals[n];
      assert signals[..n + 1] == signals[..n] + [signal] && signal in signals;
      match signal
      case Progress(_) =>
      case Result(index, outcome) =>
        assert Reports(signal, index);
        Settle(index, if canceled then outcome.(status := Canceled) else outcome);
    }

    /** Waits for the signals in the order they arrive, until every call has an
        outcome or the Run is canceled, at any moment. Either way every call of
        the group has exactly one outcome, its own: what it reported, or
        canceled with its executor started. */
    method Collect(signals: seq<Signal>) returns (ghost heard: nat)
      requires FromWorkers(plans, group, signals) && outcomes == map[]
      requires forall i :: i in group ==> i < |plans|
      modifies this
      ensures heard <= |signals|
      ensures forall i :: i in outcomes <==> i in group
      ensures forall i :: i in group && Reported(signals[..heard], i) ==> Kept(signals[..heard], i, outcomes[i])
      ensures forall i :: i in group && !Reported(signals[..heard], i) ==>
        outcomes[i] == Outcome(plans[i].call, Canceled, true)
      ensures forall i :: i in group ==> outcomes[i].call == plans[i].call && outcomes[i].executed
    {
      hide Heard;
      var n, done := 0, false;
      HeardNothing(signals);
      while |outcomes| < |group| && !done
        invariant n <= |signals| && Heard(signals[..n])
        decreases |signals| - n, if done then 0 else 1
      {
        var canceled: bool := *;
        var cancelFirst: bool := *;
        if n == |signals| || (canceled && cancelFirst) {
          // No signal is left, or the cancellation is seen first.
          n := Drain(signals, n);
          done := true;
        } else {
          Handle(signals, n, canceled);
          n := n + 1;
        }
      }
      heard := n;
      HeardMeans(signals, n);
      if done { CancelRest(true); } else { AllSettled(outcomes, group); }
    }

    /** Settles the results that wait already, as many as there are. */
    method Drain(signals: seq<Signal>, from: nat) returns (n: nat)
      requires from <= |signals| && FromWorkers(plans, group, signals) && Heard(signals[..from])
      modifies this
      ensures from <= n <= |signals| && Heard(signals[..n])
    {
      hide Heard, FromWorkers;
      n := from;
      while n < |signals|
        invariant from <= n <= |signals| && Heard(signals[..n])
      {
        var waits: bool := *;
        if !waits { break; }
        Handle(signals, n, true);
        n := n + 1;
      }
    }

    lemma HeardNothing(signals: seq<Signal>)
      requires outcomes == map[]
      ensures Heard(signals[..0])
    {
    }

    lemma HeardMeans(signals: seq<Signal>, n: nat)
      requires n <= |signals| && FromWorkers(plans, group, signals) && Heard(signals[..n])
      requires forall i :: i in group ==> i < |plans|
      ensures forall i :: i in outcomes <==> i in group && Reported(signals[..n], i)
      ensures forall i :: i in outcomes ==> Kept(signals[..n], i, outcomes[i])
      ensures forall i :: i in outcomes ==> outcomes[i].call == plans[i].call && outcomes[i].executed
    {
      forall i | i in outcomes ensures outcomes[i].call == plans[i].call && outcomes[i].executed
      {
        var s :| s in signals[..n] && Reports(s, i)
          && (outcomes[i] == s.outcome || outcomes[i] == s.outcome.(status := Canceled));
        assert s in signals;
      }
    }
  }

  /** As many outcomes as calls means each call has one. */
  lemma AllSettled(outcomes: map<nat, Outcome>, group: seq<nat>)
    requires forall i :: i in outcomes ==> i in group
    requires |outcomes| >= |group|
    ensures forall i :: i in outcomes <==> i in group
  {
    var missing := Elements(group) - outcomes.Keys;
    assert Elements(group) == outcomes.Keys + missing;
    assert |Elements(group)| == |outcomes.Keys| + |missing|;
    assert |outcomes.Keys| == |outcomes|;
    assert missing == {};
    forall i | i in group ensures i in outcomes { assert i !in missing && i in Elements(group); }
  }
}
