/** Where a compaction cuts the stretch of a Transcript that it may close. Whatever
    the policy, the closed part and the kept tail each keep every call with its
    results; the default policy also keeps the tail within its budget and inside
    the latest Run. */
module Compaction {
  import opened Seqs
  import opened Transcript

  const DEFAULT_TAIL_TOKENS := 20000

  function Tokens(ms: seq<Message>): (n: nat)
  {
    if ms == [] then 0 else ms[0].size + Tokens(ms[1..])
  }

  lemma TokensShrink(ms: seq<Message>, i: nat, j: nat)
    requires i <= j <= |ms|
    ensures Tokens(ms[j..]) <= Tokens(ms[i..])
    decreases j - i
  {
    if i < j {
      TokensShrink(ms, i + 1, j);
    }
  }

  // ----- the loops over the stretch -----

  /** The first index from want on that is not a tool result. */
  function TurnCutAt(ms: seq<Message>, want: int): (cut: nat)
    ensures cut <= |ms|
    ensures want <= 0 ==> cut == 0
    ensures 0 < want <= |ms| ==> want <= cut
    ensures want > |ms| ==> cut == |ms|
    ensures 0 < cut < |ms| ==> ms[cut].role != ToolResult
    ensures forall i :: 0 < want <= i < cut ==> ms[i].role == ToolResult
    decreases |ms| - want
  {
    if want <= 0 then 0
    else if want >= |ms| then |ms|
    else if ms[want].role != ToolResult then want
    else TurnCutAt(ms, want + 1)
  }

  method TurnCut(ms: seq<Message>, want: int) returns (cut: nat)
    ensures cut == TurnCutAt(ms, want)
  {
    if want <= 0 { return 0; }
    if want > |ms| { return |ms|; }
    for i := want to |ms|
      invariant TurnCutAt(ms, i) == TurnCutAt(ms, want)
    {
      if ms[i].role != ToolResult { return i; }
    }
    return |ms|;
  }

  /** The lowest index, not below floor, from which the Messages fit the budget. A
      tail fits exactly when the budget is not negative. */
  method WithinBudget(ms: seq<Message>, budget: int, floor: nat) returns (start: nat)
    requires floor <= |ms|
    ensures floor <= start <= |ms|
    ensures Tokens(ms[start..]) <= budget <==> budget >= 0
    ensures forall s :: floor <= s < start ==> Tokens(ms[s..]) > budget
  {
    var total := 0;
    start := |ms|;
    var i := |ms|;
    while i > floor
      invariant floor <= i <= |ms| && start == i
      invariant total == Tokens(ms[i..])
      invariant i < |ms| ==> total <= budget
    {
      i := i - 1;
      total := total + ms[i].size;
      if total > budget {
        forall s | floor <= s < start ensures Tokens(ms[s..]) > budget { TokensShrink(ms, s, i); }
        break;
      }
      start := i;
    }
  }

  /** Messages of a Run other than the one that is starting. */
  predicate OfARun(m: Message, skip: Option<nat>)
  {
    m.run.Some? && m.run != skip
  }

  /** start..last is the longest stretch of Messages of one Run that ends at last,
      the last Message of the latest Run. */
  ghost predicate LatestBlock(ms: seq<Message>, skip: Option<nat>, start: nat, last: nat)
  {
    && start <= last < |ms| && OfARun(ms[last], skip)
    && (forall i :: last < i < |ms| ==> !OfARun(ms[i], skip))
    && (forall i :: start <= i <= last ==> ms[i].run == ms[last].run)
    && (start > 0 ==> ms[start - 1].run != ms[last].run)
  }

  ghost predicate LastUser(ms: seq<Message>, start: nat)
  {
    && (start == 0 || (start < |ms| && ms[start].role == User))
    && forall j :: start < j < |ms| ==> ms[j].role != User
  }

  /** Where the latest Run starts, or the last user Message when no Message is of a
      Run, or 0. */
  method RunStart(ms: seq<Message>, skip: Option<nat>) returns (start: nat)
    ensures start <= |ms|
    ensures (exists i :: 0 <= i < |ms| && OfARun(ms[i], skip)) ==>
      exists last: nat :: LatestBlock(ms, skip, start, last)
    ensures (forall i :: 0 <= i < |ms| ==> !OfARun(ms[i], skip)) ==> LastUser(ms, start)
  {
    var n := |ms|;
    while n > 0 && !(ms[n - 1].run.Some? && ms[n - 1].run != skip)
      invariant 0 <= n <= |ms| && forall j :: n <= j < |ms| ==> !OfARun(ms[j], skip)
    {
      n := n - 1;
    }
    if n == 0 {
      var i := |ms|;
      while i > 0
        invariant 0 <= i <= |ms| && forall j :: i <= j < |ms| ==> ms[j].role != User
      {
        i := i - 1;
        if ms[i].role == User { return i; }
      }
      return 0;
    }
    var latest := ms[n - 1].run;
    start := |ms|;
    var i := |ms|;
    while i > 0
      invariant 0 <= i <= |ms|
      invariant i >= n ==> start == |ms|
      invariant i < n ==> start == i && LatestRunFrom(ms, n, i)
    {
      i := i - 1;
      if ms[i].run == latest {
        start := i;
      } else if start < |ms| {
        break;
      }
    }
    assert LatestBlock(ms, skip, start, n - 1);
  }

  predicate LatestRunFrom(ms: seq<Message>, n: nat, i: nat)
  {
    0 < n <= |ms| && forall j :: i <= j < n ==> ms[j].run == ms[n - 1].run
  }

  // ----- the policies -----

  datatype Policy = Policy(keepMessages: int, tailTokens: int)

  datatype Info = Info(windowTokens: int, ceilingTokens: int, currentRun: Option<nat>)

  function OrDefault(value: int, fallback: int): (r: int)
  {
    if value <= 0 then fallback else value
  }

  /** The most the tail may hold: the default or the set one, and no more than a
      quarter of the window, or of the ceiling when no window is known. */
  function BudgetOf(policy: Policy, info: Info): (budget: int)
    ensures 0 <= budget <= OrDefault(policy.tailTokens, DEFAULT_TAIL_TOKENS)
  {
    var tail := OrDefault(policy.tailTokens, DEFAULT_TAIL_TOKENS);
    var size := if info.windowTokens > 0 then info.windowTokens else info.ceilingTokens;
    if size > 0 && size / 4 < tail then size / 4 else tail
  }

  /** The most the tail may hold, in whole tokens: what is set, or the default, and no
      more than a quarter of the size that is known. */
  lemma BudgetIs(policy: Policy, info: Info)
    ensures var budget := BudgetOf(policy, info);
      var asked := if policy.tailTokens > 0 then policy.tailTokens else 20000;
      var quartered := forall size :: Size(info, size) ==> 4 * budget <= size;
      && budget <= asked && quartered
      && (budget < asked ==> exists size :: Size(info, size) && size < 4 * (budget + 1))
  {
    if info.windowTokens > 0 {
      assert Size(info, info.windowTokens);
    } else if info.ceilingTokens > 0 {
      assert Size(info, info.ceilingTokens);
    }
  }

  /** The size that is known: the window, or without one the ceiling. */
  predicate Size(info: Info, size: int)
  {
    size > 0 && (size == info.windowTokens || (size == info.ceilingTokens && info.windowTokens <= 0))
  }

  /** Where the default tail may start: at the latest Run, or without one at the last
      user Message. */
  ghost predicate TailFloor(ms: seq<Message>, skip: Option<nat>, floor: nat)
  {
    && floor <= |ms|
    && ((exists i :: 0 <= i < |ms| && OfARun(ms[i], skip)) ==> exists last: nat :: LatestBlock(ms, skip, floor, last))
    && ((forall i :: 0 <= i < |ms| ==> !OfARun(ms[i], skip)) ==> LastUser(ms, floor))
  }

  /** The cut leaves the longest tail that fits the budget, not before the floor, and
      that does not begin in the middle of a Turn. */
  ghost predicate LongestTail(ms: seq<Message>, budget: int, floor: nat, cut: nat)
  {
    && floor <= cut <= |ms| && Tokens(ms[cut..]) <= budget
    && (0 < cut < |ms| ==> ms[cut].role != ToolResult)
    && forall s :: floor <= s < cut ==> Tokens(ms[s..]) > budget || (s > 0 && ms[s].role == ToolResult)
  }

  lemma LongestIs(ms: seq<Message>, budget: int, floor: nat, fits: nat, cut: nat)
    requires floor <= fits <= |ms| && cut == TurnCutAt(ms, fits) && budget >= 0
    requires Tokens(ms[fits..]) <= budget && forall s :: floor <= s < fits ==> Tokens(ms[s..]) > budget
    ensures LongestTail(ms, budget, floor, cut)
  {
    if fits > 0 { TokensShrink(ms, fits, cut); }
    hide Tokens;
  }

  ghost predicate SplitsPairs(ms: seq<Message>, cut: nat)
  {
    cut <= |ms| && WellFormed(ms[..cut]) && WellFormed(ms[cut..])
  }

  /** The default Cutter. */
  method TailCut(policy: Policy, ms: seq<Message>, info: Info) returns (cut: nat)
    ensures cut <= |ms|
    ensures WellFormed(ms) ==> SplitsPairs(ms, cut)
    ensures policy.keepMessages <= 0 ==> exists floor: nat ::
      TailFloor(ms, info.currentRun, floor) && LongestTail(ms, BudgetOf(policy, info), floor, cut)
    ensures policy.keepMessages >= |ms| > 0 ==> cut == 0
    ensures 0 < policy.keepMessages < |ms| ==>
      && |ms| - policy.keepMessages <= cut && (cut < |ms| ==> ms[cut].role != ToolResult)
      && forall i :: |ms| - policy.keepMessages <= i < cut ==> ms[i].role == ToolResult
  {
    hide WellFormed, SplitsPairs, LongestTail, LatestBlock, LastUser, Tokens, OfARun;
    if policy.keepMessages > 0 {
      cut := TurnCut(ms, |ms| - policy.keepMessages);
      if WellFormed(ms) { CutSplits(ms, cut); }
      return;
    }
    var tail := OrDefault(policy.tailTokens, DEFAULT_TAIL_TOKENS);
    var size := info.windowTokens;
    if size <= 0 { size := info.ceilingTokens; }
    if size > 0 && size / 4 < tail { tail := size / 4; }
    var start := RunStart(ms, info.currentRun);
    var fits := WithinBudget(ms, tail, start);
    cut := TurnCut(ms, fits);
    LongestIs(ms, tail, start, fits, cut);
    assert TailFloor(ms, info.currentRun, start);
    if WellFormed(ms) { CutSplits(ms, cut); }
  }

  lemma CutSplits(ms: seq<Message>, cut: nat)
    requires WellFormed(ms) && cut <= |ms|
    requires 0 < cut < |ms| ==> ms[cut].role != ToolResult
    ensures SplitsPairs(ms, cut)
  {
    if cut == 0 && ms != [] { FirstIsNoResult(ms); }
    CutAtTurn(ms, cut);
  }

  lemma FirstIsNoResult(ms: seq<Message>)
    requires WellFormed(ms) && ms != []
    ensures ms[0].role != ToolResult
  {
    assert forall o: nat :: !Owns(ms, o, 0);
  }

  /** Inside a well-formed stretch a cut keeps every call with its results exactly
      when the tail does not begin with a result. */
  lemma CutSplitsIff(ms: seq<Message>, cut: nat)
    requires WellFormed(ms) && cut <= |ms|
    ensures SplitsPairs(ms, cut) <==> cut == |ms| || ms[cut].role != ToolResult
  {
    if cut == |ms| || ms[cut].role != ToolResult {
      CutSplits(ms, cut);
    } else if SplitsPairs(ms, cut) {
      FirstIsNoResult(ms[cut..]);
    }
  }

  // ----- the latest Turn of a Run -----

  predicate Reply(m: Message, run: Option<nat>)
  {
    run.Some? && m.run == run && m.role == Assistant
  }

  predicate HasReply(ms: seq<Message>, run: Option<nat>)
  {
    exists i :: 0 <= i < |ms| && Reply(ms[i], run)
  }

  predicate HasRun(ms: seq<Message>, run: Option<nat>)
  {
    run.Some? && exists i :: 0 <= i < |ms| && ms[i].run == run
  }

  predicate FirstOfRun(ms: seq<Message>, run: Option<nat>, i: nat)
  {
    run.Some? && i < |ms| && ms[i].run == run && forall j :: 0 <= j < i ==> ms[j].run != run
  }

  function LastReply(ms: seq<Message>, run: Option<nat>): (i: int)
    ensures -1 <= i < |ms|
    ensures i >= 0 ==> Reply(ms[i], run)
    ensures forall j :: i < j < |ms| ==> !Reply(ms[j], run)
  {
    if ms == [] then -1
    else if Reply(Last(ms), run) then |ms| - 1
    else LastReply(ms[..|ms| - 1], run)
  }

  function FirstMessage(ms: seq<Message>, run: Option<nat>): (i: int)
    ensures -1 <= i < |ms|
    ensures i >= 0 ==> FirstOfRun(ms, run, i)
    ensures i == -1 ==> !HasRun(ms, run)
  {
    if ms == [] then -1 else
    var i := FirstMessage(ms[..|ms| - 1], run);
    if i >= 0 then i else if run.Some? && Last(ms).run == run then |ms| - 1 else -1
  }

  function LastNoResult(ms: seq<Message>): (i: nat)
    ensures ms != [] ==> i < |ms| && (i == 0 || ms[i].role != ToolResult)
    ensures forall j :: i < j < |ms| ==> ms[j].role == ToolResult
  {
    if |ms| <= 1 then 0
    else if Last(ms).role != ToolResult then |ms| - 1
    else LastNoResult(ms[..|ms| - 1])
  }

  /** The Run's last reply, or its first Message, or with none of its Messages the
      last that is not a tool result. */
  function LatestTurn(ms: seq<Message>, run: Option<nat>): (start: nat)
    ensures start <= |ms| && (ms != [] ==> start < |ms|)
  {
    if LastReply(ms, run) >= 0 then LastReply(ms, run)
    else if FirstMessage(ms, run) >= 0 then FirstMessage(ms, run)
    else LastNoResult(ms)
  }

  /** The latest Turn: the Run's last reply, or its first Message, or the last Message
      that is no tool result. */
  ghost predicate LatestTurnAt(ms: seq<Message>, run: Option<nat>, at: nat)
  {
    if HasReply(ms, run) then at < |ms| && Reply(ms[at], run) && forall j :: at < j < |ms| ==> !Reply(ms[j], run)
    else if HasRun(ms, run) then FirstOfRun(ms, run, at)
    else
      && (at == 0 || (at < |ms| && ms[at].role != ToolResult))
      && forall j :: at < j < |ms| ==> ms[j].role == ToolResult
  }

  lemma LatestTurnIs(ms: seq<Message>, run: Option<nat>)
    ensures LatestTurnAt(ms, run, LatestTurn(ms, run))
  {
    if HasReply(ms, run) { assert LastReply(ms, run) >= 0; }
  }

  method LastTurnStart(ms: seq<Message>, run: Option<nat>) returns (start: nat)
    ensures start == LatestTurn(ms, run)
    ensures LatestTurnAt(ms, run, start)
  {
    hide LatestTurnAt, LastReply, FirstMessage, LastNoResult;
    LatestTurnIs(ms, run);
    if run.Some? {
      var first := -1;
      var i := |ms|;
      while i > 0
        invariant 0 <= i <= |ms| && -1 <= first < |ms|
        invariant forall j :: i <= j < |ms| ==> !Reply(ms[j], run)
        invariant first == -1 ==> forall j :: i <= j < |ms| ==> ms[j].run != run
        invariant first >= 0 ==> i <= first && ms[first].run == run && forall j :: i <= j < first ==> ms[j].run != run
      {
        i := i - 1;
        if ms[i].run != run { continue; }
        if ms[i].role == Assistant {
          return i;
        }
        first := i;
      }
      if first >= 0 {
        return first;
      }
    }
    var i := |ms| - 1;
    while i > 0 && ms[i].role == ToolResult
      invariant -1 <= i < |ms| && (ms != [] ==> i >= 0)
      invariant forall j :: i < j < |ms| ==> ms[j].role == ToolResult
    {
      i := i - 1;
    }
    if i < 0 { return 0; }
    return i;
  }

  /** The Run has Messages here but no reply, and the first is a tool result. */
  predicate BeginsAtResult(ms: seq<Message>, run: Option<nat>)
  {
    !HasReply(ms, run) && exists i :: 0 <= i < |ms| && FirstOfRun(ms, run, i) && ms[i].role == ToolResult
  }

  /** In a well-formed stretch the latest Turn begins with a tool result exactly when
      that is so. */
  lemma TurnBeginsAtResultIff(ms: seq<Message>, run: Option<nat>)
    requires WellFormed(ms) && ms != []
    ensures ms[LatestTurn(ms, run)].role == ToolResult <==> BeginsAtResult(ms, run)
  {
    FirstIsNoResult(ms);
  }

  /** A result is of the Run of the reply it answers, or of no Run, as one is that a
      rebuild adds for a call its writer left open. */
  ghost predicate ResultsOfRun(ms: seq<Message>)
  {
    forall i: nat, k: nat :: Owns(ms, i, k) ==> ms[k].run.None? || ms[k].run == ms[i].run
  }

  /** What Runs and rebuilds write: then the latest Turn never begins with a result. */
  lemma TurnStartsClean(ms: seq<Message>, run: Option<nat>)
    requires WellFormed(ms) && ResultsOfRun(ms)
    ensures !BeginsAtResult(ms, run)
    ensures ms != [] ==> ms[LatestTurn(ms, run)].role != ToolResult
  {
    if ms != [] { TurnBeginsAtResultIff(ms, run); }
  }

  // ----- the frame around any Cutter -----

  /** An answer out of range is refused; what is used of another is a boundary of
      Turns, in the middle of a Run no later than its latest Turn. */
  function CutAt(raw: int, ms: seq<Message>, keepLastTurn: bool, run: Option<nat>): (cut: Option<nat>)
    ensures cut.Some? ==> cut.value <= |ms|
  {
    if raw < 0 || raw > |ms| then None
    else if keepLastTurn && LatestTurn(ms, run) < TurnCutAt(ms, raw) then Some(LatestTurn(ms, run))
    else Some(TurnCutAt(ms, raw))
  }

  /** The first index from want on that does not stand in the middle of a Turn. */
  ghost predicate Boundary(ms: seq<Message>, want: int, at: nat)
  {
    && want <= at <= |ms| && (want == 0 ==> at == 0)
    && (0 < at < |ms| ==> ms[at].role != ToolResult)
    && forall i :: 0 < want <= i < at ==> ms[i].role == ToolResult
  }

  method CutOf(raw: int, ms: seq<Message>, keepLastTurn: bool, run: Option<nat>) returns (cut: Option<nat>)
    ensures cut == CutAt(raw, ms, keepLastTurn, run)
    ensures cut.None? <==> raw < 0 || raw > |ms|
    ensures cut.Some? ==> exists at: nat, last: nat ::
      && Boundary(ms, raw, at) && LatestTurnAt(ms, run, last)
      && cut.value == if keepLastTurn && last < at then last else at
  {
    if raw < 0 || raw > |ms| { return None; }
    var at := TurnCut(ms, raw);
    LatestTurnIs(ms, run);
    assert Boundary(ms, raw, at);
    if keepLastTurn {
      var last := LastTurnStart(ms, run);
      if last < at { at := last; }
    }
    return Some(at);
  }

  /** Whatever a Cutter answers, the cut keeps every call of a well-formed stretch
      with its results, except in one case, and never in that one: in the middle of a
      Run whose latest Turn begins with a result, a cut past that. */
  lemma CutOfSplitsIff(raw: int, ms: seq<Message>, keepLastTurn: bool, run: Option<nat>)
    requires WellFormed(ms) && 0 <= raw <= |ms|
    ensures SplitsPairs(ms, CutAt(raw, ms, keepLastTurn, run).value) <==>
      !(keepLastTurn && BeginsAtResult(ms, run) && LatestTurn(ms, run) < TurnCutAt(ms, raw))
  {
    var cut := CutAt(raw, ms, keepLastTurn, run).value;
    CutSplitsIff(ms, cut);
    if ms != [] {
      FirstIsNoResult(ms);
      TurnBeginsAtResultIff(ms, run);
    }
  }

  /** On what Runs and rebuilds write it always does. */
  lemma CutOfKeepsPairs(raw: int, ms: seq<Message>, keepLastTurn: bool, run: Option<nat>)
    requires WellFormed(ms) && ResultsOfRun(ms) && 0 <= raw <= |ms|
    ensures SplitsPairs(ms, CutAt(raw, ms, keepLastTurn, run).value)
  {
    TurnStartsClean(ms, run);
    CutOfSplitsIff(raw, ms, keepLastTurn, run);
  }

  /** The excluded case, which no Run and no rebuild writes: a Run whose only Message
      is the result of another Run's call. */
  lemma ForeignResultSplits()
    ensures var ms := [Message(Assistant, Some(0), [7], Outcome(0, OK, false), 0),
                       Message(ToolResult, Some(1), [], Outcome(7, OK, true), 0)];
      WellFormed(ms) && CutAt(2, ms, true, Some(1)) == Some(1) && !SplitsPairs(ms, 1)
  {
    var reply := Message(Assistant, Some(0), [7], Outcome(0, OK, false), 0);
    var result := Message(ToolResult, Some(1), [], Outcome(7, OK, true), 0);
    var ms := [reply, result];
    assert [reply][..0] == [] && [reply] + [result] == ms;
    assert Open([reply]) == Some([7]) && [7][1..] == [];
    OpenPush([reply], result);
    ClosedIsWellFormed(ms);
    CutSplitsIff(ms, 1);
    assert FirstOfRun(ms, Some(1), 1);
  }

  // ----- the Segments to merge -----

  function Sum(sizes: seq<nat>): (n: nat)
  {
    if sizes == [] then 0 else sizes[0] + Sum(sizes[1..])
  }

  /** How many of the oldest Segments to merge: none when all fit the budget, else
      at least two, and only as many as leave at most half the budget. */
  method OldestToHalf(sizes: seq<nat>, budget: nat) returns (count: nat)
    ensures count <= |sizes|
    ensures count == 0 <==> |sizes| < 2 || Sum(sizes) <= budget
    ensures count > 0 ==> count >= 2
    ensures count > 0 && count < |sizes| ==> Sum(sizes[count..]) <= budget / 2
    ensures count > 2 ==> Sum(sizes[count - 1..]) > budget / 2
  {
    if |sizes| < 2 { return 0; }
    var total := 0;
    for i := 0 to |sizes|
      invariant total + Sum(sizes[i..]) == Sum(sizes)
    {
      total := total + sizes[i];
    }
    if total <= budget { return 0; }
    count := |sizes|;
    var left := 0;
    while count > 2 && left + sizes[count - 1] <= budget / 2
      invariant 2 <= count <= |sizes|
      invariant left == Sum(sizes[count..])
      invariant count < |sizes| ==> left <= budget / 2
    {
      count := count - 1;
      left := left + sizes[count];
    }
  }
}
