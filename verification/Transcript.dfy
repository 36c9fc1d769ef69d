/** The Messages of a Session and what makes them a history a provider accepts:
    every Tool call is answered at once, in source order. */
module Transcript {
  import opened Seqs

  datatype Role = User | Assistant | ToolResult | Notice

  datatype Status = OK | Failed | Blocked | Canceled

  /** What a Tool call came to. */
  datatype Outcome = Outcome(call: nat, status: Status, executed: bool)

  /** calls is what an assistant Message asks for; outcome is what a tool result
      carries. run is the Run that committed the Message, if one did. */
  datatype Message = Message(role: Role, run: Option<nat>, calls: seq<nat>, outcome: Outcome, size: nat)

  predicate Answers(m: Message, call: nat)
  {
    m.role == ToolResult && m.outcome.call == call
  }

  function Asked(m: Message): (calls: seq<nat>)
  {
    if m.role == Assistant then m.calls else []
  }

  // ----- well formed, position by position -----

  /** Call j of the Message at i is answered by the Message j + 1 places on. */
  predicate AnsweredAt(ms: seq<Message>, i: nat, j: nat)
  {
    i < |ms| && j < |Asked(ms[i])| ==> i + 1 + j < |ms| && Answers(ms[i + 1 + j], Asked(ms[i])[j])
  }

  /** The Message at k stands where an answer to the Message at i does. */
  predicate Owns(ms: seq<Message>, i: nat, k: nat)
  {
    i < k < |ms| && k - i - 1 < |Asked(ms[i])|
  }

  ghost predicate Answered(ms: seq<Message>, n: nat)
  {
    forall i: nat, j: nat :: i < n ==> AnsweredAt(ms, i, j)
  }

  ghost predicate Owned(ms: seq<Message>)
  {
    forall k: nat :: k < |ms| && ms[k].role == ToolResult ==> exists i: nat :: Owns(ms, i, k)
  }

  /** Each call is answered at once and in order, and there is no other result. */
  ghost predicate WellFormed(ms: seq<Message>)
  {
    Answered(ms, |ms|) && Owned(ms)
  }

  // ----- and as what is still open after a prefix -----

  /** The calls that have no result yet, or None when some Message does not
      belong where it is. */
  function Open(ms: seq<Message>): (open: Option<seq<nat>>)
  {
    if ms == [] then Some([]) else Next(Open(ms[..|ms| - 1]), Last(ms))
  }

  function Next(open: Option<seq<nat>>, m: Message): (r: Option<seq<nat>>)
  {
    match open
    case None => None
    case Some(calls) =>
      if calls == [] then (if m.role == ToolResult then None else Some(Asked(m)))
      else if Answers(m, calls[0]) then Some(calls[1..]) else None
  }

  lemma OpenPush(ms: seq<Message>, m: Message)
    ensures Open(ms + [m]) == Next(Open(ms), m)
  {
    assert (ms + [m])[..|ms|] == ms;
  }

  /** What follows a complete history is complete on its own exactly when the two
      together are. */
  lemma {:induction false} OpenAppend(a: seq<Message>, b: seq<Message>)
    requires Open(a) == Some([])
    ensures Open(a + b) == Open(b)
  {
    if b == [] {
      assert a + b == a;
    } else {
      OpenAppend(a, b[..|b| - 1]);
      assert (a + b)[..|a + b| - 1] == a + b[..|b| - 1];
    }
  }

  lemma {:induction false} OpenPrefix(ms: seq<Message>, k: nat)
    requires k <= |ms| && Open(ms).Some?
    ensures Open(ms[..k]).Some?
  {
    if k < |ms| {
      OpenPrefix(ms[..|ms| - 1], k);
      assert ms[..|ms| - 1][..k] == ms[..k];
    } else {
      assert ms[..k] == ms;
    }
  }

  /** The open calls are the last of the assistant Message at i, and what follows
      it answers the others. */
  ghost predicate OpenFrom(ms: seq<Message>, calls: seq<nat>, i: nat)
  {
    && i < |ms| && |ms| - i - 1 <= |Asked(ms[i])|
    && calls == Asked(ms[i])[|ms| - i - 1..]
    && forall k :: i < k < |ms| ==> Answers(ms[k], Asked(ms[i])[k - i - 1])
  }

  lemma AnsweredPush(ms: seq<Message>, m: Message, n: nat)
    requires Answered(ms, n) && n <= |ms|
    ensures Answered(ms + [m], n)
  {
    forall i: nat, j: nat | i < n ensures AnsweredAt(ms + [m], i, j)
    {
      assert AnsweredAt(ms, i, j);
    }
  }

  lemma OwnedPush(ms: seq<Message>, m: Message, i: nat)
    requires Owned(ms) && (m.role == ToolResult ==> Owns(ms + [m], i, |ms|))
    ensures Owned(ms + [m])
  {
    forall k: nat | k < |ms + [m]| && (ms + [m])[k].role == ToolResult ensures exists i: nat :: Owns(ms + [m], i, k)
    {
      if k < |ms| {
        assert ms[k].role == ToolResult;
        var o: nat :| Owns(ms, o, k);
        assert Owns(ms + [m], o, k);
      }
    }
  }

  /** With nothing open, all that came before is answered. */
  lemma AnsweredAll(ms: seq<Message>, i: nat)
    requires OpenFrom(ms, [], i) && Answered(ms, i)
    ensures Answered(ms, |ms|)
  {
    forall k: nat, j: nat | k < |ms| ensures AnsweredAt(ms, k, j)
    {
      if k < i {
        assert AnsweredAt(ms, k, j);
      } else if k > i {
        assert Answers(ms[k], Asked(ms[i])[k - i - 1]);
      } else if j < |Asked(ms[i])| {
        assert Answers(ms[i + 1 + j], Asked(ms[i])[j]);
      }
    }
  }

  lemma {:induction false} OpenMeans(ms: seq<Message>) returns (i: nat)
    requires Open(ms).Some? && ms != []
    ensures OpenFrom(ms, Open(ms).value, i) && Answered(ms, i) && Owned(ms)
  {
    var front, m := ms[..|ms| - 1], Last(ms);
    assert ms == front + [m];
    if front == [] {
      i := 0;
    } else {
      i := OpenMeans(front);
      var calls := Open(front).value;
      hide Open, Answered, Owned, Owns;
      if calls == [] {
        AnsweredAll(front, i);
        AnsweredPush(front, m, |front|);
        hide OpenFrom;
        OwnedPush(front, m, 0);
        i := |front|;
      } else {
        AnsweredPush(front, m, i);
        OpenGoesOn(front, m, calls, i);
        OwnedPush(front, m, i);
      }
    }
  }

  lemma OpenGoesOn(front: seq<Message>, m: Message, calls: seq<nat>, i: nat)
    requires calls != [] && OpenFrom(front, calls, i) && Answers(m, calls[0])
    ensures OpenFrom(front + [m], calls[1..], i) && Owns(front + [m], i, |front|)
  {
  }

  /** A history with nothing open is well formed, position by position, and no
      other history is. */
  lemma ClosedIsWellFormed(ms: seq<Message>)
    ensures Open(ms) == Some([]) <==> WellFormed(ms)
  {
    if Open(ms) == Some([]) && ms != [] {
      var i := OpenMeans(ms);
      AnsweredAll(ms, i);
    }
    if WellFormed(ms) { WellFormedIsClosed(ms); }
  }

  lemma {:induction false} WellFormedIsClosed(ms: seq<Message>)
    requires WellFormed(ms)
    ensures Open(ms) == Some([])
    decreases |ms|
  {
    if ms != [] {
      var head, tail := FirstTurnClosed(ms);
      WellFormedIsClosed(tail);
      OpenAppend(head, tail);
    }
  }

  lemma FirstTurnClosed(ms: seq<Message>) returns (head: seq<Message>, tail: seq<Message>)
    requires WellFormed(ms) && ms != []
    ensures ms == head + tail && |tail| < |ms| && Open(head) == Some([]) && WellFormed(tail)
  {
    hide Open, WellFormed;
    var n := |Asked(ms[0])|;
    FirstTurn(ms, n);
    assert Asked(ms[0])[n..] == [];
    RestWellFormed(ms, n + 1);
    head, tail := ms[..n + 1], ms[n + 1..];
  }

  lemma RestWellFormed(ms: seq<Message>, k: nat)
    requires WellFormed(ms) && ms != [] && k == 1 + |Asked(ms[0])| <= |ms|
    ensures WellFormed(ms[k..])
  {
    var rest := ms[k..];
    forall i: nat, j: nat | i < |rest| ensures AnsweredAt(rest, i, j)
    {
      assert AnsweredAt(ms, k + i, j);
    }
    forall i: nat | i < |rest| && rest[i].role == ToolResult ensures exists o: nat :: Owns(rest, o, i)
    {
      assert ms[k + i].role == ToolResult;
      var o: nat :| Owns(ms, o, k + i);
      assert 0 < o ==> AnsweredAt(ms, 0, o - 1);
      assert Owns(rest, o - k, i);
    }
  }

  lemma {:induction false} FirstTurn(ms: seq<Message>, n: nat)
    requires WellFormed(ms) && ms != [] && n <= |Asked(ms[0])|
    ensures n < |ms| && Open(ms[..n + 1]) == Some(Asked(ms[0])[n..])
  {
    if n > 0 {
      FirstTurn(ms, n - 1);
      assert AnsweredAt(ms, 0, n - 1);
      assert ms[..n + 1] == ms[..n] + [ms[n]];
      OpenPush(ms[..n], ms[n]);
    } else {
      assert forall o: nat :: !Owns(ms, o, 0);
      assert ms[..1] == [ms[0]] && [ms[0]][..0] == [];
    }
  }

  /** A history cut where no tool result follows is two complete histories. */
  lemma CutAtTurn(ms: seq<Message>, i: nat)
    requires i <= |ms| && WellFormed(ms)
    requires i < |ms| ==> ms[i].role != ToolResult
    ensures WellFormed(ms[..i]) && WellFormed(ms[i..])
  {
    ClosedIsWellFormed(ms);
    OpenPrefix(ms, i);
    if i < |ms| {
      assert ms[..i + 1][..i] == ms[..i];
      OpenPrefix(ms, i + 1);
      assert Open(ms[..i]) == Some([]);
    } else {
      assert ms[..i] == ms;
    }
    assert ms == ms[..i] + ms[i..];
    OpenAppend(ms[..i], ms[i..]);
    ClosedIsWellFormed(ms[..i]);
    ClosedIsWellFormed(ms[i..]);
  }
}
