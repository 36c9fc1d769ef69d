/** The reply a Session builds from the events of a model stream, and how a report
    that the request is sent again makes it start over. */
module Reply {
  import opened Seqs
  import opened Coalesce

  datatype Call = Call(id: string, tool: string, size: nat)

  datatype Event =
    | TextDelta(text: string)
    | ReasoningDelta(text: string)
    | ReasoningDone(artifact: seq<nat>)
    | ToolCall(call: Option<Call>)
    | Usage
    | Done
    | Unknown

  /** What a reply has said: its parts, as streamed, and its Tool calls. */
  datatype Said = Said(parts: seq<Part>, calls: seq<Call>)

  const NOTHING := Said([], [])

  function Delta(kind: Kind, text: string): (p: Part)
  {
    Part(kind, text, [], true)
  }

  /** The index of the last reasoning part, or -1. */
  function LastReasoning(parts: seq<Part>): (i: int)
    ensures -1 <= i < |parts|
    ensures i >= 0 ==> parts[i].kind == Reasoning
    ensures forall j :: i < j < |parts| ==> parts[j].kind != Reasoning
  {
    if parts == [] then -1
    else if Last(parts).kind == Reasoning then |parts| - 1
    else LastReasoning(parts[..|parts| - 1])
  }

  /** A reasoning block is signed where it ends; one that streamed no deltas gets a
      part of its own. */
  function Sign(parts: seq<Part>, artifact: seq<nat>): (r: seq<Part>)
    ensures r != []
  {
    var i := LastReasoning(parts);
    if i == -1 || parts[i].signature != [] then parts + [Part(Reasoning, "", artifact, true)]
    else parts[i := parts[i].(signature := artifact)]
  }

  predicate Accepts(calls: seq<Call>, call: Option<Call>)
  {
    call.Some? && call.value.id != "" && call.value.tool != ""
    && forall i :: 0 <= i < |calls| ==> calls[i].id != call.value.id
  }

  /** How much an event adds to the size of a reply. */
  function Size(e: Event): (n: nat)
  {
    match e
    case TextDelta(text) => |text|
    case ReasoningDelta(text) => |text|
    case ReasoningDone(artifact) => |artifact|
    case ToolCall(call) => if call.Some? then call.value.size else 0
    case Usage => 0
    case Done => 0
    case Unknown => 0
  }

  /** Whether an event can be part of a reply that has said this much. */
  predicate Fits(said: Said, size: nat, limit: nat, e: Event)
  {
    && e != Unknown && size + Size(e) <= limit
    && (e.ToolCall? ==> Accepts(said.calls, e.call))
  }

  function Say(said: Said, e: Event): (r: Said)
  {
    match e
    case TextDelta(text) => if text == "" then said else said.(parts := said.parts + [Delta(Text, text)])
    case ReasoningDelta(text) => if text == "" then said else said.(parts := said.parts + [Delta(Reasoning, text)])
    case ReasoningDone(artifact) => said.(parts := Sign(said.parts, artifact))
    case ToolCall(call) => if call.Some? then said.(calls := said.calls + [call.value]) else said
    case Usage => said
    case Done => said
    case Unknown => said
  }

  /** The size of a reply that has heard these events. */
  function Total(events: seq<Event>): (n: nat)
  {
    if events == [] then 0 else Total(events[..|events| - 1]) + Size(Last(events))
  }

  function SayAll(events: seq<Event>): (r: Said)
  {
    if events == [] then NOTHING else Say(SayAll(events[..|events| - 1]), Last(events))
  }

  lemma HeardOne(heard: seq<Event>, e: Event)
    ensures SayAll(heard + [e]) == Say(SayAll(heard), e) && Total(heard + [e]) == Total(heard) + Size(e)
  {
    assert (heard + [e])[..|heard|] == heard;
  }

  /** An event fits when the reply with it is within the limit, and a call has an ID of
      its own and a Tool. */
  lemma FitsIs(said: Said, heard: seq<Event>, limit: nat, e: Event)
    ensures Fits(said, Total(heard), limit, e) <==>
      e != Unknown && Total(heard + [e]) <= limit && (e.ToolCall? ==> e.call.Some? && New(said.calls, e.call.value))
  {
    assert (heard + [e])[..|heard|] == heard;
  }

  predicate New(calls: seq<Call>, call: Call)
  {
    call.id != "" && call.tool != "" && forall c :: c in calls ==> c.id != call.id
  }

  // ----- the reader, which builds the reply in place -----

  class Reader {
    const limit: nat
    var parts: seq<Part>
    var calls: seq<Call>
    var size: nat
    var complete: bool
    ghost var heard: seq<Event>      // the events of the attempt that count

    constructor (limit: nat)
      ensures Valid() && heard == [] && !complete && this.limit == limit
    {
      this.limit := limit;
      parts, calls, size, complete, heard := [], [], 0, false, [];
    }

    function State(): (s: Said)
      reads this
    {
      Said(parts, calls)
    }

    ghost predicate Valid()
      reads this
    {
      && State() == SayAll(heard) && size == Total(heard) <= limit && (State() == NOTHING ==> size == 0)
      && (Done in heard ==> complete)
    }

    /** Adds one event to the reply, or refuses it and leaves the reply as it was.
        The write of a part may fail after the event was added. */
    method Apply(e: Event) returns (ok: bool)
      requires Valid()
      modifies this
      ensures Valid()
      ensures heard == if Fits(old(State()), old(size), limit, e) then old(heard) + [e] else old(heard)
      ensures ok ==> heard == old(heard) + [e]
      ensures var valid := e != Unknown && (e.ToolCall? ==> e.call.Some? && New(old(calls), e.call.value));
        heard == old(heard) + [e] <==> valid && Total(old(heard) + [e]) <= limit
      ensures complete == (old(complete) || e == Done)
    {
      hide SayAll, Total, Sign, New, Accepts;
      HeardOne(heard, e);
      FitsIs(State(), heard, limit, e);
      if size + Size(e) > limit { return false; }
      ok := true;
      var added := true;
      match e {
        case TextDelta(text) =>
          if text != "" {
            parts := parts + [Delta(Text, text)];
            ok := *;        // whether the part was written
          }
        case ReasoningDelta(text) =>
          if text != "" {
            parts := parts + [Delta(Reasoning, text)];
            ok := *;
          }
        case ReasoningDone(artifact) =>
          parts := SignReasoning(parts, artifact);
        case ToolCall(call) =>
          ok := AppendToolCall(call);
          added := ok;
        case Usage =>
        case Done =>
          complete := true;
        case Unknown =>
          ok, added := false, false;
      }
      if added {
        size := size + Size(e);
        heard := heard + [e];
      }
    }

    method AppendToolCall(call: Option<Call>) returns (ok: bool)
      modifies this`calls
      ensures ok <==> Accepts(old(calls), call)
      ensures calls == if ok then old(calls) + [call.value] else old(calls)
    {
      if call.None? || call.value.id == "" || call.value.tool == "" { return false; }
      for i := 0 to |calls|
        invariant calls == old(calls)
        invariant forall j :: 0 <= j < i ==> calls[j].id != call.value.id
      {
        if calls[i].id == call.value.id { return false; }
      }
      calls := calls + [call.value];
      return true;
    }

    /** The Model sends the request again: what was received is void. */
    method Retried()
      requires Valid()
      modifies this
      ensures Valid() && State() == NOTHING && complete == old(complete)
      ensures heard == []
    {
      if |parts| == 0 && |calls| == 0 {
        // Nothing that shows was received.
        heard := [];
        return;
      }
      parts, calls, size, heard := [], [], 0, [];
    }

    /** The reply as it is stored. */
    method Finish() returns (reply: Said)
      requires Valid()
      ensures reply == Said(Blocks(SayAll(heard).parts), SayAll(heard).calls)
    {
      var merged := CoalesceDeltas(parts);
      return Said(merged, calls);
    }
  }

  method SignReasoning(parts: seq<Part>, artifact: seq<nat>) returns (r: seq<Part>)
    ensures r == Sign(parts, artifact)
  {
    var index := -1;
    var i := |parts|;
    while i > 0
      invariant 0 <= i <= |parts|
      invariant forall j :: i <= j < |parts| ==> parts[j].kind != Reasoning
    {
      i := i - 1;
      if parts[i].kind == Reasoning {
        index := i;
        break;
      }
    }
    r := parts;
    if index == -1 || |parts[index].signature| > 0 {
      r := r + [Part(Reasoning, "", [], true)];
      index := |r| - 1;
    }
    r := r[index := r[index].(signature := artifact)];
  }

  // ----- what the reply is, for any stream of events -----

  function DeltaText(kind: Kind, e: Event): (t: string)
  {
    match e
    case TextDelta(text) => if kind == Text then text else ""
    case ReasoningDelta(text) => if kind == Reasoning then text else ""
    case _ => ""
  }

  function ArtifactOf(e: Event): (a: seq<seq<nat>>)
  {
    if e.ReasoningDone? && e.artifact != [] then [e.artifact] else []
  }

  function CallsOf(e: Event): (c: seq<Call>)
  {
    if e.ToolCall? && e.call.Some? then [e.call.value] else []
  }

  function Streamed(kind: Kind, events: seq<Event>): (t: string)
  {
    if events == [] then "" else Streamed(kind, events[..|events| - 1]) + DeltaText(kind, Last(events))
  }

  function Artifacts(events: seq<Event>): (a: seq<seq<nat>>)
  {
    if events == [] then [] else Artifacts(events[..|events| - 1]) + ArtifactOf(Last(events))
  }

  function CallsMade(events: seq<Event>): (c: seq<Call>)
  {
    if events == [] then [] else CallsMade(events[..|events| - 1]) + CallsOf(Last(events))
  }

  /** Only reasoning is signed. */
  predicate OnlyReasoningSigned(parts: seq<Part>)
  {
    forall i :: 0 <= i < |parts| ==> parts[i].signature != [] ==> parts[i].kind == Reasoning
  }

  lemma {:induction false} SignaturesAppend(a: seq<Part>, b: seq<Part>)
    ensures Signatures(a + b) == Signatures(a) + Signatures(b)
  {
    if b == [] {
      assert a + b == a;
    } else {
      assert (a + b)[..|a + b| - 1] == a + b[..|b| - 1];
      SignaturesAppend(a, b[..|b| - 1]);
    }
  }

  lemma {:induction false} TextAppend(a: seq<Part>, b: seq<Part>, k: Kind)
    ensures TextOf(k, a + b) == TextOf(k, a) + TextOf(k, b)
  {
    if b == [] {
      assert a + b == a;
    } else {
      assert (a + b)[..|a + b| - 1] == a + b[..|b| - 1];
      TextAppend(a, b[..|b| - 1], k);
    }
  }

  lemma {:induction false} Unsigned(parts: seq<Part>)
    requires forall i :: 0 <= i < |parts| ==> parts[i].signature == []
    ensures Signatures(parts) == []
  {
    if parts != [] { Unsigned(parts[..|parts| - 1]); }
  }

  lemma SignOnlyReasoning(parts: seq<Part>, artifact: seq<nat>)
    requires OnlyReasoningSigned(parts)
    ensures OnlyReasoningSigned(Sign(parts, artifact))
  {
  }

  /** Signing loses no signature and no text, and adds its own at the end. */
  lemma SignKeeps(parts: seq<Part>, artifact: seq<nat>, k: Kind)
    requires OnlyReasoningSigned(parts)
    ensures Signatures(Sign(parts, artifact)) == Signatures(parts) + if artifact == [] then [] else [artifact]
    ensures TextOf(k, Sign(parts, artifact)) == TextOf(k, parts)
  {
    var i := LastReasoning(parts);
    if i == -1 || parts[i].signature != [] {
      hide TextOf, Signatures;
      PushParts(parts, Part(Reasoning, "", artifact, true));
    } else {
      var a, p, b := parts[..i], parts[i], parts[i + 1..];
      var signed := p.(signature := artifact);
      SplitAt(parts, i, signed);
      assert Sign(parts, artifact) == parts[i := signed];
      Unsigned(b);
      hide Signatures, TextOf, LastReasoning, Sign, OnlyReasoningSigned;
      Resigned(a, p, signed, b, k);
    }
  }

  lemma Resigned(a: seq<Part>, p: Part, signed: Part, b: seq<Part>, k: Kind)
    requires p.signature == [] && signed == p.(signature := signed.signature) && Signatures(b) == []
    ensures Signatures((a + [signed]) + b)
         == Signatures((a + [p]) + b) + if signed.signature == [] then [] else [signed.signature]
    ensures TextOf(k, (a + [signed]) + b) == TextOf(k, (a + [p]) + b)
  {
    hide Signatures, TextOf;
    SignaturesAppend(a + [p], b);
    SignaturesAppend(a + [signed], b);
    TextAppend(a + [p], b, k);
    TextAppend(a + [signed], b, k);
    PushParts(a, p);
    PushParts(a, signed);
  }

  lemma SayAddsText(said: Said, e: Event, k: Kind)
    requires OnlyReasoningSigned(said.parts) && k != Other
    ensures TextOf(k, Say(said, e).parts) == TextOf(k, said.parts) + DeltaText(k, e)
  {
    hide TextOf, Signatures, Blocks, Sign, OnlyReasoningSigned;
    match e
    case TextDelta(text) => PushParts(said.parts, Delta(Text, text));
    case ReasoningDelta(text) => PushParts(said.parts, Delta(Reasoning, text));
    case ReasoningDone(artifact) => SignKeeps(said.parts, artifact, k);
    case ToolCall(call) =>
    case Usage =>
    case Done =>
    case Unknown =>
  }

  lemma SayAddsRest(said: Said, e: Event)
    requires OnlyReasoningSigned(said.parts)
    ensures OnlyReasoningSigned(Say(said, e).parts)
    ensures Signatures(Say(said, e).parts) == Signatures(said.parts) + ArtifactOf(e)
    ensures Say(said, e).calls == said.calls + CallsOf(e)
  {
    hide TextOf, Signatures, Blocks, Sign;
    match e
    case TextDelta(text) => PushParts(said.parts, Delta(Text, text));
    case ReasoningDelta(text) => PushParts(said.parts, Delta(Reasoning, text));
    case ReasoningDone(artifact) =>
      SignKeeps(said.parts, artifact, Text);
      SignOnlyReasoning(said.parts, artifact);
    case ToolCall(call) =>
    case Usage =>
    case Done =>
    case Unknown =>
  }

  /** Over any stream of events: the text and the reasoning are what was streamed,
      no artifact is lost or overwritten, and the calls are those made, in order. */
  lemma {:induction false} SayKeeps(events: seq<Event>, k: Kind)
    requires k != Other
    ensures var said := SayAll(events);
      && OnlyReasoningSigned(said.parts) && TextOf(k, said.parts) == Streamed(k, events)
      && Signatures(said.parts) == Artifacts(events) && said.calls == CallsMade(events)
  {
    if events != [] {
      SayKeeps(events[..|events| - 1], k);
      SayAddsText(SayAll(events[..|events| - 1]), Last(events), k);
      SayAddsRest(SayAll(events[..|events| - 1]), Last(events));
    }
  }

  /** And the stored reply, with its fragments merged, keeps all of it. */
  lemma StoredReplyKeeps(events: seq<Event>)
    ensures var stored := Blocks(SayAll(events).parts);
      && TextOf(Text, stored) == Streamed(Text, events)
      && TextOf(Reasoning, stored) == Streamed(Reasoning, events)
      && Signatures(stored) == Artifacts(events) && Merged(stored)
  {
    SayKeeps(events, Text);
    SayKeeps(events, Reasoning);
    MergeKeeps(SayAll(events).parts);
  }

  function Lengths(artifacts: seq<seq<nat>>): (n: nat)
  {
    if artifacts == [] then 0 else Lengths(artifacts[..|artifacts| - 1]) + |Last(artifacts)|
  }

  function Sizes(calls: seq<Call>): (n: nat)
  {
    if calls == [] then 0 else Sizes(calls[..|calls| - 1]) + Last(calls).size
  }

  lemma LengthsAppend(a: seq<seq<nat>>, b: seq<seq<nat>>)
    requires |b| <= 1
    ensures Lengths(a + b) == Lengths(a) + if b == [] then 0 else |b[0]|
  {
    if b == [] { assert a + b == a; } else { assert (a + b)[..|a|] == a; }
  }

  lemma SizesAppend(a: seq<Call>, b: seq<Call>)
    requires |b| <= 1
    ensures Sizes(a + b) == Sizes(a) + if b == [] then 0 else b[0].size
  {
    if b == [] { assert a + b == a; } else { assert (a + b)[..|a|] == a; }
  }

  /** What the limit bounds: the text, the reasoning, the artifacts and the calls of
      the reply, all together. */
  lemma {:induction false} TotalIs(events: seq<Event>)
    ensures Total(events) == |Streamed(Text, events)| + |Streamed(Reasoning, events)|
      + Lengths(Artifacts(events)) + Sizes(CallsMade(events))
  {
    if events != [] {
      var front, e := events[..|events| - 1], Last(events);
      TotalIs(front);
      LengthsAppend(Artifacts(front), ArtifactOf(e));
      SizesAppend(CallsMade(front), CallsOf(e));
    }
  }
}
