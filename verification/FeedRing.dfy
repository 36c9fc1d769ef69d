/** The memory of a Feed that has no source: a bounded ring of its most recent
    stored Events, which a subscriber that fell behind reads again. */
module FeedRing {
  import opened Seqs
  import opened EventStream
  import opened EventStreamRuns

  /** A read of the ring: the Events, or the error that they were trimmed. */
  datatype RingRead = Batch(events: seq<Event>) | EventsLost

  /** The ring after one more stored Event: a full ring keeps its newer half. */
  function Retained(ring: seq<Event>, cap: nat, e: Event): (r: seq<Event>)
  {
    if |ring| >= cap then ring[|ring| - cap / 2..] + [e] else ring + [e]
  }

  /** The new Event comes last, behind all there were, or behind the newer half of a
      full ring. */
  lemma RetainedIs(ring: seq<Event>, cap: nat, e: Event)
    ensures var r := Retained(ring, cap, e);
      && |r| == (if |ring| < cap then |ring| else cap / 2) + 1 && Last(r) == e
      && forall i :: 0 <= i < |r| - 1 ==> r[i] == ring[|ring| - (|r| - 1) + i]
  {
  }

  /** The ring's Events after a number, at most limit of them (0: all). */
  function TakenAfter(ring: seq<Event>, after: nat, limit: nat): (r: seq<Event>)
  {
    var later := Filter((e: Event) => Number(e) > after, ring);
    if limit == 0 || |later| <= limit then later else later[..limit]
  }

  // ----- what the ring holds -----

  /** The ring holds the published Events after number lo, and lost none before
      the first trim: base is the number before the first published one. */
  ghost predicate Holds(log: seq<nat>, base: nat, lo: nat, last: nat, ring: seq<Event>, dropped: bool)
  {
    && base <= lo <= last <= |log|
    && ring == Window(log, lo, last)
    && (!dropped ==> lo == base)
    && (dropped ==> ring != [])
  }

  lemma WindowDrop(log: seq<nat>, a: nat, b: nat, k: nat)
    requires a <= b <= |log| && k <= b - a
    ensures Window(log, a, b)[k..] == Window(log, a + k, b)
  {
  }

  lemma HoldsNothing(log: seq<nat>)
    ensures Holds(log, |log|, |log|, |log|, [], false)
  {
  }

  /** A publish keeps it: what is trimmed is the oldest. */
  lemma RetainHolds(log: seq<nat>, base: nat, lo: nat, last: nat, ring: seq<Event>, dropped: bool, cap: nat)
    requires Holds(log, base, lo, last, ring, dropped) && last < |log|
    ensures var trim := |ring| >= cap;
      Holds(log, base, if trim then last - cap / 2 else lo, last + 1,
            Retained(ring, cap, Nth(log, last + 1)), dropped || trim)
  {
    if |ring| >= cap {
      WindowDrop(log, lo, last, |ring| - cap / 2);
    }
  }

  lemma {:induction false} LaterThan(log: seq<nat>, lo: nat, last: nat, after: nat)
    requires lo <= last <= |log|
    ensures Filter((e: Event) => Number(e) > after, Window(log, lo, last))
      == Window(log, if after < lo then lo else after, last)
  {
    if lo < last {
      LaterThan(log, lo, last - 1, after);
      FilterAppend((e: Event) => Number(e) > after, Window(log, lo, last - 1), [Nth(log, last)]);
      assert [Nth(log, last)][..0] == [];
    }
  }

  /** What a read of the ring returns, whatever was published and trimmed: the
      published Events from the first retained one that is after the number. */
  lemma RingReadIsWindow(log: seq<nat>, base: nat, lo: nat, last: nat, ring: seq<Event>,
      dropped: bool, after: nat, limit: nat)
    requires Holds(log, base, lo, last, ring, dropped)
    ensures var from := if after < lo then lo else after;
      var batch := TakenAfter(ring, after, limit);
      && (batch != [] ==> from + |batch| <= last)
      && batch == Window(log, from, from + |batch|)
      && (batch == [] <==> last <= from)
      && (batch != [] ==> |batch| == if 0 < limit < last - from then limit else last - from)
  {
    hide Filter, Window;
    LaterThan(log, lo, last, after);
    var from := if after < lo then lo else after;
    var batch := TakenAfter(ring, after, limit);
    assert batch <= Window(log, from, last);
    assert forall i :: 0 <= i < |batch| ==> batch[i] == Nth(log, from + 1 + i);
  }

  /** More published Events leave the ring the same window. */
  lemma HoldsMore(log: seq<nat>, base: nat, lo: nat, last: nat, ring: seq<Event>, dropped: bool, body: nat)
    requires Holds(log, base, lo, last, ring, dropped)
    ensures Holds(log + [body], base, lo, last, ring, dropped)
  {
    hide Window;
    assert Window(log + [body], lo, last) == Window(log, lo, last);
  }

  /** A read starts right after the number it was asked for, or fails loudly,
      unless the ring was never trimmed and its first Event is past that: then it
      passes over the Events in between without an error. A Feed that numbers
      its Session from 1 has base 0, and never does. */
  lemma RingSkipsSilently(log: seq<nat>, base: nat, lo: nat, last: nat, ring: seq<Event>,
      dropped: bool, after: nat, limit: nat)
    requires Holds(log, base, lo, last, ring, dropped) && ring != []
    ensures var lost := dropped && Number(ring[0]) > after + 1;
      var batch := TakenAfter(ring, after, limit);
      (!lost && batch != [] && Number(batch[0]) != after + 1) <==> (!dropped && after < base)
  {
    RingReadIsWindow(log, base, lo, last, ring, dropped, after, limit);
    assert Number(ring[0]) == lo + 1;
  }

  /** A read of the ring: an error when the Events right after the number were trimmed. */
  function ReadAfter(ring: seq<Event>, dropped: bool, after: nat, limit: nat): (read: RingRead)
  {
    if dropped && ring != [] && Number(ring[0]) > after + 1 then EventsLost
    else Batch(TakenAfter(ring, after, limit))
  }

  lemma ReadMeans(ring: seq<Event>, dropped: bool, after: nat, limit: nat)
    ensures var read := ReadAfter(ring, dropped, after, limit);
      && (read.EventsLost? <==> dropped && ring != [] && Number(ring[0]) > after + 1)
      && (read.Batch? ==>
            && (forall e :: e in read.events ==> e in ring && Number(e) > after)
            && (limit == 0 || |read.events| < limit ==> forall e :: e in ring && Number(e) > after ==> e in read.events)
            && (limit > 0 ==> |read.events| <= limit))
  {
    var later := (e: Event) => Number(e) > after;
    forall e ensures e in Filter(later, ring) <==> e in ring && Number(e) > after { FilterMember(later, ring, e); }
  }

  class Feed {
    const cap: nat
    var ring: seq<Event>
    var dropped: bool
    var last: nat
    var count: nat
    var closed: bool
    ghost var log: seq<nat>    // the stored Events published, by number
    ghost var base: nat        // the number before the first of them
    ghost var lo: nat          // the number before the first that is retained

    constructor (cap: nat)
      ensures this.cap == cap && ring == [] && !dropped && last == 0 && count == 0 && !closed
      ensures Valid() && log == []
    {
      this.cap := cap;
      ring, dropped, last, count, closed := [], false, 0, 0, false;
      log, base, lo := [], 0, 0;
    }

    /** The ring is a window on what was published, up to the last of it. */
    ghost predicate Valid()
      reads this
    {
      if log == [] then ring == [] && !dropped && last == 0
      else last == |log| && base < last && ring != [] && Holds(log, base, lo, last, ring, dropped)
    }

    /** The number a stored Event has: one more than the last, and any to begin with. */
    ghost predicate Follows(e: Event)
      reads this
    {
      e.Stored? && (if log == [] then e.number > 0 else e.number == last + 1)
    }

    /** Before the first stored Event the window is empty, wherever its number puts it. */
    ghost method Log(e: Event)
      requires Valid() && Follows(e)
      modifies this`log, this`base, this`lo
      ensures |log| == e.number && Last(log) == e.body && base < e.number
      ensures Holds(log, base, lo, e.number, Retained(ring, cap, e), dropped || |ring| >= cap)
      ensures if old(log) == [] then base == e.number - 1 else log == old(log) + [e.body] && base == old(base)
    {
      hide Window, Holds, Retained;
      if log == [] {
        log, base, lo := seq(e.number - 1, _ => 0), e.number - 1, e.number - 1;
        HoldsNothing(log);
      }
      HoldsMore(log, base, lo, e.number - 1, ring, dropped, e.body);
      log := log + [e.body];
      RetainHolds(log, base, lo, e.number - 1, ring, dropped, cap);
      if |ring| >= cap { lo := e.number - 1 - cap / 2; }
    }

    method Retain(e: Event)
      modifies this`ring, this`dropped
      ensures ring == Retained(old(ring), cap, e) && ring != []
      ensures dropped == (old(dropped) || |old(ring)| >= cap)
    {
      if |ring| >= cap {
        ring := ring[|ring| - cap / 2..];
        dropped := true;
      }
      ring := ring + [e];
    }

    method Publish(e: Event)
      modifies this
      ensures closed == old(closed)
      ensures closed || !e.Stored? ==> ring == old(ring) && dropped == old(dropped) && last == old(last)
      ensures !closed && e.Stored? ==>
        && ring == Retained(old(ring), cap, e)
        && (dropped <==> old(dropped) || |old(ring)| >= cap)
        && last == (if e.number > old(last) then e.number else old(last))
      ensures count == if closed then old(count) else old(count) + 1
      ensures old(Valid()) && (closed || !e.Stored?) ==> Valid() && log == old(log) && base == old(base)
      ensures old(Valid()) && !closed && old(Follows(e)) ==>
        && Valid() && Nth(log, |log|) == e
        && (if old(log) == [] then base == e.number - 1 else log == old(log) + [e.body] && base == old(base))
    {
      hide Holds, Window, Retained;
      if closed { return; }
      if e.Stored? {
        ghost var follows := Valid() && Follows(e);
        if follows { Log(e); }
        if e.number > last { last := e.number; }
        Retain(e);
      }
      count := count + 1;
    }

    method EventsAfter(after: nat, limit: nat) returns (read: RingRead)
      ensures read == ReadAfter(ring, dropped, after, limit)
      ensures read.EventsLost? <==> dropped && ring != [] && Number(ring[0]) > after + 1
      ensures read.Batch? ==>
        && (forall e :: e in read.events ==> e in ring && Number(e) > after)
        && (limit == 0 || |read.events| < limit ==> forall e :: e in ring && Number(e) > after ==> e in read.events)
        && (limit > 0 ==> |read.events| <= limit)
    {
      hide Window, Holds, Retained;
      ReadMeans(ring, dropped, after, limit);
      if dropped && |ring| > 0 && Number(ring[0]) > after + 1 { return EventsLost; }
      var out := [];
      var later := (e: Event) => Number(e) > after;
      for i := 0 to |ring|
        invariant out == Filter(later, ring[..i])
        invariant limit == 0 || |out| < limit || (i == 0 && out == [])
      {
        assert ring[..i + 1][..i] == ring[..i];
        if Number(ring[i]) > after {
          out := out + [ring[i]];
          if |out| == limit {
            assert ring == ring[..i + 1] + ring[i + 1..];
            FilterAppend(later, ring[..i + 1], ring[i + 1..]);
            return Batch(out);
          }
        }
      }
      assert ring[..|ring|] == ring;
      return Batch(out);
    }

    /** After any publishes, a read of the Feed returns published Events with no gap
        between them, none only when there is none after the number, and starts with
        the one after the number or fails. The one exception is a read, of a ring that
        was never trimmed, from before the first publish. */
    lemma ReadsInOrder(after: nat, limit: nat)
      requires Valid()
      ensures var read := ReadAfter(ring, dropped, after, limit);
        && (read.Batch? && read.events == [] ==> last <= after || log == [])
        && (read.Batch? && read.events != [] ==>
              var from := if after < lo then lo else after;
              && from + |read.events| <= |log| && read.events == Window(log, from, from + |read.events|)
              && (from == after || (!dropped && after < base == lo))
              && |read.events| == (if 0 < limit < last - from then limit else last - from))
        && (read.EventsLost? ==> dropped && after < lo)
    {
      if log != [] {
        RingReadIsWindow(log, base, lo, last, ring, dropped, after, limit);
        RingSkipsSilently(log, base, lo, last, ring, dropped, after, limit);
      } else {
        assert TakenAfter([], after, limit) == [];
      }
    }
  }

  /** The gap no error tells of: a Feed whose first stored Event is number 5, read
      after number 2. */
  method SkipsSilently() returns (read: RingRead)
    ensures read == Batch([Stored(5, 0)])
  {
    var feed := new Feed(4);
    feed.Publish(Stored(5, 0));
    assert TakenAfter([Stored(5, 0)], 2, 0) == [Stored(5, 0)] by { assert [Stored(5, 0)][..0] == []; }
    read := feed.EventsAfter(2, 0);
  }
}
