/** The queue of the messages that wait for a Run, in the order they were
    accepted, and the lease a Run takes messages under: each is settled, or goes
    back to the place its acceptance gave it. */
module ControlQueue {
  import opened Seqs

  datatype Source = SteerMessage | InterruptMessage | FollowUpMessage | NoticeMessage

  datatype Kind = Steer | FollowUp | Notice

  /** A message that waits. kind is the queue it waits in, which a requeued
      message's source need not be. */
  datatype Control = Control(order: nat, message: nat, source: Source, kind: Kind, number: nat)

  datatype PerKind = PerKind(steer: nat, followUp: nat, notice: nat) {
    function At(k: Kind): (n: nat)
    {
      match k
      case Steer => steer
      case FollowUp => followUp
      case Notice => notice
    }

    function With(k: Kind, n: nat): (r: PerKind)
      ensures r.At(k) == n && forall j :: j != k ==> r.At(j) == At(j)
    {
      match k
      case Steer => this.(steer := n)
      case FollowUp => this.(followUp := n)
      case Notice => this.(notice := n)
    }
  }

  datatype Queue = Queue(items: seq<Control>, held: PerKind, limit: PerKind, sealed: bool, last: nat)

  function KindOf(source: Source): (k: Kind)
  {
    match source
    case FollowUpMessage => FollowUp
    case NoticeMessage => Notice
    case _ => Steer
  }

  // ----- what each locked step does -----

  function Count(items: seq<Control>, kind: Kind): (n: nat)
    ensures n <= |items|
  {
    if items == [] then 0
    else Count(items[..|items| - 1], kind) + if items[|items| - 1].kind == kind then 1 else 0
  }

  /** The places in the queue where a message of the kind waits. */
  ghost function PlacesOf(items: seq<Control>, kind: Kind): (places: set<nat>)
  {
    set i: nat | i < |items| && items[i].kind == kind
  }

  lemma PlacesPush(items: seq<Control>, kind: Kind)
    requires items != []
    ensures var n := |items| - 1; var before := PlacesOf(items[..n], kind);
      n !in before && PlacesOf(items, kind) == if items[n].kind == kind then before + {n} else before
  {
  }

  /** The count of a kind is the number of its places. */
  lemma {:induction false} CountIsPlaces(items: seq<Control>, kind: Kind)
    ensures Count(items, kind) == |PlacesOf(items, kind)|
  {
    if items != [] {
      PlacesPush(items, kind);
      hide PlacesOf;
      CountIsPlaces(items[..|items| - 1], kind);
    }
  }

  /** Waiting and held places of the kind are below its limit. */
  ghost predicate HasRoom(q: Queue, kind: Kind)
  {
    |PlacesOf(q.items, kind)| + q.held.At(kind) < q.limit.At(kind)
  }

  predicate Full(q: Queue, kind: Kind)
  {
    Count(q.items, kind) + q.held.At(kind) >= q.limit.At(kind)
  }

  function Reserved(q: Queue, kind: Kind): (r: Queue)
  {
    if Full(q, kind) then q else q.(held := q.held.With(kind, q.held.At(kind) + 1))
  }

  function Released(q: Queue, kind: Kind): (r: Queue)
    requires q.held.At(kind) > 0
  {
    q.(held := q.held.With(kind, q.held.At(kind) - 1))
  }

  function Enqueued(q: Queue, c: Control): (r: Queue)
  {
    q.(last := q.last + 1, items := q.items + [c.(order := q.last + 1)])
  }

  function Filled(q: Queue, c: Control): (r: Queue)
    requires q.held.At(c.kind) > 0
  {
    if q.sealed then Released(q, c.kind) else Enqueued(Released(q, c.kind), c)
  }

  function Added(q: Queue, c: Control): (r: Queue)
  {
    if q.sealed || Full(q, c.kind) then q else Enqueued(q, c)
  }

  predicate Continues(c: Control, settling: bool)
  {
    c.kind == Steer || (settling && c.kind == FollowUp)
  }

  /** What a Run takes at a boundary. At settlement a notice goes only along
      with a message that keeps the Run going. */
  predicate Takes(items: seq<Control>, settling: bool, c: Control)
  {
    Continues(c, settling)
    || (c.kind == Notice && (!settling || exists i :: 0 <= i < |items| && Continues(items[i], settling)))
  }

  function Picked(items: seq<Control>, settling: bool): (r: seq<Control>)
  {
    Filter(c => Takes(items, settling, c), items)
  }

  function Left(items: seq<Control>, settling: bool): (r: seq<Control>)
  {
    Filter(c => !Takes(items, settling, c), items)
  }

  function EarlierThan(): (less: (Control, Control) -> bool)
    ensures forall a, b :: less(a, b) <==> a.order < b.order
  {
    (a: Control, b: Control) => a.order < b.order
  }

  function PutBack(items: seq<Control>, rest: seq<Control>): (r: seq<Control>)
  {
    if rest == [] then items else Sort(EarlierThan(), rest + items)
  }

  // ----- the queue and its leases, changed in place -----

  class MessageQueue {
    const limit: PerKind
    var items: seq<Control>
    var held: PerKind
    var isSealed: bool
    var lastOrder: nat

    function State(): (q: Queue)
      reads this
    {
      Queue(items, held, limit, isSealed, lastOrder)
    }

    constructor (steer: nat, followUp: nat, notice: nat)
      ensures State() == Queue([], PerKind(0, 0, 0), PerKind(steer, followUp, notice), false, 0)
    {
      limit := PerKind(steer, followUp, notice);
      items, held, isSealed, lastOrder := [], PerKind(0, 0, 0), false, 0;
    }

    method CountKind(kind: Kind) returns (n: nat)
      ensures n == Count(items, kind) == |PlacesOf(items, kind)|
    {
      n := 0;
      for i := 0 to |items|
        invariant n == Count(items[..i], kind)
      {
        assert items[..i + 1][..i] == items[..i];
        if items[i].kind == kind { n := n + 1; }
      }
      assert items[..|items|] == items;
      CountIsPlaces(items, kind);
    }

    method Reserve(kind: Kind) returns (ok: bool)
      modifies this
      ensures ok <==> !Full(old(State()), kind)
      ensures State() == Reserved(old(State()), kind)
      ensures ok <==> HasRoom(old(State()), kind)
      ensures held == if ok then old(held).With(kind, old(held).At(kind) + 1) else old(held)
      ensures items == old(items) && isSealed == old(isSealed) && lastOrder == old(lastOrder)
    {
      var n := CountKind(kind);
      if n + held.At(kind) >= limit.At(kind) { return false; }
      held := held.With(kind, held.At(kind) + 1);
      return true;
    }

    method Release(kind: Kind)
      requires held.At(kind) > 0
      modifies this
      ensures State() == Released(old(State()), kind)
      ensures held == old(held).With(kind, old(held).At(kind) - 1)
      ensures items == old(items) && isSealed == old(isSealed) && lastOrder == old(lastOrder)
    {
      held := held.With(kind, held.At(kind) - 1);
    }

    method Fill(c: Control) returns (ok: bool)
      requires held.At(c.kind) > 0
      modifies this
      ensures ok <==> !old(isSealed)
      ensures State() == Filled(old(State()), c)
      ensures held == old(held).With(c.kind, old(held).At(c.kind) - 1) && isSealed == old(isSealed)
      ensures lastOrder == old(lastOrder) + if ok then 1 else 0
      ensures items == old(items) + if ok then [c.(order := old(lastOrder) + 1)] else []
    {
      held := held.With(c.kind, held.At(c.kind) - 1);
      if isSealed { return false; }
      lastOrder := lastOrder + 1;
      items := items + [c.(order := lastOrder)];
      return true;
    }

    method Add(c: Control) returns (ok: bool)
      modifies this
      ensures ok <==> !old(isSealed) && !Full(old(State()), c.kind)
      ensures State() == Added(old(State()), c)
      ensures ok <==> !old(isSealed) && HasRoom(old(State()), c.kind)
      ensures held == old(held) && isSealed == old(isSealed)
      ensures lastOrder == old(lastOrder) + if ok then 1 else 0
      ensures items == old(items) + if ok then [c.(order := old(lastOrder) + 1)] else []
    {
      var n := CountKind(c.kind);
      if isSealed || n + held.At(c.kind) >= limit.At(c.kind) { return false; }
      lastOrder := lastOrder + 1;
      items := items + [c.(order := lastOrder)];
      return true;
    }

    method Interrupting() returns (yes: bool)
      ensures yes <==> exists i :: 0 <= i < |items| && items[i].source == InterruptMessage
    {
      yes := false;
      for i := 0 to |items|
        invariant !yes
        invariant forall j :: 0 <= j < i ==> items[j].source != InterruptMessage
      {
        if items[i].source == InterruptMessage { return true; }
      }
    }

    /** Removes what pick selects, in place, and returns it in order. */
    method Split(pick: Control -> bool) returns (out: seq<Control>)
      modifies this`items
      ensures out == Filter(pick, old(items))
      ensures items == Filter(c => !pick(c), old(items))
    {
      out := [];
      var kept: seq<Control> := [];
      ghost var unpicked := (c: Control) => !pick(c);
      for i := 0 to |items|
        invariant items == old(items)
        invariant out == Filter(pick, items[..i])
        invariant kept == Filter(unpicked, items[..i])
      {
        assert items[..i + 1][..i] == items[..i];
        if pick(items[i]) { out := out + [items[i]]; } else { kept := kept + [items[i]]; }
      }
      assert items[..|items|] == items;
      items := kept;
      SameFilter(unpicked, c => !pick(c), old(items));
    }

    method Take(settling: bool) returns (lease: Lease)
      modifies this`items
      ensures fresh(lease) && lease.q == this && lease.settled == 0
      ensures lease.items == Picked(old(items), settling)
      ensures items == Left(old(items), settling)
      ensures forall c :: c in lease.items <==> c in old(items) && Applies(old(items), settling, c)
      ensures forall c :: c in items <==> c in old(items) && !Applies(old(items), settling, c)
    {
      var withNotices := !settling;
      var i := 0;
      while i < |items| && !withNotices
        invariant i <= |items|
        invariant withNotices <==> !settling || exists j :: 0 <= j < i && Continues(items[j], settling)
      {
        if items[i].kind == Steer || (settling && items[i].kind == FollowUp) { withNotices := true; }
        i := i + 1;
      }
      var pick := (c: Control) =>
        c.kind == Steer || (settling && c.kind == FollowUp) || (withNotices && c.kind == Notice);
      var was := items;
      var taken := Split(pick);
      SameFilter(pick, c => Takes(was, settling, c), was);
      SameFilter(c => !pick(c), c => !Takes(was, settling, c), was);
      lease := new Lease(this, taken);
      TakeIs(was, settling);
    }

    method TakeNotices() returns (lease: Lease)
      modifies this`items
      ensures fresh(lease) && lease.q == this && lease.settled == 0
      ensures lease.items == Filter((c: Control) => c.kind == Notice, old(items))
      ensures items == Filter((c: Control) => c.kind != Notice, old(items))
    {
      var was := items;
      var taken := Split((c: Control) => c.kind == Notice);
      SameFilter(c => !((d: Control) => d.kind == Notice)(c), (c: Control) => c.kind != Notice, was);
      lease := new Lease(this, taken);
    }

    method Drain(withNotices: bool) returns (out: seq<Control>)
      modifies this`items
      ensures out == Filter((c: Control) => withNotices || c.kind != Notice, old(items))
      ensures items == Filter((c: Control) => !(withNotices || c.kind != Notice), old(items))
    {
      var was := items;
      out := Split((c: Control) => withNotices || c.kind != Notice);
      SameFilter(c => !((d: Control) => withNotices || d.kind != Notice)(c),
                 (c: Control) => !(withNotices || c.kind != Notice), was);
    }

    method Seal() returns (out: seq<Control>)
      modifies this
      ensures out == old(items) && State() == old(State()).(items := [], sealed := true)
    {
      isSealed := true;
      out := items;
      items := [];
    }
  }

  class Lease {
    const q: MessageQueue
    const items: seq<Control>
    var settled: nat

    constructor (q: MessageQueue, items: seq<Control>)
      ensures this.q == q && this.items == items && settled == 0
    {
      this.q, this.items, settled := q, items, 0;
    }

    method Done()
      requires settled < |items|
      modifies this
      ensures settled == old(settled) + 1
    {
      settled := settled + 1;
    }

    method Return()
      requires settled <= |items|
      modifies this, q`items
      ensures settled == |items|
      ensures q.items == PutBack(old(q.items), items[old(settled)..])
    {
      var rest := items[settled..];
      if |rest| == 0 { return; }
      q.items := Sort(EarlierThan(), rest + q.items);
      settled := |items|;
    }
  }

  lemma {:induction false} SameFilter<T>(p: T -> bool, r: T -> bool, s: seq<T>)
    requires forall x :: x in s ==> p(x) == r(x)
    ensures Filter(p, s) == Filter(r, s)
  {
    if s != [] {
      assert s == s[..|s| - 1] + [s[|s| - 1]];
      SameFilter(p, r, s[..|s| - 1]);
    }
  }

  // ----- order -----

  /** Acceptance order: strictly by order, none past the last one given out. */
  ghost predicate Ordered(items: seq<Control>, last: nat)
  {
    Ascending(EarlierThan(), items) && forall c :: c in items ==> c.order <= last
  }

  lemma EnqueueOrdered(q: Queue, c: Control)
    requires Ordered(q.items, q.last)
    ensures Ordered(Enqueued(q, c).items, Enqueued(q, c).last)
  {
    var items := Enqueued(q, c).items;
    forall i, j | 0 <= i < j < |items| ensures items[i].order < items[j].order
    {
      assert q.items[i] in q.items;
      assert j < |q.items| ==> EarlierThan()(q.items[i], q.items[j]);
    }
  }

  lemma FilterOrdered(keep: Control -> bool, items: seq<Control>, last: nat)
    requires Ordered(items, last)
    ensures Ordered(Filter(keep, items), last)
  {
    FilterAscending(EarlierThan(), keep, items);
    forall c | c in Filter(keep, items) ensures c.order <= last { FilterMember(keep, items, c); }
  }

  /** A lease and the queue it came from never hold one place twice. */
  ghost predicate Apart(a: seq<Control>, b: seq<Control>)
  {
    forall x, y :: x in a && y in b ==> x.order != y.order
  }

  lemma SplitApart(keep: Control -> bool, items: seq<Control>)
    requires Ascending(EarlierThan(), items)
    ensures Apart(Filter(keep, items), Filter(c => !keep(c), items))
  {
    forall x, y | x in Filter(keep, items) && y in Filter(c => !keep(c), items) ensures x.order != y.order
    {
      FilterMember(keep, items, x);
      FilterMember(c => !keep(c), items, y);
      var i :| 0 <= i < |items| && items[i] == x;
      var j :| 0 <= j < |items| && items[j] == y;
      assert i < j ==> EarlierThan()(items[i], items[j]);
      assert j < i ==> EarlierThan()(items[j], items[i]);
    }
  }

  /** Putting a lease back gives the one ordered arrangement of what it held and
      what waits now. */
  lemma PutBackOrdered(items: seq<Control>, rest: seq<Control>, last: nat)
    requires Ordered(items, last) && Ordered(rest, last) && Apart(rest, items)
    ensures Ordered(PutBack(items, rest), last)
    ensures multiset(PutBack(items, rest)) == multiset(rest) + multiset(items)
  {
    if rest != [] {
      var all := rest + items;
      forall i, j | 0 <= i < j < |all| ensures EarlierThan()(all[i], all[j]) || EarlierThan()(all[j], all[i])
      {
        if j < |rest| {
          assert EarlierThan()(rest[i], rest[j]);
        } else if i >= |rest| {
          assert EarlierThan()(items[i - |rest|], items[j - |rest|]);
        } else {
          assert rest[i] in rest && items[j - |rest|] in items;
        }
      }
      SortAscending(EarlierThan(), all);
      SameElements(PutBack(items, rest), all);
      forall c | c in PutBack(items, rest) ensures c.order <= last
      {
        assert c in all;
      }
    }
  }

  /** Round trip: messages taken under any pick, the first k of them settled, new
      ones accepted meanwhile, and the rest put back, leave exactly the old queue
      without the settled ones, with the new arrivals after it. */
  lemma LeaseRoundTrip(was: seq<Control>, last: nat, pick: Control -> bool, k: nat, arrived: seq<Control>, last': nat)
    requires Ordered(was, last)
    requires k <= |Filter(pick, was)|
    requires Ascending(EarlierThan(), arrived) && forall c :: c in arrived ==> last < c.order <= last'
    requires last <= last'
    ensures var lease := Filter(pick, was);
      PutBack(Filter(c => !pick(c), was) + arrived, lease[k..])
        == Filter(c => c !in lease[..k], was) + arrived
  {
    var lease, left := Filter(pick, was), Filter(c => !pick(c), was);
    var rest, settled := lease[k..], lease[..k];
    var want := Filter(c => c !in settled, was) + arrived;
    var got := PutBack(left + arrived, rest);
    FilterOrdered(pick, was, last);
    FilterOrdered(c => !pick(c), was, last);
    FilterOrdered(c => c !in settled, was, last);
    assert lease == settled + rest;
    OrderedConcat(left, arrived, last, last');
    OrderedConcat(Filter(c => c !in settled, was), arrived, last, last');
    OrderedSuffix(lease, k, last);
    SplitApart(pick, was);
    PutBackOrdered(left + arrived, rest, last');
    forall c ensures c in got <==> c in want
    {
      FilterMember(pick, was, c);
      FilterMember(x => !pick(x), was, c);
      FilterMember(x => x !in settled, was, c);
      assert c in got <==> c in multiset(got);
      assert c in multiset(got) <==> c in rest || c in left + arrived;
      assert c in lease <==> c in settled || c in rest;
    }
    AscendingUnique(EarlierThan(), got, want);
  }

  lemma OrderedConcat(a: seq<Control>, b: seq<Control>, last: nat, last': nat)
    requires Ordered(a, last) && last <= last'
    requires Ascending(EarlierThan(), b) && forall c :: c in b ==> last < c.order <= last'
    ensures Ordered(a + b, last')
  {
    var s := a + b;
    forall i, j | 0 <= i < j < |s| ensures EarlierThan()(s[i], s[j])
    {
      if j < |a| {
        assert EarlierThan()(a[i], a[j]);
      } else if i >= |a| {
        assert EarlierThan()(b[i - |a|], b[j - |a|]);
      } else {
        assert a[i] in a && b[j - |a|] in b;
      }
    }
  }

  lemma OrderedSuffix(s: seq<Control>, k: nat, last: nat)
    requires Ordered(s, last) && k <= |s|
    ensures Ordered(s[k..], last)
  {
    forall i, j | 0 <= i < j < |s| - k ensures EarlierThan()(s[k..][i], s[k..][j])
    {
      assert EarlierThan()(s[k + i], s[k + j]);
    }
  }

  // ----- what a Run takes -----

  /** What a boundary is for: a Steer or an Interrupt always; a FollowUp when the Run
      is settling; a notice when it is not, or with any that is no notice. */
  ghost predicate Applies(items: seq<Control>, settling: bool, c: Control)
  {
    match c.kind
    case Steer => true
    case FollowUp => settling
    case Notice => !settling || exists other :: other in items && other.kind != Notice
  }

  /** A take has exactly what applies, and leaves exactly the rest. */
  lemma TakeIs(items: seq<Control>, settling: bool)
    ensures forall c :: c in Picked(items, settling) <==> c in items && Applies(items, settling, c)
    ensures forall c :: c in Left(items, settling) <==> c in items && !Applies(items, settling, c)
  {
    forall c
      ensures c in Picked(items, settling) <==> c in items && Applies(items, settling, c)
      ensures c in Left(items, settling) <==> c in items && !Applies(items, settling, c)
    {
      FilterMember(x => Takes(items, settling, x), items, c);
      FilterMember(x => !Takes(items, settling, x), items, c);
      if other :| other in items && other.kind != Notice {
        var i :| 0 <= i < |items| && items[i] == other;
        assert settling ==> Continues(items[i], settling);
      }
    }
  }

  /** A notice never keeps a Run going: at settlement nothing is taken unless a
      Steer, Interrupt or FollowUp waits. */
  lemma NoticesAloneWait(items: seq<Control>)
    requires forall c :: c in items ==> c.kind == Notice
    ensures Picked(items, true) == [] && Left(items, true) == items
  {
    FilterNone(c => Takes(items, true, c), items);
    FilterAll(c => !Takes(items, true, c), items);
  }

  /** A take loses nothing, and returns what it takes in acceptance order. */
  lemma TakeSplits(items: seq<Control>, settling: bool, last: nat)
    requires Ordered(items, last)
    ensures multiset(items) == multiset(Picked(items, settling)) + multiset(Left(items, settling))
    ensures Ordered(Picked(items, settling), last) && Ordered(Left(items, settling), last)
    ensures Apart(Picked(items, settling), Left(items, settling))
    ensures forall c :: c in Left(items, settling) ==> !Continues(c, settling)
  {
    hide Filter;
    var pick := (c: Control) => Takes(items, settling, c);
    FilterMultiset(pick, c => !Takes(items, settling, c), items);
    SameFilter(c => !pick(c), c => !Takes(items, settling, c), items);
    FilterOrdered(pick, items, last);
    FilterOrdered(c => !pick(c), items, last);
    SplitApart(pick, items);
    forall c | c in Left(items, settling) ensures !Continues(c, settling)
    {
      FilterMember(c => !Takes(items, settling, c), items, c);
    }
  }
}
