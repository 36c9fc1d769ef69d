/** The store as the streams see it: the epoch of each Session's Record. A
    Record created again has an epoch that was never used; epochs are numbered
    here in the order of their creation, and the host only ever compares them
    for equality. */
module RecordStore {
  import opened Seqs

  datatype Store = Store(records: map<nat, nat>, clock: nat)

  datatype Change = Create(session: nat) | Delete(session: nat)

  predicate Sound(s: Store)
  {
    forall id :: id in s.records ==> s.records[id] <= s.clock
  }

  function Epoch(s: Store, session: nat): (e: Option<nat>)
  {
    if session in s.records then Some(s.records[session]) else None
  }

  /** A create finds no Record under the ID; a delete of nothing changes nothing. */
  function Changed(s: Store, c: Change): (s': Store)
  {
    match c
    case Create(id) =>
      if id in s.records then s else Store(s.records[id := s.clock + 1], s.clock + 1)
    case Delete(id) => s.(records := s.records - {id})
  }

  function AllChanged(s: Store, cs: seq<Change>): (s': Store)
    decreases |cs|
  {
    if cs == [] then s else AllChanged(Changed(s, cs[0]), cs[1..])
  }

  /** The epoch is not the Session's Record's, and was used before. */
  predicate Replaced(s: Store, session: nat, epoch: nat)
  {
    epoch <= s.clock && (session in s.records ==> epoch < s.records[session])
  }

  lemma {:induction false} ReplacedForGood(s: Store, cs: seq<Change>, session: nat, epoch: nat)
    requires Sound(s) && Replaced(s, session, epoch)
    ensures Sound(AllChanged(s, cs)) && Replaced(AllChanged(s, cs), session, epoch)
    ensures Epoch(AllChanged(s, cs), session) != Some(epoch)
    decreases |cs|
  {
    if cs != [] { ReplacedForGood(Changed(s, cs[0]), cs[1..], session, epoch); }
  }

  /** An epoch never comes back: one that is the Record's before and after some
      changes was the Record's all along. */
  lemma {:induction false} NeverComesBack(s: Store, cs: seq<Change>, i: nat, session: nat, epoch: nat)
    requires Sound(s) && i <= |cs|
    requires Epoch(s, session) == Some(epoch) && Epoch(AllChanged(s, cs), session) == Some(epoch)
    ensures Epoch(AllChanged(s, cs[..i]), session) == Some(epoch)
    decreases |cs|
  {
    if i > 0 {
      var s' := Changed(s, cs[0]);
      if Epoch(s', session) != Some(epoch) { ReplacedForGood(s', cs[1..], session, epoch); }
      NeverComesBack(s', cs[1..], i - 1, session, epoch);
      assert cs[..i][1..] == cs[1..][..i - 1];
    }
  }
}
