/** The function names a provider is shown for Tool IDs, and the way back. The hash
    is any function to 64 hexadecimal digits. */
module FunctionNames {
  import opened Seqs

  const MAX_NAME := 64

  predicate Safe(c: char)
  {
    'a' <= c <= 'z' || 'A' <= c <= 'Z' || '0' <= c <= '9' || c == '_' || c == '-'
  }

  predicate Hex(c: char)
  {
    '0' <= c <= '9' || 'a' <= c <= 'f'
  }

  /** What a provider accepts as a function name. */
  predicate Allowed(name: string)
  {
    1 <= |name| <= MAX_NAME && forall i :: 0 <= i < |name| ==> Safe(name[i])
  }

  ghost predicate HexHash(hash: string -> string)
  {
    forall id :: |hash(id)| == 64 && forall i :: 0 <= i < 64 ==> Hex(hash(id)[i])
  }

  function Sanitize(id: string): (name: string)
    ensures |name| == |id|
    ensures forall i :: 0 <= i < |name| ==> name[i] == if Safe(id[i]) then id[i] else '_'
  {
    seq(|id|, i requires 0 <= i < |id| => if Safe(id[i]) then id[i] else '_')
  }

  predicate Plain(id: string)
  {
    id != "" && |id| <= MAX_NAME && Sanitize(id) == id
  }

  function HashedName(hash: string -> string, id: string): (name: string)
    requires |hash(id)| == 64
  {
    var clean := Sanitize(id);
    var prefix := if |clean| > MAX_NAME - 17 then clean[..MAX_NAME - 17] else clean;
    (if prefix == "" then "tool" else prefix) + "_" + hash(id)[..16]
  }

  function ProviderName(hash: string -> string, id: string): (name: string)
    requires |hash(id)| == 64
  {
    var name := Sanitize(id);
    if name == "" then HashedName(hash, id)
    else if |name| > MAX_NAME then name[..MAX_NAME - 9] + "_" + hash(id)[..8]
    else name
  }

  predicate Taken(names: map<string, string>, name: string, id: string)
  {
    name in names && names[name] != id
  }

  /** The name an ID gets: its own, or the hashed one when that belongs to another. */
  function NameFor(hash: string -> string, names: map<string, string>, id: string): (name: Option<string>)
    requires |hash(id)| == 64
  {
    if !Taken(names, ProviderName(hash, id), id) then Some(ProviderName(hash, id))
    else if !Taken(names, HashedName(hash, id), id) then Some(HashedName(hash, id))
    else None
  }

  function AssignAll(hash: string -> string, names: map<string, string>, ids: seq<string>)
      : (r: Option<map<string, string>>)
    requires HexHash(hash)
  {
    if ids == [] then Some(names) else
    match AssignAll(hash, names, ids[..|ids| - 1])
    case None => None
    case Some(m) =>
      match NameFor(hash, m, Last(ids))
      case None => None
      case Some(name) => Some(m[name := Last(ids)])
  }

  function PlainNames(ids: seq<string>): (m: map<string, string>)
  {
    map id | id in ids && Plain(id) :: id
  }

  function Names(hash: string -> string, ids: seq<string>): (r: Option<map<string, string>>)
    requires HexHash(hash)
  {
    AssignAll(hash, PlainNames(ids), ids)
  }

  // ----- the table, filled in place -----

  class NameTable {
    const hash: string -> string
    var names: map<string, string>

    constructor (hash: string -> string)
      ensures this.hash == hash && names == map[]
    {
      this.hash, names := hash, map[];
    }

    method Assign(id: string) returns (name: Option<string>)
      requires HexHash(hash)
      modifies this
      ensures name == NameFor(hash, old(names), id)
      ensures names == if name.Some? then old(names)[name.value := id] else old(names)
      ensures var own, hashed := ProviderName(hash, id), HashedName(hash, id);
        if own !in old(names) || old(names)[own] == id then name == Some(own)
        else if hashed !in old(names) || old(names)[hashed] == id then name == Some(hashed)
        else name == None
    {
      var n := ProviderName(hash, id);
      if n in names && names[n] != id {
        n := HashedName(hash, id);
        if n in names && names[n] != id { return None; }
      }
      names := names[n := id];
      return Some(n);
    }

    /** Names every Tool ID a request uses. IDs that providers accept claim their own
        names first. */
    method NameAll(ids: seq<string>) returns (ok: bool)
      requires HexHash(hash) && names == map[]
      modifies this
      ensures ok <==> Names(hash, ids).Some?
      ensures ok ==> Names(hash, ids) == Some(names)
    {
      for i := 0 to |ids|
        invariant names == PlainNames(ids[..i])
      {
        assert ids[..i + 1] == ids[..i] + [ids[i]];
        if Plain(ids[i]) { names := names[ids[i] := ids[i]]; }
      }
      assert ids[..|ids|] == ids;
      for i := 0 to |ids|
        invariant AssignAll(hash, PlainNames(ids), ids[..i]) == Some(names)
      {
        assert ids[..i + 1][..i] == ids[..i];
        var name := Assign(ids[i]);
        if name.None? {
          StaysFailed(hash, PlainNames(ids), ids, i + 1);
          return false;
        }
      }
      return true;
    }
  }

  lemma {:induction false} StaysFailed(hash: string -> string, names: map<string, string>, ids: seq<string>, k: nat)
    requires HexHash(hash) && k <= |ids| && AssignAll(hash, names, ids[..k]).None?
    ensures AssignAll(hash, names, ids).None?
    decreases |ids|
  {
    if k < |ids| {
      assert ids[..|ids| - 1][..k] == ids[..k];
      StaysFailed(hash, names, ids[..|ids| - 1], k);
    } else {
      assert ids[..k] == ids;
    }
  }

  // ----- names providers accept -----

  lemma NamesAllowed(hash: string -> string, id: string)
    requires HexHash(hash)
    ensures Allowed(ProviderName(hash, id)) && Allowed(HashedName(hash, id))
  {
    assert forall i :: 0 <= i < 64 ==> Safe(hash(id)[i]) by {
      assert forall i :: 0 <= i < 64 ==> Hex(hash(id)[i]);
    }
    assert forall i :: 0 <= i < |Sanitize(id)| ==> Safe(Sanitize(id)[i]);
    var h := HashedName(hash, id);
    assert |h| >= 17 && h[|h| - 16..] == hash(id)[..16];
    forall i | 0 <= i < |h| ensures Safe(h[i])
    {
      if i >= |h| - 16 { assert h[i] == hash(id)[i - (|h| - 16)]; }
    }
  }

  /** An ID is plain exactly when providers accept it as it is. */
  lemma PlainIsAllowed(id: string)
    ensures Plain(id) <==> Allowed(id)
    ensures Plain(id) ==> forall hash: string -> string :: |hash(id)| == 64 ==> ProviderName(hash, id) == id
  {
    if Allowed(id) { assert Sanitize(id) == id; }
  }

  /** A name reads like its ID: each character providers accept stays where it was and
      each other is an underscore, up to the part of the hash that ends a long name and
      every hashed one. */
  lemma NamesReadLikeIds(hash: string -> string, id: string)
    requires HexHash(hash)
    ensures var own, hashed := ProviderName(hash, id), HashedName(hash, id);
      && (1 <= |id| <= 64 ==> |own| == |id|)
      && (|id| > 64 ==> |own| == 64 && own[55] == '_' && own[56..] == hash(id)[..8])
      && (id != "" ==> |hashed| == (if |id| < 47 then |id| else 47) + 17)
      && hashed[|hashed| - 17] == '_' && hashed[|hashed| - 16..] == hash(id)[..16]
      && (forall i :: 0 <= i < |id| && (|id| <= 64 || i < 55) ==> own[i] == if Safe(id[i]) then id[i] else '_')
      && (forall i :: 0 <= i < |id| && i < 47 ==> hashed[i] == if Safe(id[i]) then id[i] else '_')
  {
    var own, hashed := ProviderName(hash, id), HashedName(hash, id);
    if |id| > 64 {
      assert own == (Sanitize(id)[..55] + "_") + hash(id)[..8];
      assert own[56..] == hash(id)[..8];
    }
    assert hashed[|hashed| - 16..] == hash(id)[..16];
  }

  // ----- the invariant of the table -----

  /** Each name is one its ID may have, and the hashed one only when the other
      belongs to another ID. */
  ghost predicate Sound(hash: string -> string, names: map<string, string>)
    requires HexHash(hash)
  {
    forall n :: n in names ==>
      var id := names[n];
      n == ProviderName(hash, id)
      || (n == HashedName(hash, id) && Taken(names, ProviderName(hash, id), id))
  }

  /** Naming one more ID takes no name from another. */
  lemma AssignSound(hash: string -> string, names: map<string, string>, id: string)
    requires HexHash(hash) && Sound(hash, names) && NameFor(hash, names, id).Some?
    ensures var m := names[NameFor(hash, names, id).value := id];
      Sound(hash, m) && (forall n :: n in names ==> n in m && m[n] == names[n])
  {
  }

  lemma {:induction false} AssignAllSound(hash: string -> string, names: map<string, string>, ids: seq<string>)
    requires HexHash(hash) && Sound(hash, names) && AssignAll(hash, names, ids).Some?
    ensures var m := AssignAll(hash, names, ids).value;
      && Sound(hash, m) && (forall n :: n in names ==> n in m && m[n] == names[n])
      && (forall n :: n in m ==> n in names || m[n] in ids)
      && (forall id :: id in ids ==> exists n :: n in m && m[n] == id)
  {
    if ids != [] {
      var front := ids[..|ids| - 1];
      assert ids == front + [Last(ids)];
      AssignAllSound(hash, names, front);
      var m := AssignAll(hash, names, front).value;
      AssignSound(hash, m, Last(ids));
      hide Sound, NameFor;
      var name := NameFor(hash, m, Last(ids)).value;
      var m' := AssignAll(hash, names, ids).value;
      assert m' == m[name := Last(ids)];
      forall id | id in ids ensures exists n :: n in m' && m'[n] == id
      {
        if id in front {
          var n :| n in m && m[n] == id;
          assert n in m' && m'[n] == id;
        } else {
          assert name in m' && m'[name] == id;
        }
      }
    }
  }

  // ----- what a request is promised -----

  /** When the names of a request are made: each of its IDs has exactly one name, a
      name providers accept, which the decoder takes back to it; no two IDs share
      one; an ID that providers accept keeps itself; and naming an ID of the
      request again gives the same name and changes nothing. */
  lemma RequestNames(hash: string -> string, ids: seq<string>, id: string)
    requires HexHash(hash) && Names(hash, ids).Some? && id in ids
    ensures var names := Names(hash, ids).value;
      exists name :: name in names && names[name] == id
        && Allowed(name) && (Plain(id) ==> name == id)
        && (forall n :: n in names && names[n] == id ==> n == name)
        && NameFor(hash, names, id) == Some(name) && names[name := id] == names
  {
    AssignAllSound(hash, PlainNames(ids), ids);
    var names := Names(hash, ids).value;
    var name :| name in names && names[name] == id;
    NamesAllowed(hash, id);
    hide NameFor, Names, AssignAll, Allowed;
    assert name == ProviderName(hash, id) || name == HashedName(hash, id);
    if Plain(id) {
      assert id in PlainNames(ids) && PlainNames(ids)[id] == id;
      assert id in names && names[id] == id;
    }
    assert names[name := id] == names;
  }

  /** Nothing else is in the table: every name decodes to an ID of the request. */
  lemma NamesDecode(hash: string -> string, ids: seq<string>, name: string)
    requires HexHash(hash) && Names(hash, ids).Some? && name in Names(hash, ids).value
    ensures Names(hash, ids).value[name] in ids
  {
    AssignAllSound(hash, PlainNames(ids), ids);
  }

  /** Two different IDs of the request meet at the hashed name of the first. */
  predicate Collide(hash: string -> string, a: string, b: string)
    requires HexHash(hash)
  {
    a != b && (HashedName(hash, a) == ProviderName(hash, b) || HashedName(hash, a) == HashedName(hash, b))
  }

  /** It fails only on such a meeting: a request in which no hashed name is another
      ID's name is always named. */
  lemma {:induction false} FailsOnlyOnCollision(hash: string -> string, ids: seq<string>, k: nat)
    requires HexHash(hash) && k <= |ids|
    requires forall a, b :: a in ids && b in ids ==> !Collide(hash, a, b)
    ensures AssignAll(hash, PlainNames(ids), ids[..k]).Some?
  {
    if k > 0 {
      FailsOnlyOnCollision(hash, ids, k - 1);
      assert ids[..k][..k - 1] == ids[..k - 1];
      AssignAllSound(hash, PlainNames(ids), ids[..k - 1]);
      var m := AssignAll(hash, PlainNames(ids), ids[..k - 1]).value;
      var id := ids[k - 1];
      if Taken(m, HashedName(hash, id), id) {
        var other := m[HashedName(hash, id)];
        assert other in ids;
        assert Collide(hash, id, other);
      }
    }
  }

  /** And such a meeting does make it fail: of three different IDs, one that
      providers accept and two that read like it, the last finds both of its names
      taken when the two share a hashed name. */
  lemma CollisionFails(hash: string -> string, a: string, b: string, c: string)
    requires HexHash(hash) && Plain(a) && !Plain(b) && !Plain(c) && b != c
    requires ProviderName(hash, b) == a == ProviderName(hash, c)
    requires HashedName(hash, b) == HashedName(hash, c) != a
    ensures Names(hash, [a, b, c]).None?
  {
    var names, h := map[a := a], HashedName(hash, b);
    assert PlainNames([a, b, c]) == names;
    hide ProviderName, HashedName, Sanitize, Plain;
    assert [a, b, c][..2] == [a, b] && [a, b][..1] == [a] && [a][..0] == [];
    assert names[a := a] == names;
    assert AssignAll(hash, names, [a]) == Some(names);
    assert AssignAll(hash, names, [a, b]) == Some(names[h := b]);
  }
}
