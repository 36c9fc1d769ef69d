/** What a Session's Tools come to: the catalog its ToolSets resolve, which Tools of
    it are loaded, and what the Model is shown of them. */
module ToolCatalog {
  import opened Seqs
  import opened ToolIds

  datatype Mode = Listed | Folded | Active

  /** hidden says the Tool is above the Session's Effect cap. */
  datatype Tool = Tool(id: string, name: string, text: string, hidden: bool)

  datatype ToolSet = ToolSet(name: string, description: string, mode: Mode, resolved: seq<Tool>, failed: bool)

  /** A catalog Tool under its qualified ID; owner is the index of its ToolSet. */
  datatype Entry = Entry(id: string, tool: Tool, owner: nat)

  /** A line of the search Tool's description. */
  datatype Line =
    | UnavailableSet(name: string, description: string)
    | FoldedSet(name: string, description: string, count: nat)
    | ListedSet(name: string, description: string, ids: seq<string>)

  datatype Body = Text(text: string) | SearchText(lines: seq<Line>)

  datatype Spec = Spec(id: string, name: string, body: Body)

  /** kept is the filter's answer, when the Session has a filter. */
  datatype Registry = Registry(
    statics: seq<Tool>,
    sets: seq<ToolSet>,
    catalog: seq<Entry>,
    loaded: seq<string>,
    parked: seq<string>,
    kept: Option<set<string>>)

  const SEARCH := "search_tools"

  // ----- the catalog -----

  function EntriesOf(sets: seq<ToolSet>, i: nat): (es: seq<Entry>)
    requires i < |sets|
  {
    seq(|sets[i].resolved|, j requires 0 <= j < |sets[i].resolved| =>
      Entry(Qualify(sets[i].name, sets[i].resolved[j].id), sets[i].resolved[j], i))
  }

  function EntriesTo(sets: seq<ToolSet>, n: nat): (es: seq<Entry>)
    requires n <= |sets|
  {
    if n == 0 then [] else EntriesTo(sets, n - 1) + EntriesOf(sets, n - 1)
  }

  function ByEntryId(): (less: (Entry, Entry) -> bool)
    ensures forall a, b :: less(a, b) <==> Before(a.id, b.id)
  {
    (a: Entry, b: Entry) => Before(a.id, b.id)
  }

  function CatalogOf(sets: seq<ToolSet>): (es: seq<Entry>)
  {
    Sort(ByEntryId(), EntriesTo(sets, |sets|))
  }

  // ----- what the Model is shown -----

  predicate InSet(r: Registry, e: Entry, mode: Mode)
  {
    e.owner < |r.sets| && r.sets[e.owner].mode == mode
  }

  predicate Indexable(r: Registry, e: Entry)
  {
    !e.tool.hidden && (r.kept.Some? ==> e.id in r.kept.value)
  }

  /** A Tool the Model may load: of a ToolSet that is not installed active. */
  predicate Loadable(r: Registry, e: Entry)
  {
    Indexable(r, e) && !InSet(r, e, Active)
  }

  predicate Shown(r: Registry, e: Entry)
  {
    Indexable(r, e) && (InSet(r, e, Active) || e.id in r.loaded)
  }

  function SpecOf(id: string, tool: Tool): (s: Spec)
  {
    Spec(id, if tool.name == "" then tool.id else tool.name, Text(tool.text))
  }

  function Specs(pick: Entry -> bool, es: seq<Entry>): (specs: seq<Spec>)
  {
    if es == [] then [] else
    var rest := Specs(pick, es[..|es| - 1]);
    if pick(Last(es)) then rest + [SpecOf(Last(es).id, Last(es).tool)] else rest
  }

  function StaticSpecs(tools: seq<Tool>): (specs: seq<Spec>)
  {
    if tools == [] then [] else
    var rest := StaticSpecs(tools[..|tools| - 1]);
    if Last(tools).hidden then rest else rest + [SpecOf(Last(tools).id, Last(tools))]
  }

  function IdsOf(pick: Entry -> bool, es: seq<Entry>): (ids: seq<string>)
  {
    if es == [] then [] else
    var rest := IdsOf(pick, es[..|es| - 1]);
    if pick(Last(es)) then rest + [Last(es).id] else rest
  }

  /** The lines of the first n ToolSets. A loaded Tool is listed like any other. */
  function LinesTo(r: Registry, n: nat): (lines: seq<Line>)
    requires n <= |r.sets|
  {
    if n == 0 then [] else
    var s := r.sets[n - 1];
    var ids := IdsOf((e: Entry) => e.owner == n - 1 && Indexable(r, e), r.catalog);
    LinesTo(r, n - 1) +
      if s.mode == Active || (ids == [] && !s.failed) then []
      else if s.failed then [UnavailableSet(s.name, s.description)]
      else if s.mode == Folded then [FoldedSet(s.name, s.description, |ids|)]
      else [ListedSet(s.name, s.description, ids)]
  }

  predicate HasCatalog(sets: seq<ToolSet>)
  {
    exists i :: 0 <= i < |sets| && sets[i].mode != Active
  }

  function SearchSpecs(r: Registry): (specs: seq<Spec>)
  {
    if HasCatalog(r.sets) then [Spec(SEARCH, SEARCH, SearchText(LinesTo(r, |r.sets|)))] else []
  }

  function Registered(r: Registry): (specs: seq<Spec>)
  {
    StaticSpecs(r.statics) + Specs(e => Shown(r, e), r.catalog) + SearchSpecs(r)
  }

  function BySpecId(): (less: (Spec, Spec) -> bool)
    ensures forall a, b :: less(a, b) <==> Before(a.id, b.id)
  {
    (a: Spec, b: Spec) => Before(a.id, b.id)
  }

  function Visible(r: Registry): (specs: seq<Spec>)
  {
    Sort(BySpecId(), Registered(r))
  }

  /** The catalog Tools still to load. */
  function Candidates(r: Registry): (specs: seq<Spec>)
  {
    Specs(e => Loadable(r, e) && e.id !in r.loaded, r.catalog)
  }

  function LoadedView(r: Registry): (ids: seq<string>)
  {
    IdsOf(e => Loadable(r, e) && e.id in r.loaded, r.catalog)
  }

  // ----- what is checked when Tools are taken in -----

  predicate Named(sets: seq<ToolSet>)
  {
    && (forall i :: 0 <= i < |sets| ==> sets[i].name != "" && Dotless(sets[i].name))
    && (forall i, j :: 0 <= i < j < |sets| ==> sets[i].name != sets[j].name)
  }

  /** A ToolSet's Tools have different IDs; an unavailable one holds none. */
  predicate Resolved(sets: seq<ToolSet>)
  {
    && (forall i :: 0 <= i < |sets| && sets[i].failed ==> sets[i].resolved == [])
    && (forall i, j, k :: 0 <= i < |sets| && 0 <= j < k < |sets[i].resolved| ==>
          sets[i].resolved[j].id != sets[i].resolved[k].id)
  }

  /** No root Tool takes another's ID, the search Tool's, or a name in a namespace. */
  predicate Rooted(statics: seq<Tool>, sets: seq<ToolSet>)
  {
    && (forall i, j :: 0 <= i < j < |statics| ==> statics[i].id != statics[j].id)
    && (forall i :: 0 <= i < |statics| ==> Rootable(statics[i].id, sets) && Rootable(statics[i].name, sets))
  }

  predicate Rootable(name: string, sets: seq<ToolSet>)
  {
    name != SEARCH && forall i :: 0 <= i < |sets| ==> !(sets[i].name + "." <= name)
  }

  predicate Sound(r: Registry)
  {
    Named(r.sets) && Resolved(r.sets) && Rooted(r.statics, r.sets) && r.catalog == CatalogOf(r.sets)
  }

  // ----- the catalog holds each ID once -----

  lemma {:induction false} EntryToMeans(sets: seq<ToolSet>, n: nat, e: Entry)
    requires n <= |sets|
    ensures e in EntriesTo(sets, n) <==> e.owner < n && e in EntriesOf(sets, e.owner)
  {
    if n > 0 {
      EntryToMeans(sets, n - 1, e);
      var before, last := EntriesTo(sets, n - 1), EntriesOf(sets, n - 1);
      assert e in before + last <==> e in before || e in last;
      assert forall x :: x in last ==> x.owner == n - 1;
    }
  }

  /** The entries of a ToolSet carry its name before the dot. */
  lemma EntryOwner(sets: seq<ToolSet>, e: Entry)
    requires Named(sets) && e.owner < |sets| && e in EntriesOf(sets, e.owner)
    ensures e.id == sets[e.owner].name + "." + e.tool.id && SpaceOf(e.id) == sets[e.owner].name
    ensures e.tool in sets[e.owner].resolved
  {
    SpaceOfQualified(sets[e.owner].name, e.tool.id);
  }

  lemma SameId(sets: seq<ToolSet>, a: Entry, b: Entry)
    requires Named(sets) && Resolved(sets)
    requires a.owner < |sets| && a in EntriesOf(sets, a.owner)
    requires b.owner < |sets| && b in EntriesOf(sets, b.owner)
    requires a.id == b.id
    ensures a == b
  {
    EntryOwner(sets, a);
    EntryOwner(sets, b);
    QualifyInjective(sets[a.owner].name, a.tool.id, sets[b.owner].name, b.tool.id);
  }

  lemma {:induction false} EntriesDistinct(sets: seq<ToolSet>, n: nat)
    requires Named(sets) && Resolved(sets) && n <= |sets|
    ensures forall i, j :: 0 <= i < j < |EntriesTo(sets, n)| ==> EntriesTo(sets, n)[i].id != EntriesTo(sets, n)[j].id
  {
    if n > 0 {
      EntriesDistinct(sets, n - 1);
      var before, last := EntriesTo(sets, n - 1), EntriesOf(sets, n - 1);
      var all := before + last;
      forall i, j | 0 <= i < j < |all| ensures all[i].id != all[j].id
      {
        if i >= |before| {
          LocalIdsDiffer(sets, n - 1, i - |before|, j - |before|);
        } else if j >= |before| {
          var a, b := before[i], last[j - |before|];
          EntryToMeans(sets, n - 1, a);
          assert a in before && b in last;
          EntryOwner(sets, a);
          EntryOwner(sets, b);
        }
      }
    }
  }

  lemma LocalIdsDiffer(sets: seq<ToolSet>, n: nat, j: nat, k: nat)
    requires Named(sets) && Resolved(sets) && n < |sets| && j < k < |sets[n].resolved|
    ensures EntriesOf(sets, n)[j].id != EntriesOf(sets, n)[k].id
  {
    var x, y := sets[n].resolved[j].id, sets[n].resolved[k].id;
    if Qualify(sets[n].name, x) == Qualify(sets[n].name, y) {
      QualifyInjective(sets[n].name, x, sets[n].name, y);
    }
  }

  lemma OrderIsTotal()
    ensures forall a, b :: a == b || Before(a, b) || Before(b, a)
    ensures forall a :: !Before(a, a)
    ensures forall a, b, c :: Before(a, b) && Before(b, c) ==> Before(a, c)
  {
    forall a, b ensures a == b || Before(a, b) || Before(b, a) { BeforeTotal(a, b); }
    forall a ensures !Before(a, a) { BeforeIrreflexive(a); }
    forall a, b, c | Before(a, b) && Before(b, c) ensures Before(a, c) { BeforeTransitive(a, b, c); }
  }

  /** The catalog is every Tool of every ToolSet, in strict ID order. */
  lemma CatalogMeans(sets: seq<ToolSet>)
    requires Named(sets) && Resolved(sets)
    ensures Ascending(ByEntryId(), CatalogOf(sets))
    ensures forall e :: e in CatalogOf(sets) <==> e.owner < |sets| && e in EntriesOf(sets, e.owner)
    ensures forall a, b :: a in CatalogOf(sets) && b in CatalogOf(sets) && a.id == b.id ==> a == b
  {
    var all := EntriesTo(sets, |sets|);
    EntriesDistinct(sets, |sets|);
    OrderIsTotal();
    SortAscending(ByEntryId(), all);
    SameElements(CatalogOf(sets), all);
    forall e ensures e in CatalogOf(sets) <==> e.owner < |sets| && e in EntriesOf(sets, e.owner)
    {
      EntryToMeans(sets, |sets|, e);
    }
    forall a, b | a in CatalogOf(sets) && b in CatalogOf(sets) && a.id == b.id ensures a == b
    {
      SameId(sets, a, b);
    }
  }
}
