/** The native form of deferred Tools: the order a request sends its Tools in, which
    a load does not change while the history refers to what is loaded. */
module DeferredTools {
  import opened Seqs
  import opened ToolIds
  import opened ToolCatalog

  datatype Call = Call(id: string, tool: string)

  /** A Message of the history: the calls it makes, and the Tools its result loaded. */
  datatype Past = Past(calls: seq<Call>, loads: seq<string>)

  datatype Sent = Sent(spec: Spec, deferred: bool)

  datatype Layout = Layout(tools: seq<Sent>, deferred: set<string>, searchCalls: set<string>)

  predicate IsSearchTool(id: string)
  {
    id == SEARCH || (|id| > |SEARCH| && id[|id| - |SEARCH| - 1..] == "." + SEARCH)
  }

  /** The search Tool under its own name, or under a namespace. */
  ghost predicate EndsInSearch(id: string)
  {
    id == SEARCH || exists space: string :: id == space + "." + SEARCH
  }

  lemma IsSearchToolMeans(id: string)
    ensures IsSearchTool(id) <==> EndsInSearch(id)
  {
    var cut := |id| - |SEARCH| - 1;
    if id != SEARCH && IsSearchTool(id) { assert id == id[..cut] + "." + SEARCH; }
    if space: string :| id == space + "." + SEARCH {
      assert |space| == cut;
      assert id[cut..] == "." + SEARCH;
    }
  }

  function Referenced(history: seq<Past>): (ids: set<string>)
  {
    set m, id | m in history && id in m.loads :: id
  }

  function SearchCalls(history: seq<Past>): (ids: set<string>)
  {
    set m, c | m in history && c in m.calls && IsSearchTool(c.tool) :: c.id
  }

  lemma SearchCallsMean(history: seq<Past>)
    ensures forall id :: id in SearchCalls(history) <==>
      exists i, c :: 0 <= i < |history| && c in history[i].calls && c.id == id && EndsInSearch(c.tool)
  {
    hide IsSearchTool, EndsInSearch;
    forall id: string ensures IsSearchTool(id) <==> EndsInSearch(id) { IsSearchToolMeans(id); }
    forall id | id in SearchCalls(history)
      ensures exists i, c :: 0 <= i < |history| && c in history[i].calls && c.id == id && EndsInSearch(c.tool)
    {
      var m, c :| m in history && c in m.calls && IsSearchTool(c.tool) && c.id == id;
      var i :| 0 <= i < |history| && history[i] == m;
      assert c in history[i].calls;
    }
  }

  function Deferred(loaded: seq<string>, referenced: set<string>): (p: Spec -> bool)
    ensures forall s :: p(s) <==> s.id in loaded && s.id in referenced
  {
    (s: Spec) => s.id in loaded && s.id in referenced
  }

  function Plain(loaded: seq<string>, referenced: set<string>): (p: Spec -> bool)
    ensures forall s :: p(s) <==> !(s.id in loaded && s.id in referenced)
  {
    (s: Spec) => !(s.id in loaded && s.id in referenced)
  }

  function Mark(specs: seq<Spec>, deferred: bool): (tools: seq<Sent>)
    ensures |tools| == |specs| && forall i :: 0 <= i < |specs| ==> tools[i] == Sent(specs[i], deferred)
  {
    seq(|specs|, i requires 0 <= i < |specs| => Sent(specs[i], deferred))
  }

  function PlainTools(visible: seq<Spec>, loaded: seq<string>, referenced: set<string>): (specs: seq<Spec>)
  {
    Sort(BySpecId(), Filter(Plain(loaded, referenced), visible))
  }

  function DeferredTools(visible: seq<Spec>, loaded: seq<string>, unloaded: seq<Spec>, referenced: set<string>)
      : (specs: seq<Spec>)
  {
    Sort(BySpecId(), Filter(Deferred(loaded, referenced), visible) + unloaded)
  }

  /** The plain Tools in ID order, and then the deferred ones in ID order. */
  function ToolsOf(visible: seq<Spec>, loaded: seq<string>, unloaded: seq<Spec>, referenced: set<string>)
      : (tools: seq<Sent>)
  {
    Mark(PlainTools(visible, loaded, referenced), false)
      + Mark(DeferredTools(visible, loaded, unloaded, referenced), true)
  }

  /** Some Message of the history loaded it. */
  predicate RefersTo(history: seq<Past>, id: string)
  {
    exists i :: 0 <= i < |history| && id in history[i].loads
  }

  /** What is visible is sent plain, but deferred when it is loaded and the history
      refers to it; what is unloaded is sent deferred; and nothing else is sent. The
      deferred Tools come after the plain ones. */
  ghost predicate SentAsSplit(tools: seq<Sent>, visible: seq<Spec>, loaded: seq<string>, unloaded: seq<Spec>,
      history: seq<Past>)
  {
    && |tools| == |visible| + |unloaded|
    && (forall i, j :: 0 <= i < j < |tools| && tools[i].deferred ==> tools[j].deferred)
    && (forall s :: Sent(s, false) in tools <==> s in visible && !(s.id in loaded && RefersTo(history, s.id)))
    && (forall s :: Sent(s, true) in tools <==>
          (s in visible && s.id in loaded && RefersTo(history, s.id)) || s in unloaded)
  }

  lemma ReferencedMeans(history: seq<Past>, id: string)
    ensures id in Referenced(history) <==> RefersTo(history, id)
  {
    if RefersTo(history, id) {
      var i :| 0 <= i < |history| && id in history[i].loads;
      assert history[i] in history;
    }
    if id in Referenced(history) {
      var m :| m in history && id in m.loads;
      var i :| 0 <= i < |history| && history[i] == m;
      assert id in history[i].loads;
    }
  }

  lemma {:induction false} FilterSizes<T>(p: T -> bool, q: T -> bool, s: seq<T>)
    requires forall x :: p(x) == !q(x)
    ensures |Filter(p, s)| + |Filter(q, s)| == |s|
  {
    if s != [] { FilterSizes(p, q, s[..|s| - 1]); }
  }

  lemma SortSize<T>(less: (T, T) -> bool, s: seq<T>)
    ensures |Sort(less, s)| == |s|
  {
    assert |multiset(Sort(less, s))| == |multiset(s)|;
  }

  lemma ToolsSplit(visible: seq<Spec>, loaded: seq<string>, unloaded: seq<Spec>, history: seq<Past>)
    ensures SentAsSplit(ToolsOf(visible, loaded, unloaded, Referenced(history)), visible, loaded, unloaded, history)
  {
    hide Filter, Sort, Referenced, RefersTo;
    var referenced := Referenced(history);
    var p, d := PlainTools(visible, loaded, referenced), DeferredTools(visible, loaded, unloaded, referenced);
    FilterSizes(Plain(loaded, referenced), Deferred(loaded, referenced), visible);
    SortSize(BySpecId(), Filter(Plain(loaded, referenced), visible));
    SortSize(BySpecId(), Filter(Deferred(loaded, referenced), visible) + unloaded);
    SameElements(p, Filter(Plain(loaded, referenced), visible));
    SameElements(d, Filter(Deferred(loaded, referenced), visible) + unloaded);
    forall s
      ensures Sent(s, false) in Mark(p, false) + Mark(d, true) <==>
        s in visible && !(s.id in loaded && RefersTo(history, s.id))
      ensures Sent(s, true) in Mark(p, false) + Mark(d, true) <==>
        (s in visible && s.id in loaded && RefersTo(history, s.id)) || s in unloaded
    {
      ReferencedMeans(history, s.id);
      MarkedMeans(p, d, Sent(s, false));
      MarkedMeans(p, d, Sent(s, true));
      FilterMember(Plain(loaded, referenced), visible, s);
      FilterMember(Deferred(loaded, referenced), visible, s);
    }
  }

  method NewDeferredLayout(visible: seq<Spec>, loaded: seq<string>, unloaded: seq<Spec>,
      history: seq<Past>, native: bool)
    returns (layout: Option<Layout>)
    ensures layout.None? <==> !native || (loaded == [] && unloaded == [])
    ensures layout.Some? ==>
      && layout.value.tools == ToolsOf(visible, loaded, unloaded, Referenced(history))
      && layout.value.searchCalls == SearchCalls(history)
      && (forall id :: id in layout.value.deferred <==>
            exists t :: t in layout.value.tools && t.deferred && t.spec.id == id)
    ensures layout.Some? ==> SentAsSplit(layout.value.tools, visible, loaded, unloaded, history)
    ensures layout.Some? ==> forall id :: id in layout.value.searchCalls <==>
      exists i, c :: 0 <= i < |history| && c in history[i].calls && c.id == id && EndsInSearch(c.tool)
  {
    if !native || (|loaded| == 0 && |unloaded| == 0) { return None; }
    var referenced: set<string> := {};
    var searchCalls: set<string> := {};
    for i := 0 to |history|
      invariant referenced == Referenced(history[..i])
      invariant searchCalls == SearchCalls(history[..i])
    {
      assert history[..i + 1] == history[..i] + [history[i]];
      referenced := referenced + set id | id in history[i].loads;
      searchCalls := searchCalls + set c | c in history[i].calls && IsSearchTool(c.tool) :: c.id;
    }
    assert history[..|history|] == history;
    var plain: seq<Spec> := [];
    var deferred: seq<Spec> := [];
    for i := 0 to |visible|
      invariant plain == Filter(Plain(loaded, referenced), visible[..i])
      invariant deferred == Filter(Deferred(loaded, referenced), visible[..i])
    {
      assert visible[..i + 1][..i] == visible[..i];
      var spec := visible[i];
      if spec.id in loaded && spec.id in referenced { deferred := deferred + [spec]; } else { plain := plain + [spec]; }
    }
    assert visible[..|visible|] == visible;
    deferred := deferred + unloaded;
    plain := Sort(BySpecId(), plain);
    deferred := Sort(BySpecId(), deferred);
    var tools := Mark(plain, false) + Mark(deferred, true);
    var ids := set s | s in deferred :: s.id;
    forall id ensures id in ids <==> exists t :: t in tools && t.deferred && t.spec.id == id
    {
      if s :| s in deferred && s.id == id { MarkedMeans(plain, deferred, Sent(s, true)); }
      if t :| t in tools && t.deferred && t.spec.id == id { MarkedMeans(plain, deferred, t); }
    }
    SearchCallsMean(history);
    ToolsSplit(visible, loaded, unloaded, history);
    return Some(Layout(tools, ids, searchCalls));
  }

  /** A Tool Result refers to those of its loads that the request sends deferred. */
  method References(layout: Option<Layout>, loads: seq<string>) returns (ids: seq<string>)
    ensures layout.None? ==> ids == []
    ensures layout.Some? ==> ids == Filter(id => id in layout.value.deferred, loads)
  {
    ids := [];
    if layout.None? { return; }
    ghost var keep := (id: string) => id in layout.value.deferred;
    for i := 0 to |loads|
      invariant ids == Filter(keep, loads[..i])
    {
      assert loads[..i + 1][..i] == loads[..i];
      if loads[i] in layout.value.deferred { ids := ids + [loads[i]]; }
    }
    assert loads[..|loads|] == loads;
    SameKeep(keep, id => id in layout.value.deferred, loads);
  }

  lemma {:induction false} SameKeep(p: string -> bool, q: string -> bool, s: seq<string>)
    requires forall x :: p(x) == q(x)
    ensures Filter(p, s) == Filter(q, s)
  {
    if s != [] { SameKeep(p, q, s[..|s| - 1]); }
  }

  lemma MarkedMeans(plain: seq<Spec>, deferred: seq<Spec>, t: Sent)
    ensures t in Mark(plain, false) + Mark(deferred, true) <==> t.spec in (if t.deferred then deferred else plain)
  {
    var tools := Mark(plain, false) + Mark(deferred, true);
    if t in tools {
      var i :| 0 <= i < |tools| && tools[i] == t;
      assert i < |plain| ==> plain[i] == t.spec;
      assert i >= |plain| ==> deferred[i - |plain|] == t.spec;
    }
    if t.deferred && t.spec in deferred {
      var i :| 0 <= i < |deferred| && deferred[i] == t.spec;
      assert tools[|plain| + i] == t;
    }
    if !t.deferred && t.spec in plain {
      var i :| 0 <= i < |plain| && plain[i] == t.spec;
      assert tools[i] == t;
    }
  }

  // ----- what a registry's request holds -----

  function RequestTools(r: Registry, referenced: set<string>): (tools: seq<Sent>)
  {
    ToolsOf(Visible(r), LoadedView(r), Candidates(r), referenced)
  }

  lemma {:induction false} SpecsMeans(pick: Entry -> bool, es: seq<Entry>, s: Spec)
    ensures s in Specs(pick, es) <==> exists e :: e in es && pick(e) && s == SpecOf(e.id, e.tool)
  {
    if es != [] {
      var front, last := es[..|es| - 1], Last(es);
      SpecsMeans(pick, front, s);
      assert es == front + [last];
      assert forall e :: e in es <==> e in front || e == last;
    }
  }

  lemma {:induction false} IdsMeans(pick: Entry -> bool, es: seq<Entry>, id: string)
    ensures id in IdsOf(pick, es) <==> exists e :: e in es && pick(e) && e.id == id
  {
    if es != [] {
      var front, last := es[..|es| - 1], Last(es);
      IdsMeans(pick, front, id);
      assert es == front + [last];
      assert forall e :: e in es <==> e in front || e == last;
    }
  }

  lemma {:induction false} SpecsAscend(pick: Entry -> bool, es: seq<Entry>)
    requires Ascending(ByEntryId(), es)
    ensures Ascending(BySpecId(), Specs(pick, es))
  {
    if es != [] {
      var front, last := es[..|es| - 1], Last(es);
      SpecsAscend(pick, front);
      var rest := Specs(pick, front);
      forall i | 0 <= i < |rest| ensures Before(rest[i].id, last.id)
      {
        SpecsMeans(pick, front, rest[i]);
        var e :| e in front && pick(e) && rest[i] == SpecOf(e.id, e.tool);
        var j :| 0 <= j < |front| && front[j] == e;
        assert ByEntryId()(es[j], es[|es| - 1]);
      }
    }
  }

  lemma {:induction false} IdsSame(p: Entry -> bool, q: Entry -> bool, es: seq<Entry>)
    requires forall e :: p(e) == q(e)
    ensures IdsOf(p, es) == IdsOf(q, es)
  {
    if es != [] { IdsSame(p, q, es[..|es| - 1]); }
  }

  lemma {:induction false} StaticMeans(tools: seq<Tool>, s: Spec)
    ensures s in StaticSpecs(tools) <==>
      exists i :: 0 <= i < |tools| && !tools[i].hidden && s == SpecOf(tools[i].id, tools[i])
  {
    if tools != [] {
      var front, last := tools[..|tools| - 1], Last(tools);
      StaticMeans(front, s);
      if s in StaticSpecs(tools) && s !in StaticSpecs(front) { assert s == SpecOf(last.id, tools[|tools| - 1]); }
    }
  }

  lemma {:induction false} StaticDistinct(tools: seq<Tool>)
    requires forall i, j :: 0 <= i < j < |tools| ==> tools[i].id != tools[j].id
    ensures forall i, j :: 0 <= i < j < |StaticSpecs(tools)| ==> StaticSpecs(tools)[i].id != StaticSpecs(tools)[j].id
  {
    if tools != [] {
      var front := tools[..|tools| - 1];
      StaticDistinct(front);
      var rest := StaticSpecs(front);
      forall i | 0 <= i < |rest| ensures rest[i].id != Last(tools).id { StaticMeans(front, rest[i]); }
    }
  }

  /** The description of the search Tool does not say what is loaded. */
  lemma {:induction false} LinesSame(r: Registry, r': Registry, n: nat)
    requires n <= |r.sets| && r' == r.(loaded := r'.loaded)
    ensures LinesTo(r, n) == LinesTo(r', n)
  {
    if n > 0 {
      LinesSame(r, r', n - 1);
      IdsSame((e: Entry) => e.owner == n - 1 && Indexable(r, e),
        (e: Entry) => e.owner == n - 1 && Indexable(r', e), r.catalog);
    }
  }

  /** What is visible, member by member. */
  predicate Root(r: Registry, s: Spec)
  {
    s in StaticSpecs(r.statics) || s in SearchSpecs(r)
  }

  predicate Of(s: Spec, e: Entry)
  {
    s == SpecOf(e.id, e.tool)
  }

  lemma RegisteredMeans(r: Registry, s: Spec)
    ensures s in Registered(r) <==> Root(r, s) || exists e :: e in r.catalog && Shown(r, e) && Of(s, e)
  {
    SpecsMeans(e => Shown(r, e), r.catalog, s);
    var shown := Specs(e => Shown(r, e), r.catalog);
    assert s in Registered(r) <==> s in StaticSpecs(r.statics) || s in shown || s in SearchSpecs(r);
    assert (exists e :: e in r.catalog && Shown(r, e) && Of(s, e))
      <==> exists e :: e in r.catalog && Shown(r, e) && s == SpecOf(e.id, e.tool);
  }

  /** No root Tool could take a catalog Tool's ID, which is not the search Tool's. */
  lemma CatalogIdTaken(sets: seq<ToolSet>, e: Entry)
    requires Named(sets) && e.owner < |sets| && e in EntriesOf(sets, e.owner)
    ensures !Rootable(e.id, sets) && e.id != SEARCH
  {
    EntryOwner(sets, e);
    var name := sets[e.owner].name;
    assert e.id[|name|] == '.' && e.id[..|name| + 1] == name + ".";
    assert Dotless(SEARCH);
  }

  /** A root Tool's ID and the search Tool's are no catalog Tool's. */
  lemma RootsApart(r: Registry, e: Entry, s: Spec)
    requires Sound(r) && e in r.catalog && Root(r, s)
    ensures s.id != e.id
  {
    CatalogMeans(r.sets);
    CatalogIdTaken(r.sets, e);
    StaticMeans(r.statics, s);
    hide Rootable, CatalogOf, EntriesOf, StaticSpecs, Named, Resolved, LinesTo, Dotless;
    if s in StaticSpecs(r.statics) {
      var i :| 0 <= i < |r.statics| && !r.statics[i].hidden && s == SpecOf(r.statics[i].id, r.statics[i]);
      assert Rootable(r.statics[i].id, r.sets);
    }
  }

  predicate DistinctIds(specs: seq<Spec>)
  {
    forall i, j :: 0 <= i < j < |specs| ==> specs[i].id != specs[j].id
  }

  lemma AscendingDistinct(specs: seq<Spec>)
    requires Ascending(BySpecId(), specs)
    ensures DistinctIds(specs)
  {
    forall i, j | 0 <= i < j < |specs| ensures specs[i].id != specs[j].id
    {
      assert BySpecId()(specs[i], specs[j]);
      BeforeIrreflexive(specs[i].id);
    }
  }

  lemma RegisteredDistinct(r: Registry)
    requires Sound(r)
    ensures DistinctIds(Registered(r))
  {
    var a, b, c := StaticSpecs(r.statics), Specs(e => Shown(r, e), r.catalog), SearchSpecs(r);
    StaticDistinct(r.statics);
    CatalogMeans(r.sets);
    SpecsAscend(e => Shown(r, e), r.catalog);
    AscendingDistinct(b);
    forall s: Spec, t: Spec | s in a + b && t in c ensures s.id != t.id
    {
      if s in a {
        StaticMeans(r.statics, s);
        assert t.id == SEARCH;
      } else {
        ShownApart(r, s, t);
      }
    }
    forall s, t | s in a && t in b ensures s.id != t.id { ShownApart(r, t, s); }
    assert DistinctIds(c);
    hide StaticSpecs, Specs, SearchSpecs, Sound;
  }

  lemma ShownApart(r: Registry, shown: Spec, root: Spec)
    requires Sound(r) && shown in Specs(e => Shown(r, e), r.catalog) && Root(r, root)
    ensures shown.id != root.id
  {
    SpecsMeans(e => Shown(r, e), r.catalog, shown);
    hide Specs, Sound, Root;
    var e :| e in r.catalog && Shown(r, e) && shown == SpecOf(e.id, e.tool);
    RootsApart(r, e, root);
  }

  // ----- the parts of a layout -----

  lemma VisibleAscends(r: Registry)
    requires Sound(r)
    ensures Ascending(BySpecId(), Visible(r))
    ensures forall s :: s in Visible(r) <==> s in Registered(r)
  {
    RegisteredDistinct(r);
    OrderIsTotal();
    SortAscending(BySpecId(), Registered(r));
    SameElements(Visible(r), Registered(r));
  }

  lemma AscendingOrdered(specs: seq<Spec>)
    requires DistinctIds(specs)
    ensures Ascending(BySpecId(), Sort(BySpecId(), specs))
    ensures forall s :: s in Sort(BySpecId(), specs) <==> s in specs
  {
    OrderIsTotal();
    SortAscending(BySpecId(), specs);
    SameElements(Sort(BySpecId(), specs), specs);
  }

  /** The plain Tools: what is visible and not both loaded and referred to. */
  lemma PlainMeans(r: Registry, referenced: set<string>)
    requires Sound(r)
    ensures var plain := PlainTools(Visible(r), LoadedView(r), referenced);
      && Ascending(BySpecId(), plain)
      && forall s :: s in plain <==> s in Registered(r) && !(s.id in LoadedView(r) && s.id in referenced)
  {
    VisibleAscends(r);
    hide Registered, Visible, LoadedView, Sound;
    var keep := Plain(LoadedView(r), referenced);
    FilterAscending(BySpecId(), keep, Visible(r));
    AscendingDistinct(Filter(keep, Visible(r)));
    AscendingOrdered(Filter(keep, Visible(r)));
    forall s ensures s in Filter(keep, Visible(r)) <==> s in Visible(r) && keep(s)
    {
      FilterMember(keep, Visible(r), s);
    }
  }

  /** The deferred Tools: what is loaded and referred to, and what is not loaded. */
  lemma DeferredMeans(r: Registry, referenced: set<string>)
    requires Sound(r)
    ensures var deferred := DeferredTools(Visible(r), LoadedView(r), Candidates(r), referenced);
      && Ascending(BySpecId(), deferred)
      && forall s :: s in deferred <==>
           (s in Registered(r) && s.id in LoadedView(r) && s.id in referenced) || s in Candidates(r)
  {
    VisibleAscends(r);
    CandidatesAscend(r);
    hide Registered, Visible, Sound;
    var keep := Deferred(LoadedView(r), referenced);
    var picked := Filter(keep, Visible(r));
    FilterAscending(BySpecId(), keep, Visible(r));
    AscendingDistinct(picked);
    AscendingDistinct(Candidates(r));
    forall s ensures s in picked <==> s in Visible(r) && keep(s) { FilterMember(keep, Visible(r), s); }
    forall s, t | s in picked && t in Candidates(r) ensures s.id != t.id { NotLoadedTwice(r, s, t); }
    hide LoadedView, Candidates, Filter;
    AscendingOrdered(picked + Candidates(r));
  }

  lemma CandidatesAscend(r: Registry)
    requires Sound(r)
    ensures Ascending(BySpecId(), Candidates(r))
  {
    CatalogMeans(r.sets);
    SpecsAscend(e => Loadable(r, e) && e.id !in r.loaded, r.catalog);
  }

  lemma NotLoadedTwice(r: Registry, s: Spec, t: Spec)
    requires s.id in LoadedView(r) && t in Candidates(r)
    ensures s.id != t.id
  {
    IdsMeans(e => Loadable(r, e) && e.id in r.loaded, r.catalog, s.id);
    SpecsMeans(e => Loadable(r, e) && e.id !in r.loaded, r.catalog, t);
  }

  // ----- the theorem -----

  /** How a Tool is sent: plain, deferred, or not at all. */
  predicate SentPlain(r: Registry, referenced: set<string>, s: Spec)
  {
    s in Registered(r) && !(s.id in LoadedView(r) && s.id in referenced)
  }

  predicate SentDeferred(r: Registry, referenced: set<string>, s: Spec)
  {
    (s in Registered(r) && s.id in LoadedView(r) && s.id in referenced) || s in Candidates(r)
  }

  predicate SameWay(r: Registry, before: set<string>, r': Registry, after: set<string>, s: Spec)
  {
    (SentPlain(r, before, s) <==> SentPlain(r', after, s))
      && (SentDeferred(r, before, s) <==> SentDeferred(r', after, s))
  }

  /** Two requests send the same list exactly when each Tool is sent the same way. */
  lemma SameToolsIff(r: Registry, before: set<string>, r': Registry, after: set<string>)
    requires Sound(r) && Sound(r')
    ensures RequestTools(r, before) == RequestTools(r', after) <==> forall s :: SameWay(r, before, r', after, s)
  {
    var p, p' := PlainTools(Visible(r), LoadedView(r), before), PlainTools(Visible(r'), LoadedView(r'), after);
    var d := DeferredTools(Visible(r), LoadedView(r), Candidates(r), before);
    var d' := DeferredTools(Visible(r'), LoadedView(r'), Candidates(r'), after);
    assert RequestTools(r, before) == Mark(p, false) + Mark(d, true);
    assert RequestTools(r', after) == Mark(p', false) + Mark(d', true);
    hide RequestTools, ToolsOf, Visible, Registered, LoadedView, Candidates, PlainTools, DeferredTools;
    PartsMean(r, before);
    PartsMean(r', after);
    hide SentPlain, SentDeferred, Sound;
    MarkedIff(p, d, p', d');
    SameSets(r, before, r', after, p, d, p', d');
  }

  lemma SameSets(r: Registry, before: set<string>, r': Registry, after: set<string>,
                 p: seq<Spec>, d: seq<Spec>, p': seq<Spec>, d': seq<Spec>)
    requires forall s :: (s in p <==> SentPlain(r, before, s)) && (s in p' <==> SentPlain(r', after, s))
    requires forall s :: (s in d <==> SentDeferred(r, before, s)) && (s in d' <==> SentDeferred(r', after, s))
    ensures (forall s :: (s in p <==> s in p') && (s in d <==> s in d')) <==>
      (forall s :: SameWay(r, before, r', after, s))
  {
    hide SentPlain, SentDeferred;
    if forall s :: (s in p <==> s in p') && (s in d <==> s in d') {
      forall s ensures SameWay(r, before, r', after, s) { assert s in p <==> s in p'; }
    }
    if forall s :: SameWay(r, before, r', after, s) {
      forall s ensures (s in p <==> s in p') && (s in d <==> s in d') { assert SameWay(r, before, r', after, s); }
    }
  }

  lemma PartsMean(r: Registry, referenced: set<string>)
    requires Sound(r)
    ensures forall s :: s in PlainTools(Visible(r), LoadedView(r), referenced) <==> SentPlain(r, referenced, s)
    ensures forall s :: s in DeferredTools(Visible(r), LoadedView(r), Candidates(r), referenced) <==>
      SentDeferred(r, referenced, s)
    ensures Ascending(BySpecId(), PlainTools(Visible(r), LoadedView(r), referenced))
    ensures Ascending(BySpecId(), DeferredTools(Visible(r), LoadedView(r), Candidates(r), referenced))
  {
    PlainMeans(r, referenced);
    DeferredMeans(r, referenced);
    hide PlainTools, DeferredTools, Visible, LoadedView, Candidates, Registered;
  }

  lemma MarkedIff(p: seq<Spec>, d: seq<Spec>, p': seq<Spec>, d': seq<Spec>)
    requires Ascending(BySpecId(), p) && Ascending(BySpecId(), d)
    requires Ascending(BySpecId(), p') && Ascending(BySpecId(), d')
    ensures Mark(p, false) + Mark(d, true) == Mark(p', false) + Mark(d', true) <==>
      forall s :: (s in p <==> s in p') && (s in d <==> s in d')
  {
    if forall s :: (s in p <==> s in p') && (s in d <==> s in d') {
      OrderIsTotal();
      AscendingUnique(BySpecId(), p, p');
      AscendingUnique(BySpecId(), d, d');
    }
    if Mark(p, false) + Mark(d, true) == Mark(p', false) + Mark(d', true) {
      forall s ensures (s in p <==> s in p') && (s in d <==> s in d')
      {
        MarkedMeans(p, d, Sent(s, false));
        MarkedMeans(p', d', Sent(s, false));
        MarkedMeans(p, d, Sent(s, true));
        MarkedMeans(p', d', Sent(s, true));
      }
    }
  }

  /** The list a request sends: plain Tools before deferred ones, both in strict ID
      order, so that it is determined by how each Tool is sent. */
  lemma RequestOrder(r: Registry, referenced: set<string>)
    requires Sound(r)
    ensures var tools := RequestTools(r, referenced);
      && (forall i, j :: 0 <= i < j < |tools| ==>
            (tools[i].deferred ==> tools[j].deferred)
            && (tools[i].deferred == tools[j].deferred ==> Before(tools[i].spec.id, tools[j].spec.id)))
      && (forall s :: Sent(s, false) in tools <==> SentPlain(r, referenced, s))
      && (forall s :: Sent(s, true) in tools <==> SentDeferred(r, referenced, s))
  {
    hide Sound, SentPlain, SentDeferred, Visible, Registered, LoadedView, Candidates, PlainTools, DeferredTools;
    PartsMean(r, referenced);
    var p := PlainTools(Visible(r), LoadedView(r), referenced);
    var d := DeferredTools(Visible(r), LoadedView(r), Candidates(r), referenced);
    var tools := Mark(p, false) + Mark(d, true);
    forall i, j | 0 <= i < j < |tools| && tools[i].deferred == tools[j].deferred
      ensures Before(tools[i].spec.id, tools[j].spec.id)
    {
      if j < |p| {
        assert BySpecId()(p[i], p[j]);
      } else {
        assert BySpecId()(d[i - |p|], d[j - |p|]);
      }
    }
    forall s
      ensures Sent(s, false) in tools <==> SentPlain(r, referenced, s)
      ensures Sent(s, true) in tools <==> SentDeferred(r, referenced, s)
    {
      MarkedMeans(p, d, Sent(s, false));
      MarkedMeans(p, d, Sent(s, true));
    }
  }

  lemma EntryShown(r: Registry, e: Entry)
    requires Sound(r) && e in r.catalog
    ensures SpecOf(e.id, e.tool) in Registered(r) <==> Shown(r, e)
    ensures e.id in LoadedView(r) <==> Loadable(r, e) && e.id in r.loaded
    ensures SpecOf(e.id, e.tool) in Candidates(r) <==> Loadable(r, e) && e.id !in r.loaded
  {
    var s := SpecOf(e.id, e.tool);
    CatalogMeans(r.sets);
    RegisteredMeans(r, s);
    if Root(r, s) { RootsApart(r, e, s); }
    IdsMeans(x => Loadable(r, x) && x.id in r.loaded, r.catalog, e.id);
    SpecsMeans(x => Loadable(r, x) && x.id !in r.loaded, r.catalog, s);
    hide Registered, CatalogOf, EntriesOf, Root, Shown, Loadable, Specs, IdsOf;
    assert forall x :: x in r.catalog && x.id == e.id ==> x == e;
    assert Of(s, e);
  }

  /** A catalog Tool is sent plain when it is active, or loaded and not referred to,
      and deferred when it is not loaded, or loaded and referred to. */
  lemma EntryWay(r: Registry, referenced: set<string>, e: Entry)
    requires Sound(r) && e in r.catalog
    ensures SentPlain(r, referenced, SpecOf(e.id, e.tool)) <==> Shown(r, e) && !(Loadable(r, e) && e.id in referenced)
    ensures SentDeferred(r, referenced, SpecOf(e.id, e.tool)) <==>
      Loadable(r, e) && (e.id in r.loaded ==> e.id in referenced)
  {
    EntryShown(r, e);
    hide Registered, LoadedView, Candidates, Sound;
  }

  lemma RootWay(r: Registry, referenced: set<string>, s: Spec)
    requires Sound(r) && Root(r, s)
    ensures SentPlain(r, referenced, s) && !SentDeferred(r, referenced, s)
  {
    RegisteredMeans(r, s);
    IdsMeans(x => Loadable(r, x) && x.id in r.loaded, r.catalog, s.id);
    SpecsMeans(x => Loadable(r, x) && x.id !in r.loaded, r.catalog, s);
    hide Registered, Sound, Root, Specs, IdsOf;
    forall e | e in r.catalog ensures e.id != s.id { RootsApart(r, e, s); }
  }

  /** Nothing else is sent. */
  lemma NoOtherWay(r: Registry, referenced: set<string>, s: Spec)
    requires SentPlain(r, referenced, s) || SentDeferred(r, referenced, s)
    ensures Root(r, s) || exists e :: e in r.catalog && Of(s, e)
  {
    RegisteredMeans(r, s);
    SpecsMeans(x => Loadable(r, x) && x.id !in r.loaded, r.catalog, s);
    hide Registered, Root, Specs;
    if s in Candidates(r) {
      var e :| e in r.catalog && s == SpecOf(e.id, e.tool);
      assert Of(s, e);
    }
  }

  function Load(r: Registry, id: string): (r': Registry)
  {
    r.(loaded := r.loaded + [id])
  }

  /** x can be loaded now. */
  predicate CanLoad(r: Registry, x: Entry)
  {
    Sound(r) && x in r.catalog && Loadable(r, x) && x.id !in r.loaded
  }

  /** The history refers to x after its load, and to each Tool that was loaded as it
      did before. */
  predicate RefersAlike(r: Registry, x: Entry, before: set<string>, after: set<string>)
  {
    x.id in after && forall e :: e in r.catalog && Loadable(r, e) && e.id in r.loaded ==>
      (e.id in before <==> e.id in after)
  }

  /** What a load does to one catalog Tool: nothing, exactly when the history refers
      to it as it should. */
  lemma LoadEntryWay(r: Registry, x: Entry, before: set<string>, after: set<string>, e: Entry)
    requires CanLoad(r, x) && e in r.catalog
    ensures SameWay(r, before, Load(r, x.id), after, SpecOf(e.id, e.tool)) <==>
      (e == x ==> x.id in after)
      && (Loadable(r, e) && e.id in r.loaded ==> (e.id in before <==> e.id in after))
  {
    var r' := Load(r, x.id);
    EntryWay(r, before, e);
    EntryWay(r', after, e);
    CatalogMeans(r.sets);
    assert e.id == x.id ==> e == x;
    hide SentPlain, SentDeferred, CatalogOf, EntriesOf, Sound;
  }

  lemma LoadSpecsWay(r: Registry, x: Entry, before: set<string>, after: set<string>)
    requires CanLoad(r, x) && RefersAlike(r, x, before, after)
    ensures forall s :: SameWay(r, before, Load(r, x.id), after, s)
  {
    var r' := Load(r, x.id);
    assert Sound(r) && Sound(r');
    hide SentPlain, SentDeferred, Sound, CanLoad;
    LinesSame(r, r', |r.sets|);
    forall s ensures SameWay(r, before, r', after, s)
    {
      if Root(r, s) {
        RootWay(r, before, s);
        RootWay(r', after, s);
      } else if e :| e in r.catalog && Of(s, e) {
        LoadEntryWay(r, x, before, after, e);
      } else {
        if SentPlain(r, before, s) || SentDeferred(r, before, s) { NoOtherWay(r, before, s); }
        if SentPlain(r', after, s) || SentDeferred(r', after, s) { NoOtherWay(r', after, s); }
      }
    }
  }

  /** The load of x leaves the list of Tools a request sends as it was, its search
      Tool's description included, exactly when the history refers to x afterwards,
      and to each Tool that was loaded as it did before. */
  lemma LoadMovesNothing(r: Registry, x: Entry, before: set<string>, after: set<string>)
    requires CanLoad(r, x)
    ensures RequestTools(r, before) == RequestTools(Load(r, x.id), after) <==> RefersAlike(r, x, before, after)
  {
    var r' := Load(r, x.id);
    SameToolsIff(r, before, r', after);
    hide SameWay, RequestTools, Sound, Load;
    if RefersAlike(r, x, before, after) { LoadSpecsWay(r, x, before, after); }
    if forall s :: SameWay(r, before, r', after, s) {
      forall e | e in r.catalog
        ensures e == x ==> x.id in after
        ensures Loadable(r, e) && e.id in r.loaded ==> (e.id in before <==> e.id in after)
      {
        assert SameWay(r, before, r', after, SpecOf(e.id, e.tool));
        LoadEntryWay(r, x, before, after, e);
      }
      assert x in r.catalog;
    }
  }
}
