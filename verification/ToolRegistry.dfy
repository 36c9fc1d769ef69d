/** The Tool registry of a Session, changed in place: what a Run's start takes in of
    its ToolSets, what that means for the Tools that are loaded, and a load. A Tool
    that is loaded outlives an outage of its ToolSet. */
module ToolRegistry {
  import opened Seqs
  import opened ToolIds
  import opened ToolCatalog
  import DeferredTools

  /** What a ToolSet says when it is resolved. */
  datatype Answer = Answered(tools: seq<Tool>) | Unavailable

  datatype Report = Report(unavailable: seq<string>, gone: seq<string>)

  // ----- what a resolution does to the loaded Tools -----

  /** What each ToolSet said, in place of what it had. */
  ghost predicate Says(was: seq<ToolSet>, answers: seq<Answer>, now: seq<ToolSet>)
  {
    && |was| == |answers| == |now|
    && forall i :: 0 <= i < |now| ==>
         && now[i].name == was[i].name && now[i].mode == was[i].mode && now[i].description == was[i].description
         && now[i].failed == answers[i].Unavailable?
         && now[i].resolved == if answers[i].Answered? then answers[i].tools else []
  }

  function Installed(sets: seq<ToolSet>, answers: seq<Answer>): (r: seq<ToolSet>)
    requires |answers| == |sets|
  {
    seq(|sets|, i requires 0 <= i < |sets| =>
      match answers[i]
      case Answered(tools) => sets[i].(resolved := tools, failed := false)
      case Unavailable => sets[i].(resolved := [], failed := true))
  }

  function SetNamed(sets: seq<ToolSet>, name: string): (i: Option<nat>)
    ensures i.Some? ==> i.value < |sets| && sets[i.value].name == name
    ensures i.None? ==> forall j :: 0 <= j < |sets| ==> sets[j].name != name
  {
    if sets == [] then None else
    match SetNamed(sets[..|sets| - 1], name)
    case Some(i) => Some(i)
    case None => if Last(sets).name == name then Some(|sets| - 1) else None
  }

  /** The ToolSet an ID belongs to, when it is one the Model loads Tools of. */
  function OwnerOf(sets: seq<ToolSet>, id: string): (i: Option<nat>)
    ensures i.Some? ==> i.value < |sets| && sets[i.value].mode != Active
  {
    match SetNamed(sets, SpaceOf(id))
    case Some(i) => if sets[i].mode == Active then None else Some(i)
    case None => None
  }

  predicate Carried(catalog: seq<Entry>, id: string)
  {
    exists e :: e in catalog && e.id == id
  }

  predicate IsKnown(sets: seq<ToolSet>, catalog: seq<Entry>, id: string)
  {
    exists e :: e in catalog && e.id == id && !(e.owner < |sets| && sets[e.owner].mode == Active)
  }

  predicate IsParked(sets: seq<ToolSet>, id: string)
  {
    OwnerOf(sets, id).Some? && sets[OwnerOf(sets, id).value].failed
  }

  predicate IsGone(sets: seq<ToolSet>, catalog: seq<Entry>, id: string)
  {
    OwnerOf(sets, id).Some? && !sets[OwnerOf(sets, id).value].failed && !Carried(catalog, id)
  }

  /** The IDs that keep says to keep, each once, in order. */
  function Once(keep: string -> bool, ids: seq<string>): (out: seq<string>)
  {
    if ids == [] then [] else
    var rest := Once(keep, ids[..|ids| - 1]);
    if keep(Last(ids)) && Last(ids) !in rest then rest + [Last(ids)] else rest
  }

  lemma {:induction false} OnceMeans(keep: string -> bool, ids: seq<string>)
    ensures forall id :: id in Once(keep, ids) <==> id in ids && keep(id)
    ensures forall i, j :: 0 <= i < j < |Once(keep, ids)| ==> Once(keep, ids)[i] != Once(keep, ids)[j]
  {
    if ids != [] {
      OnceMeans(keep, ids[..|ids| - 1]);
      assert ids == ids[..|ids| - 1] + [Last(ids)];
    }
  }

  function ToKeep(sets: seq<ToolSet>, catalog: seq<Entry>): (p: string -> bool)
    ensures forall id :: p(id) <==> IsKnown(sets, catalog, id)
  {
    id => IsKnown(sets, catalog, id)
  }

  function ToPark(sets: seq<ToolSet>): (p: string -> bool)
    ensures forall id :: p(id) <==> IsParked(sets, id)
  {
    id => IsParked(sets, id)
  }

  function ToDrop(sets: seq<ToolSet>, catalog: seq<Entry>): (p: string -> bool)
    ensures forall id :: p(id) <==> IsGone(sets, catalog, id)
  {
    id => IsGone(sets, catalog, id)
  }

  function Known(sets: seq<ToolSet>, catalog: seq<Entry>, ids: seq<string>): (out: seq<string>)
  {
    Once(ToKeep(sets, catalog), ids)
  }

  function FailedNames(sets: seq<ToolSet>): (names: seq<string>)
  {
    if sets == [] then [] else
    FailedNames(sets[..|sets| - 1]) + if Last(sets).failed then [Last(sets).name] else []
  }

  lemma {:induction false} FailedMeans(sets: seq<ToolSet>)
    ensures forall n :: n in FailedNames(sets) <==> exists i :: 0 <= i < |sets| && sets[i].failed && sets[i].name == n
  {
    if sets != [] {
      var front := sets[..|sets| - 1];
      FailedMeans(front);
      forall n ensures n in FailedNames(sets) <==> exists i :: 0 <= i < |sets| && sets[i].failed && sets[i].name == n
      {
        assert forall i :: 0 <= i < |front| ==> front[i] == sets[i];
        if Last(sets).failed && Last(sets).name == n { assert sets[|sets| - 1].failed; }
      }
    }
  }

  function SetsAfter(sets: seq<ToolSet>, answers: Option<seq<Answer>>): (r: seq<ToolSet>)
    requires answers.Some? ==> |answers.value| == |sets|
  {
    if answers.Some? then Installed(sets, answers.value) else sets
  }

  function CatalogAfter(sets: seq<ToolSet>, catalog: seq<Entry>, answers: Option<seq<Answer>>): (r: seq<Entry>)
    requires answers.Some? ==> |answers.value| == |sets|
  {
    if answers.Some? then CatalogOf(Installed(sets, answers.value)) else catalog
  }

  function Settling(r: Registry, recorded: Option<seq<string>>): (ids: seq<string>)
  {
    if recorded.Some? then recorded.value else r.loaded + r.parked
  }

  /** What apply makes of a registry. recorded, when there is one, is the loaded list
      the Record holds. */
  function Applied(r: Registry, answers: Option<seq<Answer>>, kept: Option<set<string>>,
      recorded: Option<seq<string>>): (r': Registry)
    requires answers.Some? ==> |answers.value| == |r.sets|
  {
    var sets := SetsAfter(r.sets, answers);
    var catalog := CatalogAfter(r.sets, r.catalog, answers);
    var ids := Settling(r, recorded);
    r.(sets := sets, catalog := catalog, kept := kept,
       loaded := Known(sets, catalog, ids), parked := Once(ToPark(sets), ids))
  }

  function ReportOf(r: Registry, answers: Option<seq<Answer>>, recorded: Option<seq<string>>): (report: Report)
    requires answers.Some? ==> |answers.value| == |r.sets|
  {
    var sets := SetsAfter(r.sets, answers);
    var catalog := CatalogAfter(r.sets, r.catalog, answers);
    var ids := Settling(r, recorded);
    Report(FailedNames(sets), Once(ToDrop(sets, catalog), ids))
  }

  function Taken(r: Registry, answers: Option<seq<Answer>>, kept: Option<set<string>>,
      recorded: Option<seq<string>>): (a: (Registry, Report))
    requires answers.Some? ==> |answers.value| == |r.sets|
  {
    (Applied(r, answers, kept, recorded), ReportOf(r, answers, recorded))
  }

  // ----- conservation -----

  /** A qualified ID belongs to the ToolSet whose Tool it is. */
  lemma CarriedByOwner(sets: seq<ToolSet>, id: string, e: Entry)
    requires Named(sets) && Resolved(sets) && e in CatalogOf(sets) && e.id == id
    ensures SetNamed(sets, SpaceOf(id)) == Some(e.owner) && !sets[e.owner].failed
  {
    CatalogMeans(sets);
    EntryOwner(sets, e);
  }

  /** Each ID of an installed ToolSet that is not active has exactly one fate: known
      when its ToolSet answered with it, parked when its ToolSet is unavailable, gone
      when its ToolSet answered without it. */
  lemma OneFate(sets: seq<ToolSet>, id: string)
    requires Named(sets) && Resolved(sets) && OwnerOf(sets, id).Some?
    ensures IsParked(sets, id) <==> sets[OwnerOf(sets, id).value].failed
    ensures IsKnown(sets, CatalogOf(sets), id) <==>
      !sets[OwnerOf(sets, id).value].failed && Carried(CatalogOf(sets), id)
    ensures IsGone(sets, CatalogOf(sets), id) <==>
      !sets[OwnerOf(sets, id).value].failed && !Carried(CatalogOf(sets), id)
  {
    hide CatalogOf, Named, Resolved;
    forall e | e in CatalogOf(sets) && e.id == id
      ensures SetNamed(sets, SpaceOf(id)) == Some(e.owner) && !sets[e.owner].failed
    {
      CarriedByOwner(sets, id, e);
    }
  }

  /** With no recorded list, an apply sends each loaded or parked ID of an installed
      ToolSet that is not active to exactly one of loaded, parked and gone, and puts
      nothing else there. */
  lemma ApplyConserves(r: Registry, answers: seq<Answer>, kept: Option<set<string>>, id: string)
    requires Named(r.sets) && |answers| == |r.sets| && Resolved(Installed(r.sets, answers))
    requires OwnerOf(r.sets, id).Some?
    ensures var r' := Applied(r, Some(answers), kept, None);
      var gone := ReportOf(r, Some(answers), None).gone;
      var had := id in r.loaded || id in r.parked;
      var answer := answers[OwnerOf(r.sets, id).value];
      && (id in r'.loaded <==> had && answer.Answered? && Carried(r'.catalog, id))
      && (id in r'.parked <==> had && answer.Unavailable?)
      && (id in gone <==> had && answer.Answered? && !Carried(r'.catalog, id))
  {
    var sets := Installed(r.sets, answers);
    InstalledNames(r.sets, answers, id);
    var ids := r.loaded + r.parked;
    OneFate(sets, id);
    OnceMeans(ToKeep(sets, CatalogOf(sets)), ids);
    OnceMeans(ToPark(sets), ids);
    OnceMeans(ToDrop(sets, CatalogOf(sets)), ids);
  }

  lemma {:induction false} SameNames(a: seq<ToolSet>, b: seq<ToolSet>, name: string)
    requires |a| == |b| && forall i :: 0 <= i < |a| ==> a[i].name == b[i].name
    ensures SetNamed(a, name) == SetNamed(b, name)
  {
    if a != [] { SameNames(a[..|a| - 1], b[..|b| - 1], name); }
  }

  lemma InstalledNames(sets: seq<ToolSet>, answers: seq<Answer>, id: string)
    requires Named(sets) && |answers| == |sets|
    ensures Named(Installed(sets, answers)) && OwnerOf(Installed(sets, answers), id) == OwnerOf(sets, id)
  {
    SameNames(sets, Installed(sets, answers), SpaceOf(id));
  }

  /** The Tool an answer carries under an ID. */
  predicate Carries(sets: seq<ToolSet>, answers: seq<Answer>, id: string)
    requires |answers| == |sets| && Named(sets) && Resolved(Installed(sets, answers))
  {
    Carried(CatalogOf(Installed(sets, answers)), id)
  }

  /** Over two resolutions, whatever was unavailable in the first: an ID is loaded at
      the end exactly when it was loaded or parked, no answer that came was without
      it, and the second came. */
  lemma OutageRestores(r: Registry, first: seq<Answer>, second: seq<Answer>,
      kept: Option<set<string>>, kept': Option<set<string>>, id: string)
    requires Named(r.sets) && |first| == |r.sets| == |second|
    requires Resolved(Installed(r.sets, first)) && Resolved(Installed(r.sets, second))
    requires OwnerOf(r.sets, id).Some?
    ensures var r' := Applied(Applied(r, Some(first), kept, None), Some(second), kept', None);
      var i := OwnerOf(r.sets, id).value;
      && (id in r'.loaded <==>
            (id in r.loaded || id in r.parked)
            && (first[i].Answered? ==> Carries(r.sets, first, id))
            && second[i].Answered? && Carries(r.sets, second, id))
      && (id in r'.parked ==> second[i].Unavailable?)
  {
    var r1 := Applied(r, Some(first), kept, None);
    InstalledNames(r.sets, first, id);
    InstalledNames(r1.sets, second, id);
    InstalledTwice(r.sets, first, second);
    ApplyConserves(r, first, kept, id);
    hide CatalogOf, Resolved, Installed, Once, Known, OwnerOf, Carried;
    ApplyConserves(r1, second, kept', id);
  }

  lemma InstalledTwice(sets: seq<ToolSet>, first: seq<Answer>, second: seq<Answer>)
    requires |first| == |sets| == |second|
    ensures Installed(Installed(sets, first), second) == Installed(sets, second)
  {
  }

  // ----- a recorded list -----

  /** A ToolSet the Model loads Tools of answered with the Tool of that ID. */
  predicate AnswersWith(sets: seq<ToolSet>, answers: seq<Answer>, id: string)
    requires |answers| == |sets|
  {
    exists i, t :: 0 <= i < |sets| && answers[i].Answered? && t in answers[i].tools
      && sets[i].mode != Active && id == sets[i].name + "." + t.id
  }

  /** The ToolSet of that name space is one the Model loads Tools of, and answered, or
      did not. */
  predicate SpaceAnswered(sets: seq<ToolSet>, answers: seq<Answer>, id: string, answered: bool)
    requires |answers| == |sets|
  {
    exists i :: 0 <= i < |sets| && sets[i].name == SpaceOf(id) && sets[i].mode != Active
      && answers[i].Answered? == answered
  }

  lemma EntryIsAnswered(sets: seq<ToolSet>, answers: seq<Answer>, e: Entry)
    requires Named(sets) && |answers| == |sets| && e.owner < |sets|
    requires e in EntriesOf(Installed(sets, answers), e.owner)
    ensures answers[e.owner].Answered? && e.tool in answers[e.owner].tools
    ensures e.id == sets[e.owner].name + "." + e.tool.id
  {
    InstalledNames(sets, answers, e.id);
    EntryOwner(Installed(sets, answers), e);
  }

  lemma AnsweredHasEntry(sets: seq<ToolSet>, answers: seq<Answer>, i: nat, t: Tool)
    requires Named(sets) && |answers| == |sets| && i < |sets| && answers[i].Answered? && t in answers[i].tools
    ensures Entry(sets[i].name + "." + t.id, t, i) in EntriesOf(Installed(sets, answers), i)
  {
    var j :| 0 <= j < |answers[i].tools| && answers[i].tools[j] == t;
    assert EntriesOf(Installed(sets, answers), i)[j] == Entry(sets[i].name + "." + t.id, t, i);
  }

  lemma KnownIsAnswered(sets: seq<ToolSet>, answers: seq<Answer>, id: string)
    requires Named(sets) && |answers| == |sets| && Resolved(Installed(sets, answers))
    ensures var sets' := Installed(sets, answers);
      IsKnown(sets', CatalogOf(sets'), id) <==> AnswersWith(sets, answers, id)
  {
    var sets' := Installed(sets, answers);
    InstalledNames(sets, answers, id);
    CatalogMeans(sets');
    assert forall i :: 0 <= i < |sets| ==> sets'[i].mode == sets[i].mode;
    hide CatalogOf, Resolved, Named, OwnerOf, EntriesOf, Installed;
    if IsKnown(sets', CatalogOf(sets'), id) {
      var e :| e in CatalogOf(sets') && e.id == id && !(e.owner < |sets'| && sets'[e.owner].mode == Active);
      EntryIsAnswered(sets, answers, e);
    }
    if AnswersWith(sets, answers, id) {
      var i, t :| 0 <= i < |sets| && answers[i].Answered? && t in answers[i].tools
        && sets[i].mode != Active && id == sets[i].name + "." + t.id;
      AnsweredHasEntry(sets, answers, i, t);
    }
  }

  lemma OwnerBySpace(sets: seq<ToolSet>, id: string, i: nat)
    requires Named(sets) && i < |sets| && sets[i].name == SpaceOf(id)
    ensures OwnerOf(sets, id) == if sets[i].mode == Active then None else Some(i)
  {
  }

  lemma FatesBySpace(sets: seq<ToolSet>, answers: seq<Answer>, id: string)
    requires Named(sets) && |answers| == |sets| && Resolved(Installed(sets, answers))
    ensures var sets' := Installed(sets, answers);
      && (IsParked(sets', id) <==> SpaceAnswered(sets, answers, id, false))
      && (IsGone(sets', CatalogOf(sets'), id) <==>
            SpaceAnswered(sets, answers, id, true) && !AnswersWith(sets, answers, id))
  {
    var sets' := Installed(sets, answers);
    InstalledNames(sets, answers, id);
    KnownIsAnswered(sets, answers, id);
    forall i: nat | i < |sets| && sets[i].name == SpaceOf(id)
      ensures OwnerOf(sets', id) == if sets[i].mode == Active then None else Some(i)
    {
      OwnerBySpace(sets', id, i);
    }
    if OwnerOf(sets', id).Some? { OneFate(sets', id); }
    hide CatalogOf, Resolved, Named, AnswersWith, IsKnown;
  }

  /** With a list on record nothing else counts: an ID of it is loaded when its ToolSet
      answered with it, parked when its ToolSet is unavailable, and gone when its ToolSet
      answered without it, each once. */
  lemma RecordDecides(r: Registry, answers: seq<Answer>, kept: Option<set<string>>, list: seq<string>, id: string)
    requires Named(r.sets) && |answers| == |r.sets| && Resolved(Installed(r.sets, answers))
    ensures var r', gone := Applied(r, Some(answers), kept, Some(list)), ReportOf(r, Some(answers), Some(list)).gone;
      && (id in r'.loaded <==> id in list && AnswersWith(r.sets, answers, id))
      && (id in r'.parked <==> id in list && SpaceAnswered(r.sets, answers, id, false))
      && (id in gone <==>
            id in list && SpaceAnswered(r.sets, answers, id, true) && !AnswersWith(r.sets, answers, id))
      && (forall i, j :: 0 <= i < j < |r'.loaded| ==> r'.loaded[i] != r'.loaded[j])
  {
    var sets := Installed(r.sets, answers);
    KnownIsAnswered(r.sets, answers, id);
    FatesBySpace(r.sets, answers, id);
    OnceMeans(ToKeep(sets, CatalogOf(sets)), list);
    OnceMeans(ToPark(sets), list);
    OnceMeans(ToDrop(sets, CatalogOf(sets)), list);
  }

  /** So two Instances that have the same ToolSets agree, whatever each had loaded. */
  lemma RecordDecidesForAll(r: Registry, answers: Option<seq<Answer>>, kept: Option<set<string>>, list: seq<string>,
                            loaded: seq<string>, parked: seq<string>)
    requires answers.Some? ==> |answers.value| == |r.sets|
    ensures var other := r.(loaded := loaded, parked := parked);
      && Applied(r, answers, kept, Some(list)) == Applied(other, answers, kept, Some(list))
      && ReportOf(r, answers, Some(list)) == ReportOf(other, answers, Some(list))
  {
  }

  // ----- the registry, changed in place -----

  /** The names a call may use: the visible IDs, and the names of root Tools. */
  function Callable(r: Registry): (names: set<string>)
  {
    (set s | s in Registered(r) :: s.id) + Aliases(r.statics)
  }

  function Aliases(tools: seq<Tool>): (names: set<string>)
  {
    if tools == [] then {} else
    Aliases(tools[..|tools| - 1]) +
      if Last(tools).hidden then {} else {Last(tools).id, Last(tools).name} - {""}
  }

  ghost predicate Indexes(byCatalog: map<string, Entry>, catalog: seq<Entry>)
  {
    && (forall e :: e in catalog ==> e.id in byCatalog)
    && (forall id :: id in byCatalog ==> byCatalog[id] in catalog && byCatalog[id].id == id)
  }

  datatype LoadStatus = LoadOK | LoadAlready | LoadUnavailable | LoadNotFound

  // ----- the loops over the catalog -----

  method EntriesOfSet(sets: seq<ToolSet>, i: nat) returns (entries: seq<Entry>)
    requires i < |sets|
    ensures entries == EntriesOf(sets, i)
  {
    var state := sets[i];
    entries := [];
    for j := 0 to |state.resolved|
      invariant entries == EntriesOf(sets, i)[..j]
    {
      entries := entries + [Entry(Qualify(state.name, state.resolved[j].id), state.resolved[j], i)];
    }
  }

  /** The catalog of what the ToolSets resolved, in ID order. */
  method MakeCatalog(sets: seq<ToolSet>) returns (catalog: seq<Entry>, byCatalog: map<string, Entry>)
    requires Named(sets) && Resolved(sets)
    ensures catalog == CatalogOf(sets) && Indexes(byCatalog, catalog)
  {
    hide EntriesOf;
    catalog := [];
    for i := 0 to |sets|
      invariant catalog == EntriesTo(sets, i)
    {
      var entries := EntriesOfSet(sets, i);
      catalog := catalog + entries;
    }
    catalog := Sort(ByEntryId(), catalog);
    byCatalog := IndexCatalog(catalog);
  }

  method IndexCatalog(catalog: seq<Entry>) returns (byCatalog: map<string, Entry>)
    ensures Indexes(byCatalog, catalog)
  {
    byCatalog := map[];
    for i := 0 to |catalog|
      invariant Indexes(byCatalog, catalog[..i])
    {
      byCatalog := byCatalog[catalog[i].id := catalog[i]];
    }
    assert catalog[..|catalog|] == catalog;
  }

  /** In an indexed catalog of the ToolSets an ID names one entry. */
  lemma IndexMeans(sets: seq<ToolSet>, catalog: seq<Entry>, byCatalog: map<string, Entry>, id: string)
    requires Named(sets) && Resolved(sets) && catalog == CatalogOf(sets) && Indexes(byCatalog, catalog)
    ensures id in byCatalog <==> Carried(catalog, id)
    ensures id in byCatalog ==> byCatalog[id] in catalog && byCatalog[id].owner < |sets|
    ensures id in byCatalog ==> forall e :: e in catalog && e.id == id ==> e == byCatalog[id]
  {
    CatalogMeans(sets);
    hide CatalogOf, EntriesOf;
  }

  method Find(sets: seq<ToolSet>, name: string) returns (i: Option<nat>)
    ensures i == SetNamed(sets, name)
  {
    i := None;
    for j := 0 to |sets|
      invariant i == SetNamed(sets[..j], name)
    {
      assert sets[..j + 1][..j] == sets[..j];
      if i.None? && sets[j].name == name { i := Some(j); }
    }
    assert sets[..|sets|] == sets;
  }

  method KeepKnown(sets: seq<ToolSet>, catalog: seq<Entry>, byCatalog: map<string, Entry>, ids: seq<string>)
    returns (out: seq<string>)
    requires Named(sets) && Resolved(sets) && catalog == CatalogOf(sets) && Indexes(byCatalog, catalog)
    ensures out == Known(sets, catalog, ids)
  {
    hide CatalogOf, Named, Resolved, Indexes;
    out := [];
    for i := 0 to |ids|
      invariant out == Once(ToKeep(sets, catalog), ids[..i])
    {
      assert ids[..i + 1][..i] == ids[..i];
      var id := ids[i];
      IndexMeans(sets, catalog, byCatalog, id);
      if id !in byCatalog || sets[byCatalog[id].owner].mode == Active || id in out { continue; }
      out := out + [id];
    }
    assert ids[..|ids|] == ids;
  }

  method SettleIds(sets: seq<ToolSet>, catalog: seq<Entry>, byCatalog: map<string, Entry>, ids: seq<string>)
    returns (waiting: seq<string>, gone: seq<string>)
    requires Named(sets) && Resolved(sets) && catalog == CatalogOf(sets) && Indexes(byCatalog, catalog)
    ensures waiting == Once(ToPark(sets), ids) && gone == Once(ToDrop(sets, catalog), ids)
  {
    hide CatalogOf, Named, Resolved, Indexes, SetNamed, Carried;
    waiting, gone := [], [];
    for i := 0 to |ids|
      invariant waiting == Once(ToPark(sets), ids[..i])
      invariant gone == Once(ToDrop(sets, catalog), ids[..i])
    {
      assert ids[..i + 1][..i] == ids[..i];
      var id := ids[i];
      IndexMeans(sets, catalog, byCatalog, id);
      var state := Find(sets, SpaceOf(id));
      if state.None? || sets[state.value].mode == Active { continue; }
      if sets[state.value].failed {
        if id !in waiting { waiting := waiting + [id]; }
      } else if id !in byCatalog {
        if id !in gone { gone := gone + [id]; }
      }
    }
    assert ids[..|ids|] == ids;
  }

  method NamesOfFailed(sets: seq<ToolSet>) returns (names: seq<string>)
    ensures names == FailedNames(sets)
  {
    names := [];
    for i := 0 to |sets|
      invariant names == FailedNames(sets[..i])
    {
      assert sets[..i + 1][..i] == sets[..i];
      if sets[i].failed { names := names + [sets[i].name]; }
    }
    assert sets[..|sets|] == sets;
  }

  method IndexableIds(r: Registry, i: nat) returns (ids: seq<string>)
    ensures ids == IdsOf((e: Entry) => e.owner == i && Indexable(r, e), r.catalog)
  {
    ids := [];
    ghost var pick := (e: Entry) => e.owner == i && Indexable(r, e);
    for k := 0 to |r.catalog|
      invariant ids == IdsOf(pick, r.catalog[..k])
    {
      assert r.catalog[..k + 1][..k] == r.catalog[..k];
      var entry := r.catalog[k];
      if entry.owner == i && Indexable(r, entry) { ids := ids + [entry.id]; }
    }
    assert r.catalog[..|r.catalog|] == r.catalog;
    DeferredTools.IdsSame(pick, (e: Entry) => e.owner == i && Indexable(r, e), r.catalog);
  }

  /** The Tools of a ToolSet the Model may know of: not above the cap, and kept. */
  ghost function Choices(r: Registry, i: nat): (ids: set<string>)
  {
    set e | e in r.catalog && e.owner == i && !e.tool.hidden && (r.kept.Some? ==> e.id in r.kept.value) :: e.id
  }

  /** A ToolSet's line: that it is unavailable, how many Tools it has, or which, in ID
      order. */
  ghost predicate IsLine(r: Registry, i: nat, line: Line)
    requires i < |r.sets|
  {
    var s := r.sets[i];
    && line.name == s.name && line.description == s.description
    && if s.failed then line.UnavailableSet?
       else if s.mode == Folded then line.FoldedSet? && line.count == |Choices(r, i)|
       else
         && line.ListedSet? && (forall id :: id in line.ids <==> id in Choices(r, i))
         && forall j, k :: 0 <= j < k < |line.ids| ==> Before(line.ids[j], line.ids[k])
  }

  lemma {:induction false} IdsAscend(pick: Entry -> bool, es: seq<Entry>)
    requires Ascending(ByEntryId(), es)
    ensures forall j, k :: 0 <= j < k < |IdsOf(pick, es)| ==> Before(IdsOf(pick, es)[j], IdsOf(pick, es)[k])
  {
    if es != [] {
      var front, last := es[..|es| - 1], Last(es);
      IdsAscend(pick, front);
      var rest := IdsOf(pick, front);
      forall j | 0 <= j < |rest| ensures Before(rest[j], last.id)
      {
        DeferredTools.IdsMeans(pick, front, rest[j]);
        var e :| e in front && pick(e) && e.id == rest[j];
        var i :| 0 <= i < |front| && front[i] == e;
        assert ByEntryId()(es[i], es[|es| - 1]);
      }
    }
  }

  lemma {:induction false} AscendingSize(ids: seq<string>)
    requires forall j, k :: 0 <= j < k < |ids| ==> Before(ids[j], ids[k])
    ensures |set id | id in ids| == |ids|
  {
    if ids != [] {
      var front := ids[..|ids| - 1];
      AscendingSize(front);
      if j :| 0 <= j < |front| && front[j] == Last(ids) { BeforeIrreflexive(Last(ids)); }
      assert (set id | id in ids) == (set id | id in front) + {Last(ids)};
    }
  }

  lemma LineIds(r: Registry, i: nat) returns (ids: seq<string>)
    requires Sound(r)
    ensures ids == IdsOf((e: Entry) => e.owner == i && Indexable(r, e), r.catalog)
    ensures forall id :: id in ids <==> id in Choices(r, i)
    ensures |ids| == |Choices(r, i)|
    ensures forall j, k :: 0 <= j < k < |ids| ==> Before(ids[j], ids[k])
  {
    CatalogMeans(r.sets);
    hide Sound, CatalogOf, EntriesOf;
    var pick := (e: Entry) => e.owner == i && Indexable(r, e);
    ids := IdsOf(pick, r.catalog);
    IdsAscend(pick, r.catalog);
    AscendingSize(ids);
    forall id ensures id in ids <==> id in Choices(r, i) { DeferredTools.IdsMeans(pick, r.catalog, id); }
    assert (set id | id in ids) == Choices(r, i);
  }

  lemma LastLine(r: Registry, n: nat) returns (line: Option<Line>)
    requires Sound(r) && 0 < n <= |r.sets|
    ensures line.Some? <==> r.sets[n - 1].mode != Active && (r.sets[n - 1].failed || Choices(r, n - 1) != {})
    ensures line.Some? ==> IsLine(r, n - 1, line.value)
    ensures LinesTo(r, n) == LinesTo(r, n - 1) + if line.Some? then [line.value] else []
  {
    hide Choices, IdsOf, Sound;
    var ids := LineIds(r, n - 1);
    DeferredTools.IdsSame((e: Entry) => e.owner == (n - 1) && Indexable(r, e),
                          (e: Entry) => e.owner == n - 1 && Indexable(r, e), r.catalog);
    var more := LinesTo(r, n)[|LinesTo(r, n - 1)|..];
    assert ids == [] <==> Choices(r, n - 1) == {};
    line := if more == [] then None else Some(more[0]);
  }

  /** The description has one line for each ToolSet of the catalog that is unavailable
      or has a Tool to choose, in the order of the ToolSets, and no other. A loaded Tool
      is listed like any other. owners says which ToolSet each line is of. */
  lemma {:induction false} LinesMean(r: Registry, n: nat) returns (owners: seq<nat>)
    requires Sound(r) && n <= |r.sets|
    ensures |owners| == |LinesTo(r, n)|
    ensures forall j :: 0 <= j < |owners| ==> owners[j] < n && IsLine(r, owners[j], LinesTo(r, n)[j])
    ensures forall j, k :: 0 <= j < k < |owners| ==> owners[j] < owners[k]
    ensures forall i: nat :: i in owners <==>
      i < n && r.sets[i].mode != Active && (r.sets[i].failed || Choices(r, i) != {})
  {
    hide Choices, IsLine, IdsOf, Sound;
    owners := [];
    if n > 0 {
      owners := LinesMean(r, n - 1);
      var line := LastLine(r, n);
      if line.Some? { owners := owners + [n - 1]; }
    }
  }

  /** The description of the search Tool, which says nothing of what is loaded. */
  method CatalogText(r: Registry) returns (lines: seq<Line>)
    ensures lines == LinesTo(r, |r.sets|)
  {
    lines := [];
    for i := 0 to |r.sets|
      invariant lines == LinesTo(r, i)
    {
      var state := r.sets[i];
      var ids := IndexableIds(r, i);
      DeferredTools.IdsSame((e: Entry) => e.owner == i && Indexable(r, e),
                            (e: Entry) => e.owner == (i + 1) - 1 && Indexable(r, e), r.catalog);
      if state.mode == Active || (|ids| == 0 && !state.failed) { continue; }
      if state.failed {
        lines := lines + [UnavailableSet(state.name, state.description)];
      } else if state.mode == Folded {
        lines := lines + [FoldedSet(state.name, state.description, |ids|)];
      } else {
        lines := lines + [ListedSet(state.name, state.description, ids)];
      }
    }
  }

  method RootSpecs(statics: seq<Tool>) returns (built: seq<Spec>)
    ensures built == StaticSpecs(statics)
  {
    built := [];
    for i := 0 to |statics|
      invariant built == StaticSpecs(statics[..i])
    {
      assert statics[..i + 1][..i] == statics[..i];
      if statics[i].hidden { continue; }
      built := built + [SpecOf(statics[i].id, statics[i])];
    }
    assert statics[..|statics|] == statics;
  }

  method ShownSpecs(r: Registry) returns (built: seq<Spec>)
    requires forall e :: e in r.catalog ==> e.owner < |r.sets|
    ensures built == Specs(e => Shown(r, e), r.catalog)
  {
    built := [];
    ghost var pick := (e: Entry) => Shown(r, e);
    for i := 0 to |r.catalog|
      invariant built == Specs(pick, r.catalog[..i])
    {
      assert r.catalog[..i + 1][..i] == r.catalog[..i];
      var entry := r.catalog[i];
      assert entry in r.catalog;
      if r.sets[entry.owner].mode == Active {
        if !Indexable(r, entry) { continue; }
        built := built + [SpecOf(entry.id, entry.tool)];
        continue;
      }
      if Indexable(r, entry) && entry.id in r.loaded { built := built + [SpecOf(entry.id, entry.tool)]; }
    }
    assert r.catalog[..|r.catalog|] == r.catalog;
    SameSpecs(pick, e => Shown(r, e), r.catalog);
  }

  /** The loadable Tools of the catalog: those that are loaded, and those still to load. */
  method SplitCatalog(r: Registry) returns (ids: seq<string>, unloaded: seq<Spec>)
    requires forall e :: e in r.catalog ==> e.owner < |r.sets|
    ensures ids == LoadedView(r) && unloaded == Candidates(r)
  {
    ids, unloaded := [], [];
    ghost var isLoaded := (e: Entry) => Loadable(r, e) && e.id in r.loaded;
    ghost var isLeft := (e: Entry) => Loadable(r, e) && e.id !in r.loaded;
    for i := 0 to |r.catalog|
      invariant ids == IdsOf(isLoaded, r.catalog[..i])
      invariant unloaded == Specs(isLeft, r.catalog[..i])
    {
      assert r.catalog[..i + 1][..i] == r.catalog[..i];
      var entry := r.catalog[i];
      assert entry in r.catalog;
      if r.sets[entry.owner].mode == Active || !Indexable(r, entry) { continue; }
      if entry.id in r.loaded {
        ids := ids + [entry.id];
      } else {
        unloaded := unloaded + [SpecOf(entry.id, entry.tool)];
      }
    }
    assert r.catalog[..|r.catalog|] == r.catalog;
    DeferredTools.IdsSame(isLoaded, e => Loadable(r, e) && e.id in r.loaded, r.catalog);
    SameSpecs(isLeft, e => Loadable(r, e) && e.id !in r.loaded, r.catalog);
  }

  /** Everything the Model is shown, before it is sorted. */
  method RegisterAll(r: Registry) returns (built: seq<Spec>)
    requires forall e :: e in r.catalog ==> e.owner < |r.sets|
    ensures built == Registered(r)
  {
    hide StaticSpecs, Specs, LinesTo, HasCatalog;
    var roots := RootSpecs(r.statics);
    var shown := ShownSpecs(r);
    var searches: seq<Spec> := [];
    var hasCatalog := AnyCatalogSet(r.sets);
    if hasCatalog {
      var lines := CatalogText(r);
      searches := [Spec(SEARCH, SEARCH, SearchText(lines))];
    }
    built := roots + shown + searches;
  }

  method NamesOf(r: Registry, built: seq<Spec>) returns (names: set<string>)
    requires built == Registered(r)
    ensures names == Callable(r)
  {
    hide Registered, Aliases;
    var aliases := AliasesOf(r.statics);
    names := (set s | s in built :: s.id) + aliases;
  }

  method AnyCatalogSet(sets: seq<ToolSet>) returns (has: bool)
    ensures has == HasCatalog(sets)
  {
    for i := 0 to |sets|
      invariant forall j :: 0 <= j < i ==> sets[j].mode == Active
    {
      if sets[i].mode != Active { return true; }
    }
    return false;
  }

  method AliasesOf(statics: seq<Tool>) returns (names: set<string>)
    ensures names == Aliases(statics)
  {
    names := {};
    for i := 0 to |statics|
      invariant names == Aliases(statics[..i])
    {
      assert statics[..i + 1][..i] == statics[..i];
      if statics[i].hidden { continue; }
      if statics[i].id != "" { names := names + {statics[i].id}; }
      if statics[i].name != "" { names := names + {statics[i].name}; }
    }
    assert statics[..|statics|] == statics;
  }

  // ----- the registry itself -----

  class SessionTools {
    var statics: seq<Tool>
    var sets: seq<ToolSet>
    var catalog: seq<Entry>
    var byCatalog: map<string, Entry>
    var loaded: seq<string>
    var parked: seq<string>
    var kept: Option<set<string>>
    var specs: seq<Spec>
    var callable: set<string>

    function State(): (r: Registry)
      reads this
    {
      Registry(statics, sets, catalog, loaded, parked, kept)
    }

    ghost predicate Ready()
      reads this
    {
      Sound(State()) && Indexes(byCatalog, catalog)
    }

    ghost predicate Valid()
      reads this
    {
      Ready() && specs == Visible(State()) && callable == Callable(State())
    }

    constructor (statics: seq<Tool>, sets: seq<ToolSet>, kept: Option<set<string>>, recorded: Option<seq<string>>)
      requires Named(sets) && Resolved(sets) && Rooted(statics, sets)
      ensures Valid()
      ensures State() == Registry(statics, sets, CatalogOf(sets),
        if recorded.Some? then Known(sets, CatalogOf(sets), recorded.value) else [], [], kept)
    {
      this.statics, this.sets, this.kept := statics, sets, kept;
      catalog, byCatalog, loaded, parked, specs, callable := [], map[], [], [], [], {};
      new;
      hide CatalogOf, Named, Resolved, Rooted, Indexes, Visible, Callable, Known;
      catalog, byCatalog := MakeCatalog(sets);
      if recorded.Some? { loaded := KeepKnown(sets, catalog, byCatalog, recorded.value); }
      Rebuild();
    }

    method Install(answers: seq<Answer>)
      requires Named(sets) && |answers| == |sets| && Resolved(Installed(sets, answers))
      modifies this`sets, this`catalog, this`byCatalog
      ensures sets == Installed(old(sets), answers) && catalog == CatalogOf(sets) && Indexes(byCatalog, catalog)
      ensures Says(old(sets), answers, sets)
    {
      hide CatalogOf, Indexes, Resolved;
      ghost var was := sets;
      for i := 0 to |answers|
        invariant |sets| == |was|
        invariant forall j :: 0 <= j < i ==> sets[j] == Installed(was, answers)[j]
        invariant forall j :: i <= j < |was| ==> sets[j] == was[j]
      {
        match answers[i] {
          case Answered(tools) => sets := sets[i := sets[i].(resolved := tools, failed := false)];
          case Unavailable => sets := sets[i := sets[i].(resolved := [], failed := true)];
        }
      }
      assert sets == Installed(was, answers);
      catalog, byCatalog := MakeCatalog(sets);
    }

    /** What a Run's start learned about the ToolSets, taken in. */
    method Apply(answers: Option<seq<Answer>>, kept: Option<set<string>>,
        recorded: Option<seq<string>>) returns (report: Report)
      requires Valid()
      requires answers.Some? ==> |answers.value| == |sets| && Resolved(Installed(sets, answers.value))
      modifies this
      ensures Valid()
      ensures (State(), report) == Taken(old(State()), answers, kept, recorded)
      ensures this.kept == kept && statics == old(statics)
      ensures answers.None? ==> sets == old(sets) && catalog == old(catalog)
      ensures answers.Some? ==> Says(old(sets), answers.value, sets)
      ensures forall n :: n in report.unavailable <==>
        exists i :: 0 <= i < |sets| && sets[i].failed && sets[i].name == n
    {
      hide Visible, Callable, Named, Resolved, Rooted, Indexes, CatalogOf, Installed, Known, Once, FailedNames;
      this.kept := kept;
      assert Ready();
      hide Valid, Ready, Sound, SetsAfter, CatalogAfter;
      TakeIn(answers);
      var ids := loaded + parked;
      if recorded.Some? { ids := recorded.value; }
      var gone := Settle(ids);
      var unavailable := NamesOfFailed(sets);
      FailedMeans(sets);
      Rebuild();
      report := Report(unavailable, gone);
    }

    method TakeIn(answers: Option<seq<Answer>>)
      requires Ready()
      requires answers.Some? ==> |answers.value| == |sets| && Resolved(Installed(sets, answers.value))
      modifies this`sets, this`catalog, this`byCatalog
      ensures Ready()
      ensures sets == SetsAfter(old(sets), answers) && catalog == CatalogAfter(old(sets), old(catalog), answers)
      ensures answers.None? ==> sets == old(sets) && catalog == old(catalog)
      ensures answers.Some? ==> Says(old(sets), answers.value, sets)
    {
      if answers.None? { return; }
      RootedStays(statics, sets, answers.value);
      hide CatalogOf, Named, Resolved, Rooted, Indexes, Installed;
      Install(answers.value);
    }

    method Settle(ids: seq<string>) returns (gone: seq<string>)
      requires Ready()
      modifies this`loaded, this`parked
      ensures Ready() && loaded == Known(sets, catalog, ids) && parked == Once(ToPark(sets), ids)
      ensures gone == Once(ToDrop(sets, catalog), ids)
    {
      hide CatalogOf, Named, Resolved, Rooted, Indexes, Known, Once;
      parked, gone := SettleIds(sets, catalog, byCatalog, ids);
      loaded := KeepKnown(sets, catalog, byCatalog, ids);
    }

    /** The visible Tools, and the names they answer to. */
    method Rebuild()
      requires Ready()
      modifies this`specs, this`callable
      ensures Valid()
    {
      hide Sound, Indexes, Registered, Aliases, Visible, Callable, Says, Taken, Installed;
      var r := State();
      OwnersExist(r);
      var built := RegisterAll(r);
      var names := NamesOf(r, built);
      VisibleIs(r);
      specs := Sort(BySpecId(), built);
      callable := names;
      assert State() == r;
    }

    /** Whether an ID names a catalog Tool the Model may load. */
    method Status(id: string) returns (status: LoadStatus)
      requires Valid()
      ensures status == LoadOK <==> exists x: Entry :: x.id == id && DeferredTools.CanLoad(State(), x)
    {
      IndexMeans(sets, catalog, byCatalog, id);
      if id in byCatalog { CallableMeans(State(), byCatalog[id]); }
      hide Sound, Callable, Visible, Indexes;
      if id in callable { return LoadAlready; }
      if id !in byCatalog {
        var state := Find(sets, SpaceOf(id));
        if SpaceOf(id) != id && state.Some? && sets[state.value].failed { return LoadUnavailable; }
        return LoadNotFound;
      }
      var entry := byCatalog[id];
      if !Indexable(State(), entry) { return LoadNotFound; }
      if sets[entry.owner].mode == Active || id in loaded { return LoadAlready; }
      assert DeferredTools.CanLoad(State(), entry);
      return LoadOK;
    }

    /** Makes a catalog Tool visible, when it can be loaded and is not yet. */
    method Load(id: string) returns (now: bool)
      requires Valid()
      modifies this`loaded, this`specs, this`callable
      ensures Valid()
      ensures now <==> exists x: Entry :: x.id == id && DeferredTools.CanLoad(old(State()), x)
      ensures State() == if now then DeferredTools.Load(old(State()), id) else old(State())
      ensures now <==> id !in old(loaded) && exists x: Entry :: x.id == id && Offered(old(State()), x, false)
      ensures loaded == old(loaded) + if now then [id] else []
    {
      hide CatalogOf, Named, Resolved, Rooted, Indexes, Visible, Callable, DeferredTools.CanLoad;
      forall x: Entry ensures DeferredTools.CanLoad(State(), x) <==> Offered(State(), x, false) && x.id !in loaded
      {
        CanLoadMeans(State(), x);
      }
      var status := Status(id);
      now := status == LoadOK;
      if now {
        loaded := loaded + [id];
        Rebuild();
      }
    }

    /** The catalog Tools still to load, and the loaded ones. */
    method CatalogView() returns (ids: seq<string>, unloaded: seq<Spec>)
      requires Valid()
      ensures ids == LoadedView(State()) && unloaded == Candidates(State())
    {
      CatalogMeans(sets);
      hide CatalogOf, Sound, Visible, Callable, Indexes;
      ids, unloaded := SplitCatalog(State());
    }
  }

  /** A spec shows a Tool under an ID, with its own ID for a name when it has none. */
  predicate Shows(s: Spec, id: string, tool: Tool)
  {
    s.id == id && s.body == Text(tool.text) && s.name == if tool.name == "" then tool.id else tool.name
  }

  /** A catalog Tool the Model may know of, of a ToolSet that is active or not. */
  ghost predicate Offered(r: Registry, e: Entry, active: bool)
  {
    && e in r.catalog && !e.tool.hidden && (r.kept.Some? ==> e.id in r.kept.value)
    && e.owner < |r.sets| && (active <==> r.sets[e.owner].mode == Active)
  }

  lemma OfferedMeans(r: Registry)
    requires Sound(r)
    ensures forall e :: Offered(r, e, false) <==> e in r.catalog && Loadable(r, e)
    ensures forall e :: (Offered(r, e, true) || (Offered(r, e, false) && e.id in r.loaded))
                        <==> (e in r.catalog && Shown(r, e))
  {
    OwnersExist(r);
    hide Sound;
  }

  lemma ShowsMeans(s: Spec, id: string, tool: Tool)
    ensures s == SpecOf(id, tool) <==> Shows(s, id, tool)
  {
  }

  /** The Model is shown the root Tools, those of active ToolSets, the loaded ones and,
      when a ToolSet is not active, the search Tool, less what is above the cap or
      filtered out; and nothing else. */
  lemma VisibleMeans(r: Registry, s: Spec)
    requires Sound(r)
    ensures s in Visible(r) <==>
      || (exists i :: 0 <= i < |r.statics| && !r.statics[i].hidden && Shows(s, r.statics[i].id, r.statics[i]))
      || (exists e :: (Offered(r, e, true) || (Offered(r, e, false) && e.id in r.loaded)) && Shows(s, e.id, e.tool))
      || (s == Spec(SEARCH, SEARCH, SearchText(LinesTo(r, |r.sets|)))
          && exists i :: 0 <= i < |r.sets| && r.sets[i].mode != Active)
    ensures forall i, j :: 0 <= i < j < |Visible(r)| ==> Before(Visible(r)[i].id, Visible(r)[j].id)
  {
    hide Sound, StaticSpecs, Registered, Visible, LinesTo, SpecOf, Shows, Offered, Shown;
    DeferredTools.VisibleAscends(r);
    DeferredTools.RegisteredMeans(r, s);
    DeferredTools.StaticMeans(r.statics, s);
    OfferedMeans(r);
    forall id, tool: Tool ensures s == SpecOf(id, tool) <==> Shows(s, id, tool) { ShowsMeans(s, id, tool); }
    forall i, j | 0 <= i < j < |Visible(r)| ensures Before(Visible(r)[i].id, Visible(r)[j].id)
    {
      assert BySpecId()(Visible(r)[i], Visible(r)[j]);
    }
    assert forall e: Entry :: DeferredTools.Of(s, e) <==> Shows(s, e.id, e.tool);
  }

  /** The two views of the catalog: the loadable Tools, by whether they are loaded. */
  lemma ViewsMean(r: Registry, s: Spec, id: string)
    requires Sound(r)
    ensures id in LoadedView(r) <==> id in r.loaded && exists e :: Offered(r, e, false) && e.id == id
    ensures s in Candidates(r) <==> s.id !in r.loaded && exists e :: Offered(r, e, false) && Shows(s, e.id, e.tool)
  {
    hide Sound, Specs, IdsOf, SpecOf, Offered;
    OfferedMeans(r);
    DeferredTools.IdsMeans(e => Loadable(r, e) && e.id in r.loaded, r.catalog, id);
    DeferredTools.SpecsMeans(e => Loadable(r, e) && e.id !in r.loaded, r.catalog, s);
    forall e: Entry ensures s == SpecOf(e.id, e.tool) <==> Shows(s, e.id, e.tool) { ShowsMeans(s, e.id, e.tool); }
  }

  /** A Tool can be loaded exactly when it is one the Model may know of, its ToolSet is
      not active, and it is not loaded. */
  lemma CanLoadMeans(r: Registry, x: Entry)
    requires Sound(r)
    ensures DeferredTools.CanLoad(r, x) <==> Offered(r, x, false) && x.id !in r.loaded
  {
    OwnersExist(r);
    hide Sound;
  }

  lemma VisibleIs(r: Registry)
    ensures Visible(r) == Sort(BySpecId(), Registered(r))
  {
  }

  lemma OwnersExist(r: Registry)
    requires Sound(r)
    ensures forall e :: e in r.catalog ==> e.owner < |r.sets|
  {
    CatalogMeans(r.sets);
  }

  lemma {:induction false} SameSpecs(p: Entry -> bool, q: Entry -> bool, es: seq<Entry>)
    requires forall e :: p(e) == q(e)
    ensures Specs(p, es) == Specs(q, es)
  {
    if es != [] { SameSpecs(p, q, es[..|es| - 1]); }
  }

  lemma RootedStays(statics: seq<Tool>, sets: seq<ToolSet>, answers: seq<Answer>)
    requires Named(sets) && Rooted(statics, sets) && |answers| == |sets|
    ensures Named(Installed(sets, answers)) && Rooted(statics, Installed(sets, answers))
  {
  }

  lemma {:induction false} AliasMeans(tools: seq<Tool>, name: string)
    ensures name in Aliases(tools) ==> exists i :: 0 <= i < |tools| && (tools[i].id == name || tools[i].name == name)
  {
    if tools != [] {
      AliasMeans(tools[..|tools| - 1], name);
      if name !in Aliases(tools[..|tools| - 1]) && name in Aliases(tools) {
        assert Last(tools) == tools[|tools| - 1];
      }
    }
  }

  /** A catalog Tool answers to its ID exactly when it is shown. */
  lemma CallableMeans(r: Registry, e: Entry)
    requires Sound(r) && e in r.catalog
    ensures e.id in Callable(r) <==> Shown(r, e)
  {
    CatalogMeans(r.sets);
    DeferredTools.CatalogIdTaken(r.sets, e);
    DeferredTools.EntryShown(r, e);
    AliasMeans(r.statics, e.id);
    assert e.id !in Aliases(r.statics);
    hide CatalogOf, EntriesOf, Registered, Aliases, Rooted, Named, Resolved;
    if s: Spec :| s in Registered(r) && s.id == e.id {
      DeferredTools.RegisteredMeans(r, s);
      if DeferredTools.Root(r, s) { DeferredTools.RootsApart(r, e, s); }
    }
    if Shown(r, e) { assert SpecOf(e.id, e.tool).id == e.id; }
  }
}
