/** Tool IDs: their order, and the qualified IDs of the Tools of a ToolSet. */
module ToolIds {
  import opened Seqs

  /** The order of strings, by their first difference. */
  predicate Before(a: string, b: string)
  {
    b != "" && (a == "" || a[0] < b[0] || (a[0] == b[0] && Before(a[1..], b[1..])))
  }

  lemma {:induction false} BeforeTotal(a: string, b: string)
    ensures a == b || Before(a, b) || Before(b, a)
  {
    if a != "" && b != "" && a[0] == b[0] {
      BeforeTotal(a[1..], b[1..]);
      assert a == [a[0]] + a[1..] && b == [b[0]] + b[1..];
    }
  }

  lemma {:induction false} BeforeTransitive(a: string, b: string, c: string)
    requires Before(a, b) && Before(b, c)
    ensures Before(a, c)
  {
    if a != "" && a[0] == b[0] && b[0] == c[0] { BeforeTransitive(a[1..], b[1..], c[1..]); }
  }

  lemma {:induction false} BeforeIrreflexive(a: string)
    ensures !Before(a, a)
  {
    if a != "" { BeforeIrreflexive(a[1..]); }
  }

  // ----- qualified IDs -----

  predicate Dotless(name: string)
  {
    forall i :: 0 <= i < |name| ==> name[i] != '.'
  }

  function Qualify(space: string, local: string): (id: string)
  {
    if space == "" then local else space + "." + local
  }

  /** What comes before the first dot. */
  function SpaceOf(id: string): (space: string)
  {
    if id == "" || id[0] == '.' then "" else [id[0]] + SpaceOf(id[1..])
  }

  lemma {:induction false} SpaceOfQualified(space: string, local: string)
    requires Dotless(space)
    ensures SpaceOf(space + "." + local) == space
  {
    var id := space + "." + local;
    if space != "" {
      assert space[0] != '.';
      assert id[1..] == space[1..] + "." + local;
      assert space == [space[0]] + space[1..];
      SpaceOfQualified(space[1..], local);
    }
  }

  /** A qualified ID names one ToolSet and one Tool of it, when no ToolSet has a dot
      in its name. */
  lemma QualifyInjective(a: string, x: string, b: string, y: string)
    requires Dotless(a) && Dotless(b) && a != "" && b != ""
    requires Qualify(a, x) == Qualify(b, y)
    ensures a == b && x == y
  {
    SpaceOfQualified(a, x);
    SpaceOfQualified(b, y);
    assert x == (a + "." + x)[|a| + 1..] && y == (b + "." + y)[|b| + 1..];
  }

  /** With a dot in a name it would not: two ToolSets would share an ID. */
  lemma DottedNameCollides()
    ensures Qualify("a", "b.c") == Qualify("a.b", "c") && !Dotless("a.b")
  {
    assert "a" + "." + "b.c" == "a.b" + "." + "c";
    assert "a.b"[1] == '.';
  }
}
