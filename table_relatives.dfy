/**
 * One-hop relative discovery: the tables reachable from a table through one
 * foreign key in either direction, and the implied constraints passed over
 * on the way because implied constraints are not included.
 */
module TableRelatives {
  import opened SchemaModel

  /** The columns of `t` the search starts from: those that survive the exclusion test. */
  function NearColumns(s: Schema, t: TableId, includeExcluded: bool): set<Column>
  {
    set c | c in s.columns && c.table == t && Survives(c, includeExcluded)
  }

  /** The constraints that have `c` as their parent column: `c`'s children. */
  function ChildConstraints(s: Schema, c: Column): set<Constraint>
  {
    set k | k in s.constraints && k.parent == c
  }

  /** The constraints that have `c` as their child column: `c`'s parents. */
  function ParentConstraints(s: Schema, c: Column): set<Constraint>
  {
    set k | k in s.constraints && k.child == c
  }

  /** The child columns reached through `ks`: surviving and admitted. */
  function ReachedChildren(ks: set<Constraint>, includeExcluded: bool, includeImplied: bool): set<Column>
  {
    set k | k in ks && Survives(k.child, includeExcluded) && Admitted(k, includeImplied) :: k.child
  }

  /** The parent columns reached through `ks`: surviving and admitted. */
  function ReachedParents(ks: set<Constraint>, includeExcluded: bool, includeImplied: bool): set<Column>
  {
    set k | k in ks && Survives(k.parent, includeExcluded) && Admitted(k, includeImplied) :: k.parent
  }

  /** The constraints of `ks` whose child column survives but which are passed over as implied. */
  function SkippedChildren(ks: set<Constraint>, includeExcluded: bool, includeImplied: bool): set<Constraint>
  {
    set k | k in ks && Survives(k.child, includeExcluded) && !Admitted(k, includeImplied)
  }

  /** The constraints of `ks` whose parent column survives but which are passed over as implied. */
  function SkippedParents(ks: set<Constraint>, includeExcluded: bool, includeImplied: bool): set<Constraint>
  {
    set k | k in ks && Survives(k.parent, includeExcluded) && !Admitted(k, includeImplied)
  }

  /** The constraints with their parent column, resp. child column, in `near`. */
  function ChildrenOf(s: Schema, near: set<Column>): set<Constraint>
  {
    set k | k in s.constraints && k.parent in near
  }

  function ParentsOf(s: Schema, near: set<Column>): set<Constraint>
  {
    set k | k in s.constraints && k.child in near
  }

  /** The far columns reached from the columns in `near`. */
  function FarColumns(s: Schema, near: set<Column>, includeExcluded: bool, includeImplied: bool): set<Column>
  {
    ReachedChildren(ChildrenOf(s, near), includeExcluded, includeImplied)
      + ReachedParents(ParentsOf(s, near), includeExcluded, includeImplied)
  }

  /** The implied constraints passed over from the columns in `near`. */
  function SkippedFrom(s: Schema, near: set<Column>, includeExcluded: bool, includeImplied: bool): set<Constraint>
  {
    SkippedChildren(ChildrenOf(s, near), includeExcluded, includeImplied)
      + SkippedParents(ParentsOf(s, near), includeExcluded, includeImplied)
  }

  /** The immediate relatives of `t`: the tables of the far columns, `t` itself removed. */
  function Relatives(s: Schema, t: TableId, includeExcluded: bool, includeImplied: bool): set<TableId>
  {
    (set c | c in FarColumns(s, NearColumns(s, t, includeExcluded), includeExcluded, includeImplied) :: c.table) - {t}
  }

  /** The implied constraints relative discovery from `t` passes over. */
  function SkippedImplied(s: Schema, t: TableId, includeExcluded: bool, includeImplied: bool): set<Constraint>
  {
    SkippedFrom(s, NearColumns(s, t, includeExcluded), includeExcluded, includeImplied)
  }

  /**
   * Relative discovery. Every column of `t` that survives the exclusion test
   * is followed to its children and to its parents; a far column that
   * survives too is recorded when its constraint is admitted, and otherwise
   * the constraint is added to the caller's accumulator of skipped implied
   * constraints. The tables of the recorded columns, less `t`, are returned.
   */
  method GetTableImmediateRelatives(s: Schema, t: TableId, includeExcluded: bool, includeImplied: bool,
                                    skippedIn: set<Constraint>)
    returns (relatedTables: set<TableId>, skippedOut: set<Constraint>)
    ensures relatedTables == Relatives(s, t, includeExcluded, includeImplied)
    ensures skippedOut == skippedIn + SkippedImplied(s, t, includeExcluded, includeImplied)
    ensures t !in relatedTables
    ensures skippedIn <= skippedOut
    ensures includeImplied ==> skippedOut == skippedIn
  {
    var relatedColumns: set<Column> := {};
    skippedOut := skippedIn;
    ghost var near: set<Column> := {};

    for i := 0 to |s.columns|
      invariant near == NearPrefix(s, t, includeExcluded, i)
      invariant relatedColumns == FarColumns(s, near, includeExcluded, includeImplied)
      invariant skippedOut == skippedIn + SkippedFrom(s, near, includeExcluded, includeImplied)
    {
      var column := s.columns[i];
      NearPrefixStep(s, t, includeExcluded, i);
      if column.table == t && Survives(column, includeExcluded) {
        relatedColumns, skippedOut :=
          FollowChildren(ChildConstraints(s, column), includeExcluded, includeImplied, relatedColumns, skippedOut);
        relatedColumns, skippedOut :=
          FollowParents(ParentConstraints(s, column), includeExcluded, includeImplied, relatedColumns, skippedOut);
        NearStep(s, near, column, includeExcluded, includeImplied);
        near := near + {column};
      }
    }
    NearPrefixAll(s, t, includeExcluded);
    assert includeImplied ==> SkippedFrom(s, near, includeExcluded, includeImplied) == {};

    relatedTables := TablesOf(relatedColumns);
    relatedTables := relatedTables - {t};
  }

  /** The near columns among the first `n` columns of the schema. */
  function NearPrefix(s: Schema, t: TableId, includeExcluded: bool, n: nat): set<Column>
    requires n <= |s.columns|
  {
    set c | c in s.columns[..n] && c.table == t && Survives(c, includeExcluded)
  }

  lemma NearPrefixStep(s: Schema, t: TableId, includeExcluded: bool, i: nat)
    requires i < |s.columns|
    ensures NearPrefix(s, t, includeExcluded, i + 1)
         == NearPrefix(s, t, includeExcluded, i)
          + (if s.columns[i].table == t && Survives(s.columns[i], includeExcluded) then {s.columns[i]} else {})
  {
    assert s.columns[..i + 1] == s.columns[..i] + [s.columns[i]];
  }

  lemma NearPrefixAll(s: Schema, t: TableId, includeExcluded: bool)
    ensures NearPrefix(s, t, includeExcluded, |s.columns|) == NearColumns(s, t, includeExcluded)
  {
    assert s.columns[..|s.columns|] == s.columns;
  }

  /** The inner loop over a column's children (the first inner loop of relative discovery). */
  method FollowChildren(ks: set<Constraint>, includeExcluded: bool, includeImplied: bool,
                        columnsIn: set<Column>, skippedIn: set<Constraint>)
    returns (relatedColumns: set<Column>, skippedOut: set<Constraint>)
    ensures relatedColumns == columnsIn + ReachedChildren(ks, includeExcluded, includeImplied)
    ensures skippedOut == skippedIn + SkippedChildren(ks, includeExcluded, includeImplied)
  {
    relatedColumns, skippedOut := columnsIn, skippedIn;
    var children := ks;
    ghost var seen: set<Constraint> := {};
    while children != {}
      invariant seen + children == ks && seen !! children
      invariant relatedColumns == columnsIn + ReachedChildren(seen, includeExcluded, includeImplied)
      invariant skippedOut == skippedIn + SkippedChildren(seen, includeExcluded, includeImplied)
      decreases children
    {
      var k :| k in children;
      ChildStep(seen, k, includeExcluded, includeImplied);
      children, seen := children - {k}, seen + {k};
      if Survives(k.child, includeExcluded) {
        if includeImplied || !k.implied {
          relatedColumns := relatedColumns + {k.child};
        } else {
          skippedOut := skippedOut + {k};
        }
      }
    }
  }

  /** The inner loop over a column's parents (the second inner loop of relative discovery). */
  method FollowParents(ks: set<Constraint>, includeExcluded: bool, includeImplied: bool,
                        columnsIn: set<Column>, skippedIn: set<Constraint>)
    returns (relatedColumns: set<Column>, skippedOut: set<Constraint>)
    ensures relatedColumns == columnsIn + ReachedParents(ks, includeExcluded, includeImplied)
    ensures skippedOut == skippedIn + SkippedParents(ks, includeExcluded, includeImplied)
  {
    relatedColumns, skippedOut := columnsIn, skippedIn;
    var parents := ks;
    ghost var seen: set<Constraint> := {};
    while parents != {}
      invariant seen + parents == ks && seen !! parents
      invariant relatedColumns == columnsIn + ReachedParents(seen, includeExcluded, includeImplied)
      invariant skippedOut == skippedIn + SkippedParents(seen, includeExcluded, includeImplied)
      decreases parents
    {
      var k :| k in parents;
      ParentStep(seen, k, includeExcluded, includeImplied);
      parents, seen := parents - {k}, seen + {k};
      if Survives(k.parent, includeExcluded) {
        if includeImplied || !k.implied {
          relatedColumns := relatedColumns + {k.parent};
        } else {
          skippedOut := skippedOut + {k};
        }
      }
    }
  }

  /** The loop that turns the related columns into their tables. */
  method TablesOf(columns: set<Column>) returns (tables: set<TableId>)
    ensures tables == set c | c in columns :: c.table
  {
    tables := {};
    var rest := columns;
    ghost var done: set<Column> := {};
    while rest != {}
      invariant done + rest == columns && done !! rest
      invariant tables == set c | c in done :: c.table
      decreases rest
    {
      var c :| c in rest;
      assert (set d | d in done + {c} :: d.table) == (set d | d in done :: d.table) + {c.table};
      rest, done := rest - {c}, done + {c};
      tables := tables + {c.table};
    }
  }

  /** The reached and skipped sets of a union are the unions of the reached and skipped sets. */
  lemma ReachedUnion(a: set<Constraint>, b: set<Constraint>, includeExcluded: bool, includeImplied: bool)
    ensures ReachedChildren(a + b, includeExcluded, includeImplied)
         == ReachedChildren(a, includeExcluded, includeImplied) + ReachedChildren(b, includeExcluded, includeImplied)
    ensures ReachedParents(a + b, includeExcluded, includeImplied)
         == ReachedParents(a, includeExcluded, includeImplied) + ReachedParents(b, includeExcluded, includeImplied)
    ensures SkippedChildren(a + b, includeExcluded, includeImplied)
         == SkippedChildren(a, includeExcluded, includeImplied) + SkippedChildren(b, includeExcluded, includeImplied)
    ensures SkippedParents(a + b, includeExcluded, includeImplied)
         == SkippedParents(a, includeExcluded, includeImplied) + SkippedParents(b, includeExcluded, includeImplied)
  {
  }

  /** Following one more child constraint adds at most its child column or itself. */
  lemma ChildStep(seen: set<Constraint>, k: Constraint, includeExcluded: bool, includeImplied: bool)
    ensures ReachedChildren(seen + {k}, includeExcluded, includeImplied)
         == ReachedChildren(seen, includeExcluded, includeImplied)
          + if Survives(k.child, includeExcluded) && Admitted(k, includeImplied) then {k.child} else {}
    ensures SkippedChildren(seen + {k}, includeExcluded, includeImplied)
         == SkippedChildren(seen, includeExcluded, includeImplied)
          + if Survives(k.child, includeExcluded) && !Admitted(k, includeImplied) then {k} else {}
  {
  }

  /** Following one more parent constraint adds at most its parent column or itself. */
  lemma ParentStep(seen: set<Constraint>, k: Constraint, includeExcluded: bool, includeImplied: bool)
    ensures ReachedParents(seen + {k}, includeExcluded, includeImplied)
         == ReachedParents(seen, includeExcluded, includeImplied)
          + if Survives(k.parent, includeExcluded) && Admitted(k, includeImplied) then {k.parent} else {}
    ensures SkippedParents(seen + {k}, includeExcluded, includeImplied)
         == SkippedParents(seen, includeExcluded, includeImplied)
          + if Survives(k.parent, includeExcluded) && !Admitted(k, includeImplied) then {k} else {}
  {
  }

  /** Adding one near column adds exactly what is reached from that column. */
  lemma NearStep(s: Schema, near: set<Column>, c: Column, includeExcluded: bool, includeImplied: bool)
    ensures FarColumns(s, near + {c}, includeExcluded, includeImplied)
         == FarColumns(s, near, includeExcluded, includeImplied)
          + ReachedChildren(ChildConstraints(s, c), includeExcluded, includeImplied)
          + ReachedParents(ParentConstraints(s, c), includeExcluded, includeImplied)
    ensures SkippedFrom(s, near + {c}, includeExcluded, includeImplied)
         == SkippedFrom(s, near, includeExcluded, includeImplied)
          + SkippedChildren(ChildConstraints(s, c), includeExcluded, includeImplied)
          + SkippedParents(ParentConstraints(s, c), includeExcluded, includeImplied)
  {
    assert ChildrenOf(s, near + {c}) == ChildrenOf(s, near) + ChildConstraints(s, c);
    assert ParentsOf(s, near + {c}) == ParentsOf(s, near) + ParentConstraints(s, c);
    ReachedUnion(ChildrenOf(s, near), ChildConstraints(s, c), includeExcluded, includeImplied);
    ReachedUnion(ParentsOf(s, near), ParentConstraints(s, c), includeExcluded, includeImplied);
  }

  /** `k` is followed from `t`: one end lies in `t` and both ends survive the exclusion test. */
  predicate Followed(s: Schema, t: TableId, includeExcluded: bool, k: Constraint)
  {
    k in s.constraints && Touches(k, t) && Survives(k.parent, includeExcluded) && Survives(k.child, includeExcluded)
  }

  /**
   * The relatives of `t` are exactly the other tables reached through a
   * followed, admitted constraint.
   */
  lemma {:induction false} RelativesExactly(s: Schema, t: TableId, includeExcluded: bool, includeImplied: bool, x: TableId)
    requires WellFormed(s)
    ensures x in Relatives(s, t, includeExcluded, includeImplied) <==>
              x != t && exists k :: Followed(s, t, includeExcluded, k) && Admitted(k, includeImplied) && Crosses(k, t, x)
  {
    var near := NearColumns(s, t, includeExcluded);
    var far := FarColumns(s, near, includeExcluded, includeImplied);
    if x in Relatives(s, t, includeExcluded, includeImplied) {
      var c :| c in far && c.table == x;
      if c in ReachedChildren(ChildrenOf(s, near), includeExcluded, includeImplied) {
        var k :| k in ChildrenOf(s, near) && Survives(k.child, includeExcluded) && Admitted(k, includeImplied) && k.child == c;
        assert Followed(s, t, includeExcluded, k) && Crosses(k, t, x);
      } else {
        var k :| k in ParentsOf(s, near) && Survives(k.parent, includeExcluded) && Admitted(k, includeImplied) && k.parent == c;
        assert Followed(s, t, includeExcluded, k) && Crosses(k, t, x);
      }
    }
    if x != t && exists k :: Followed(s, t, includeExcluded, k) && Admitted(k, includeImplied) && Crosses(k, t, x) {
      var k :| Followed(s, t, includeExcluded, k) && Admitted(k, includeImplied) && Crosses(k, t, x);
      if k.parent.table == t {
        assert k.parent in near;
        assert k in ChildrenOf(s, near);
        assert k.child in far;
      } else {
        assert k.child in near;
        assert k in ParentsOf(s, near);
        assert k.parent in far;
      }
    }
  }

  /** The skipped constraints are exactly the followed constraints that are not admitted. */
  lemma {:induction false} SkippedExactly(s: Schema, t: TableId, includeExcluded: bool, includeImplied: bool, k: Constraint)
    requires WellFormed(s)
    ensures k in SkippedImplied(s, t, includeExcluded, includeImplied) <==>
              Followed(s, t, includeExcluded, k) && !Admitted(k, includeImplied)
  {
    var near := NearColumns(s, t, includeExcluded);
    if Followed(s, t, includeExcluded, k) && !Admitted(k, includeImplied) {
      if k.parent.table == t {
        assert k.parent in near;
        assert k in ChildrenOf(s, near);
      } else {
        assert k.child in near;
        assert k in ParentsOf(s, near);
      }
    }
  }

  /** Including implied constraints leaves nothing to skip; otherwise only implied constraints are skipped. */
  lemma ImpliedSkipsOnlyImplied(s: Schema, t: TableId, includeExcluded: bool, includeImplied: bool)
    ensures includeImplied ==> SkippedImplied(s, t, includeExcluded, includeImplied) == {}
    ensures forall k | k in SkippedImplied(s, t, includeExcluded, includeImplied) :: k.implied && k in s.constraints
  {
  }

  /** The schema with every constraint on column `c` removed. */
  function DropColumn(s: Schema, c: Column): Schema
  {
    s.(constraints := set k | k in s.constraints && k.parent != c && k.child != c)
  }

  /**
   * A column that fails the exclusion test, at either end of a constraint,
   * contributes nothing: discovery over the schema without its constraints
   * finds the same relatives and skips the same constraints, less its own.
   */
  lemma {:induction false} FailingColumnContributesNothing(s: Schema, t: TableId, includeExcluded: bool, includeImplied: bool, c: Column)
    requires WellFormed(s)
    requires !Survives(c, includeExcluded)
    ensures Relatives(DropColumn(s, c), t, includeExcluded, includeImplied) == Relatives(s, t, includeExcluded, includeImplied)
    ensures SkippedImplied(DropColumn(s, c), t, includeExcluded, includeImplied) == SkippedImplied(s, t, includeExcluded, includeImplied)
    ensures forall k | k in SkippedImplied(s, t, includeExcluded, includeImplied) :: k.parent != c && k.child != c
  {
    var d := DropColumn(s, c);
    assert WellFormed(d);
    forall x
      ensures x in Relatives(d, t, includeExcluded, includeImplied) <==> x in Relatives(s, t, includeExcluded, includeImplied)
    {
      RelativesExactly(s, t, includeExcluded, includeImplied, x);
      RelativesExactly(d, t, includeExcluded, includeImplied, x);
      if x in Relatives(s, t, includeExcluded, includeImplied) {
        var k :| Followed(s, t, includeExcluded, k) && Admitted(k, includeImplied) && Crosses(k, t, x);
        assert Followed(d, t, includeExcluded, k);
      }
    }
    forall k
      ensures k in SkippedImplied(d, t, includeExcluded, includeImplied) <==> k in SkippedImplied(s, t, includeExcluded, includeImplied)
    {
      SkippedExactly(s, t, includeExcluded, includeImplied, k);
      SkippedExactly(d, t, includeExcluded, includeImplied, k);
    }
    forall k | k in SkippedImplied(s, t, includeExcluded, includeImplied)
      ensures k.parent != c && k.child != c
    {
      SkippedExactly(s, t, includeExcluded, includeImplied, k);
    }
  }

  /**
   * A column that is excluded but not all-excluded is followed when excluded
   * columns are included: allowing them only ever adds relatives and skips.
   */
  lemma {:induction false} IncludingExcludedOnlyAdds(s: Schema, t: TableId, includeImplied: bool)
    requires WellFormed(s)
    ensures Relatives(s, t, false, includeImplied) <= Relatives(s, t, true, includeImplied)
    ensures SkippedImplied(s, t, false, includeImplied) <= SkippedImplied(s, t, true, includeImplied)
  {
    forall x | x in Relatives(s, t, false, includeImplied)
      ensures x in Relatives(s, t, true, includeImplied)
    {
      RelativesExactly(s, t, false, includeImplied, x);
      RelativesExactly(s, t, true, includeImplied, x);
      var k :| Followed(s, t, false, k) && Admitted(k, includeImplied) && Crosses(k, t, x);
      assert Followed(s, t, true, k);
    }
    forall k | k in SkippedImplied(s, t, false, includeImplied)
      ensures k in SkippedImplied(s, t, true, includeImplied)
    {
      SkippedExactly(s, t, false, includeImplied, k);
      SkippedExactly(s, t, true, includeImplied, k);
    }
  }

  /**
   * A skipped implied constraint does not record its far column: discovery
   * over the schema without it finds the same relatives.
   */
  lemma {:induction false} SkippedRecordsNoRelative(s: Schema, t: TableId, includeExcluded: bool, includeImplied: bool, k: Constraint)
    requires WellFormed(s)
    requires k in SkippedImplied(s, t, includeExcluded, includeImplied)
    ensures Relatives(s.(constraints := s.constraints - {k}), t, includeExcluded, includeImplied)
         == Relatives(s, t, includeExcluded, includeImplied)
  {
    var d := s.(constraints := s.constraints - {k});
    SkippedExactly(s, t, includeExcluded, includeImplied, k);
    forall x
      ensures x in Relatives(d, t, includeExcluded, includeImplied) <==> x in Relatives(s, t, includeExcluded, includeImplied)
    {
      RelativesExactly(s, t, includeExcluded, includeImplied, x);
      RelativesExactly(d, t, includeExcluded, includeImplied, x);
      if x in Relatives(s, t, includeExcluded, includeImplied) {
        var j :| Followed(s, t, includeExcluded, j) && Admitted(j, includeImplied) && Crosses(j, t, x);
        assert j != k;
        assert Followed(d, t, includeExcluded, j);
      }
    }
  }
}
