/**
 * The reconciliation step of the `ToV710AggregatedMigrations` schema
 * migration: given the versions recorded in the `schema_migrations` ledger
 * and the version lists of two older aggregated generations (the ChiliProject
 * 3.0 set and the OpenProject 7.1 set), `up` either raises
 * `IncompleteMigrationsError`, deletes the 7.1 versions from the ledger, or
 * runs the full table build.
 *
 * `Reconcile` is the decision with the two generations kept apart.
 * `Migration` is the migration object itself, with its memoising accessors;
 * as written, its 7.1 accessor shares the 3.0 accessor's cache, so its `up`
 * decides `Reconcile(e, e, applied)` where `e` is the 3.0 list.
 */
module ToV710AggregatedMigrations {
  import opened RubyArray

  /** A migration version identifier, as stored in `schema_migrations`. */
  type Version = string

  datatype Option<T> = None | Some(value: T) {
    /** The held value, or `default` when there is none. */
    function GetOr(default: T): T {
      if Some? then value else default
    }
  }

  /** The exceptions this migration raises. */
  datatype Failure =
    | IncompleteMigrations(missing: seq<Version>, versionNumber: string, appName: string)
    | IrreversibleMigration(message: string)

  /** What one run of `up` (or `down`) does. */
  datatype Outcome =
    | Raised(failure: Failure)
      // the ledger rows whose version is one of `versions` are deleted
    | DeleteEntries(versions: seq<Version>)
      // every `create_*` step of the aggregated schema is run
    | Build

  const ChiliProjectVersion: string := "v2.4.0"
  const ChiliProjectName: string := "ChiliProject"
  const OpenProjectVersion: string := "v7.4.0"
  const OpenProjectName: string := "OpenProject"
  const DownMessage: string := "Use OpenProject v7.4 for the down migrations"

  /** A generation is consistent with the applied versions when none of it
      is applied, or all of it is and its list equals its own intersection
      (no repeated version). */
  predicate Consistent(agg: seq<Version>, applied: seq<Version>) {
    NoneIn(agg, applied) || (AllIn(agg, applied) && NoDups(agg))
  }

  /** `raise_on_incomplete_migrations`: the error it raises, if any. */
  function IncompleteCheck(agg: seq<Version>, applied: seq<Version>,
                           versionNumber: string, appName: string): Option<Failure>
  {
    var intersection := Intersect(agg, applied);
    if intersection != [] && intersection != agg
    then Some(IncompleteMigrations(Difference(agg, intersection), versionNumber, appName))
    else None
  }

  /** The branch decision of `up`, given the 3.0 list, the 7.1 list and the
      applied versions: the 3.0 check, then the 7.1 check, then removal when
      the whole 7.1 list is its own intersection, otherwise the build. */
  function Reconcile(v30: seq<Version>, v71: seq<Version>, applied: seq<Version>): Outcome
  {
    match IncompleteCheck(v30, applied, ChiliProjectVersion, ChiliProjectName)
    case Some(f) => Raised(f)
    case None =>
      match IncompleteCheck(v71, applied, OpenProjectVersion, OpenProjectName)
      case Some(f) => Raised(f)
      case None =>
        var intersection := Intersect(v71, applied);
        if intersection == v71 then DeleteEntries(intersection) else Build
  }

  /** The check raises exactly when the generation is inconsistent: some of
      it is applied, and either some of it is not or its list repeats a
      version. The error names this generation. */
  lemma IncompleteCheckRaisesIff(agg: seq<Version>, applied: seq<Version>,
                                 versionNumber: string, appName: string)
    ensures IncompleteCheck(agg, applied, versionNumber, appName).Some?
        <==> !Consistent(agg, applied)
    ensures IncompleteCheck(agg, applied, versionNumber, appName).Some? ==>
        IncompleteCheck(agg, applied, versionNumber, appName).value.IncompleteMigrations? &&
        IncompleteCheck(agg, applied, versionNumber, appName).value.appName == appName &&
        IncompleteCheck(agg, applied, versionNumber, appName).value.versionNumber == versionNumber
  {
    IntersectIsEmpty(agg, applied);
    IntersectIsWhole(agg, applied);
  }

  /** The reported `missing` list holds exactly the versions of the
      generation that are not applied, so none of them is applied; it is
      non-empty whenever the generation lists each version once. */
  lemma MissingIsUnapplied(agg: seq<Version>, applied: seq<Version>,
                           versionNumber: string, appName: string)
    requires IncompleteCheck(agg, applied, versionNumber, appName).Some?
    ensures var missing := IncompleteCheck(agg, applied, versionNumber, appName).value.missing;
      (forall x :: x in missing <==> x in agg && x !in applied) &&
      NoneIn(missing, applied) &&
      (NoDups(agg) ==> missing != [])
  {
    var intersection := Intersect(agg, applied);
    var missing := Difference(agg, intersection);
    IntersectMembers(agg, applied);
    DifferenceMembers(agg, intersection);
    if NoDups(agg) {
      IncompleteCheckRaisesIff(agg, applied, versionNumber, appName);
      var x :| x in agg && x !in applied;
      assert x in missing;
    }
  }

  /** A repeated version in a fully applied generation still raises, and
      then with an empty `missing` list. */
  lemma RepeatedVersionRaisesWithNothingMissing()
    ensures IncompleteCheck(["a", "a"], ["a"], OpenProjectVersion, OpenProjectName)
         == Some(IncompleteMigrations([], OpenProjectVersion, OpenProjectName))
  {
    assert Intersect(["a", "a"], ["a"]) == ["a"] by {
      assert ["a", "a"][..1] == ["a"];
      assert ["a"][..0] == [];
    }
  }

  /** The three branches of `up`, by the state of each generation. The 3.0
      generation is checked first, so an inconsistent 3.0 generation is
      reported whatever the 7.1 generation looks like; removal deletes
      exactly the 7.1 list; and the build runs only when no 7.1 version is
      applied. */
  lemma ReconcileOutcomes(v30: seq<Version>, v71: seq<Version>, applied: seq<Version>)
    ensures var r := Reconcile(v30, v71, applied);
      && (!Consistent(v30, applied) ==>
            r == Raised(IncompleteMigrations(Difference(v30, Intersect(v30, applied)),
                                             ChiliProjectVersion, ChiliProjectName)))
      && (Consistent(v30, applied) && !Consistent(v71, applied) ==>
            r == Raised(IncompleteMigrations(Difference(v71, Intersect(v71, applied)),
                                             OpenProjectVersion, OpenProjectName)))
      && (r.Raised? <==> !Consistent(v30, applied) || !Consistent(v71, applied))
      && (r.DeleteEntries? <==> Consistent(v30, applied) && AllIn(v71, applied) && NoDups(v71))
      && (r.DeleteEntries? ==> r.versions == v71)
      && (r.Build? <==> Consistent(v30, applied) && v71 != [] && NoneIn(v71, applied))
  {
    IncompleteCheckRaisesIff(v30, applied, ChiliProjectVersion, ChiliProjectName);
    IncompleteCheckRaisesIff(v71, applied, OpenProjectVersion, OpenProjectName);
    IntersectIsEmpty(v71, applied);
    IntersectIsWhole(v71, applied);
    if v71 != [] && NoneIn(v71, applied) {
      assert v71[0] in v71;
    }
  }

  /** The ledger left by a removal keeps every row whose version is not in
      the 7.1 list, as often as before, and holds no 7.1 version. */
  lemma RemovalDeletesExactly(v30: seq<Version>, v71: seq<Version>, ledger: seq<Version>)
    requires Reconcile(v30, v71, ledger).DeleteEntries?
    ensures var after := Difference(ledger, Reconcile(v30, v71, ledger).versions);
      (forall x :: multiset(after)[x] == if x in v71 then 0 else multiset(ledger)[x]) &&
      NoneIn(v71, after)
  {
    ReconcileOutcomes(v30, v71, ledger);
    DifferenceCounts(ledger, v71);
    DifferenceMembers(ledger, v71);
  }

  /** Idempotence: running the decision again on the ledger a removal left
      raises nothing and builds rather than removing again, provided the 7.1
      list is not empty and the 3.0 list is either disjoint from it or
      contained in it. */
  lemma {:induction false} RemovalIsIdempotent(v30: seq<Version>, v71: seq<Version>, ledger: seq<Version>)
    requires Reconcile(v30, v71, ledger).DeleteEntries?
    requires v71 != []
    requires NoneIn(v30, v71) || AllIn(v30, v71)
    ensures Reconcile(v30, v71, Difference(ledger, Reconcile(v30, v71, ledger).versions)) == Build
  {
    var after := Difference(ledger, v71);
    ReconcileOutcomes(v30, v71, ledger);
    DifferenceMembers(ledger, v71);
    if NoneIn(v30, ledger) {
      assert NoneIn(v30, after);
    } else if NoneIn(v30, v71) {
      assert AllIn(v30, after);
    } else {
      assert NoneIn(v30, after);
    }
    assert NoneIn(v71, after);
    ReconcileOutcomes(v30, v71, after);
  }

  /** Why `RemovalIsIdempotent` needs its last premise: when the two lists
      overlap, the removal can leave the 3.0 generation half applied, and the
      second run raises. */
  lemma OverlapBreaksIdempotence()
    ensures Reconcile(["a", "b"], ["b", "c"], ["a", "b", "c"]) == DeleteEntries(["b", "c"])
    ensures Difference(["a", "b", "c"], ["b", "c"]) == ["a"]
    ensures Reconcile(["a", "b"], ["b", "c"], ["a"]).Raised?
  {
    var v30: seq<Version> := ["a", "b"];
    var v71: seq<Version> := ["b", "c"];
    var ledger: seq<Version> := ["a", "b", "c"];
    assert AllIn(v30, ledger) && NoDups(v30);
    assert AllIn(v71, ledger) && NoDups(v71);
    ReconcileOutcomes(v30, v71, ledger);
    assert ledger[1..] == v71 && v71[1..] == ["c"] && ["c"][1..] == [];
    assert Difference(ledger, v71) == ["a"];
    var after: seq<Version> := ["a"];
    assert "a" in v30 && "a" in after && "b" in v30 && "b" !in after;
    ReconcileOutcomes(v30, v71, after);
  }

  /** Every run of the 7.1 check inside `Reconcile(e, e, applied)`, the
      decision `up` takes as written, passes: an `OpenProject` error is never
      raised, whatever the 7.1 list holds. */
  lemma AliasedSecondCheckNeverRaises(e: seq<Version>, applied: seq<Version>)
    ensures Reconcile(e, e, applied).Raised? ==>
      Reconcile(e, e, applied).failure.IncompleteMigrations? &&
      Reconcile(e, e, applied).failure.appName == ChiliProjectName
  {
    ReconcileOutcomes(e, e, applied);
  }

  /** The counterexample to the shared cache: a ledger holding the whole
      7.1 generation and none of the 3.0 generation. With both lists kept
      apart the 7.1 versions are deleted; with the 3.0 list standing in for
      the 7.1 list, as `up` has it, the full build runs instead. */
  lemma SharedCacheSkipsRemoval()
    ensures Reconcile(["a"], ["b"], ["b"]) == DeleteEntries(["b"])
    ensures Reconcile(["a"], ["a"], ["b"]) == Build
  {
    ReconcileOutcomes(["a"], ["b"], ["b"]);
    ReconcileOutcomes(["a"], ["a"], ["b"]);
  }

  /** The examples of a removal and of a partial 7.1 generation. */
  lemma ReconcileExamples()
    ensures Reconcile([], ["a", "b", "c"], ["a", "b", "c", "x"]) == DeleteEntries(["a", "b", "c"])
    ensures Difference(["a", "b", "c", "x"], ["a", "b", "c"]) == ["x"]
    ensures Reconcile([], ["a", "b", "c"], ["a", "x"])
         == Raised(IncompleteMigrations(["b", "c"], OpenProjectVersion, OpenProjectName))
  {
    var abc: seq<Version> := ["a", "b", "c"];
    var full: seq<Version> := ["a", "b", "c", "x"];
    assert AllIn(abc, full) && NoDups(abc);
    ReconcileOutcomes([], abc, full);
    assert full[1..] == ["b", "c", "x"] && full[1..][1..] == ["c", "x"] && full[1..][1..][1..] == ["x"];
    assert Difference(["x"], abc) == ["x"];

    var partial: seq<Version> := ["a", "x"];
    assert "a" in abc && "a" in partial && "b" in abc && "b" !in partial;
    ReconcileOutcomes([], abc, partial);
    var intersection := Intersect(abc, partial);
    IntersectMembers(abc, partial);
    assert "a" in intersection && "b" !in intersection && "c" !in intersection;
    assert abc[1..] == ["b", "c"] && abc[1..][1..] == ["c"];
    assert Difference(["c"], intersection) == ["c"];
    assert Difference(abc, intersection) == ["b", "c"];
  }

  /**
   * The migration object. The ledger is the `schema_migrations` table; the
   * two aggregated version lists are what `normalized_migrations` of the
   * 3.0 and 7.1 aggregations returns (opaque inputs here); the caches are
   * the instance variables that `||=` fills.
   */
  class Migration {
    const to30: seq<Version>
    const to71: seq<Version>
    var ledger: seq<Version>
    // `@aggregated_versions_3_0`, the ONLY version-list cache of the source
    var aggregatedVersions30: Option<seq<Version>>
    // `@all_versions`
    var allVersions: Option<seq<Version>>
    // whether `run_aggregated_migrations` has run
    var built: bool

    constructor (to30: seq<Version>, to71: seq<Version>, ledger: seq<Version>)
      ensures this.to30 == to30 && this.to71 == to71 && this.ledger == ledger
      ensures aggregatedVersions30 == None && allVersions == None && !built
    {
      this.to30 := to30;
      this.to71 := to71;
      this.ledger := ledger;
      aggregatedVersions30 := None;
      allVersions := None;
      built := false;
    }

    /** `aggregated_versions_3_0`: the 3.0 list, computed at most once. */
    method AggregatedVersions30() returns (v: seq<Version>)
      modifies this`aggregatedVersions30
      ensures v == if old(aggregatedVersions30).Some? then old(aggregatedVersions30).value else to30
      ensures aggregatedVersions30 == Some(v)
    {
      if aggregatedVersions30.None? {
        aggregatedVersions30 := Some(to30);
      }
      v := aggregatedVersions30.value;
    }

    /** `aggregated_versions_7_1`: as written it fills and reads the 3.0
        cache, so once that cache is set it returns the 3.0 list. */
    method AggregatedVersions71() returns (v: seq<Version>)
      modifies this`aggregatedVersions30
      ensures v == if old(aggregatedVersions30).Some? then old(aggregatedVersions30).value else to71
      ensures aggregatedVersions30 == Some(v)
    {
      if aggregatedVersions30.None? {
        aggregatedVersions30 := Some(to71);
      }
      v := aggregatedVersions30.value;
    }

    /** `all_versions`: the ledger, read at most once. */
    method AllVersions() returns (v: seq<Version>)
      modifies this`allVersions
      ensures v == if old(allVersions).Some? then old(allVersions).value else ledger
      ensures allVersions == Some(v)
    {
      if allVersions.None? {
        allVersions := Some(ledger);
      }
      v := allVersions.value;
    }

    /** `raise_on_incomplete_migrations` against the `all_versions` snapshot. */
    method RaiseOnIncompleteMigrations(agg: seq<Version>, versionNumber: string, appName: string)
      returns (raised: Option<Failure>)
      modifies this`allVersions
      ensures allVersions == Some(if old(allVersions).Some? then old(allVersions).value else ledger)
      ensures raised == IncompleteCheck(agg, allVersions.value, versionNumber, appName)
    {
      var applied := AllVersions();
      var intersection := Intersect(agg, applied);
      if intersection != [] && intersection != agg {
        var missing := Difference(agg, intersection);
        raised := Some(IncompleteMigrations(missing, versionNumber, appName));
      } else {
        raised := None;
      }
    }

    /** `raise_on_incomplete_3_0_migrations`. */
    method RaiseOnIncomplete30Migrations() returns (raised: Option<Failure>)
      modifies this`allVersions, this`aggregatedVersions30
      ensures aggregatedVersions30 == Some(old(aggregatedVersions30).GetOr(to30))
      ensures allVersions == Some(old(allVersions).GetOr(ledger))
      ensures raised == IncompleteCheck(aggregatedVersions30.value, allVersions.value,
                                        ChiliProjectVersion, ChiliProjectName)
    {
      var agg := AggregatedVersions30();
      raised := RaiseOnIncompleteMigrations(agg, ChiliProjectVersion, ChiliProjectName);
    }

    /** `raise_on_incomplete_7_1_migrations`. */
    method RaiseOnIncomplete71Migrations() returns (raised: Option<Failure>)
      modifies this`allVersions, this`aggregatedVersions30
      ensures aggregatedVersions30 == Some(old(aggregatedVersions30).GetOr(to71))
      ensures allVersions == Some(old(allVersions).GetOr(ledger))
      ensures raised == IncompleteCheck(aggregatedVersions30.value, allVersions.value,
                                        OpenProjectVersion, OpenProjectName)
    {
      var agg := AggregatedVersions71();
      raised := RaiseOnIncompleteMigrations(agg, OpenProjectVersion, OpenProjectName);
    }

    /** `remove_applied_migration_entries`: one `DELETE` whose condition is
        an `OR` of one version equality per element of the intersection. The
        source refers to `intersection`, a local variable of `up` that is not
        in scope in this method; here it is passed explicitly. */
    method RemoveAppliedMigrationEntries(intersection: seq<Version>)
      modifies this`ledger
      ensures ledger == Difference(old(ledger), intersection)
    {
      ledger := Difference(ledger, intersection);
    }

    /** `run_aggregated_migrations`, as one opaque step. */
    method RunAggregatedMigrations()
      modifies this`built
      ensures built
    {
      built := true;
    }

    /** `up`. Both checks run before anything changes; a raised error leaves
        the ledger and the schema alone; otherwise exactly one of removal and
        build happens. Because the 7.1 accessor reads the 3.0 cache, the
        decision is `Reconcile(e, e, applied)` with `e` the 3.0 list. */
    method Up() returns (r: Outcome)
      modifies this`allVersions, this`aggregatedVersions30, this`ledger, this`built
      ensures var e := old(aggregatedVersions30).GetOr(to30);
              var applied := old(allVersions).GetOr(old(ledger));
        && r == Reconcile(e, e, applied)
        && aggregatedVersions30 == Some(e)
        && allVersions == Some(applied)
      ensures ledger == if r.DeleteEntries? then Difference(old(ledger), r.versions) else old(ledger)
      ensures built == (old(built) || r.Build?)
    {
      var raised := RaiseOnIncomplete30Migrations();
      if raised.Some? {
        return Raised(raised.value);
      }
      raised := RaiseOnIncomplete71Migrations();
      if raised.Some? {
        return Raised(raised.value);
      }
      var agg71 := AggregatedVersions71();
      var applied := AllVersions();
      var intersection := Intersect(agg71, applied);
      if intersection == agg71 {
        RemoveAppliedMigrationEntries(intersection);
        r := DeleteEntries(intersection);
      } else {
        RunAggregatedMigrations();
        r := Build;
      }
    }

    /** `down`: always raises `IrreversibleMigration` and changes nothing. */
    method Down() returns (r: Outcome)
      ensures r.Raised? && r.failure.IrreversibleMigration?
      ensures r.failure.message == DownMessage
    {
      r := Raised(IrreversibleMigration(DownMessage));
    }
  }
}
