# ToV710AggregatedMigrations — reconciliation model

OpenProject's `ToV710AggregatedMigrations` schema migration replaces many older
incremental migrations with one step. Before it builds any table, `up`
compares the versions recorded in the `schema_migrations` ledger with the
version lists of two older aggregated generations:

- ChiliProject 3.0, reported with `v2.4.0`;
- OpenProject 7.1, reported with `v7.4.0`.

Based on that comparison, `up` does one of three things:

- It raises `IncompleteMigrationsError` when a generation is only partly applied.
- It deletes the 7.1 versions from the ledger when that generation is fully applied.
- Otherwise it runs the full table build.

`down` always raises `IrreversibleMigration`.

The project has two modules:

- `RubyArray` (`ruby_array.dfy`) models Ruby's `Array#&` and `Array#-`.
  - `a & b` keeps the order of `a` and keeps each element once.
  - `a - b` keeps duplicates.
  - Array `==` is sequence equality. So "the intersection equals the reference
    list" holds exactly when every version is applied AND the list repeats no
    version (`IntersectIsWhole`).
- `ToV710AggregatedMigrations` (`aggregated_migrations.dfy`) has these parts:
  - `IncompleteCheck` models `raise_on_incomplete_migrations`.
  - `Reconcile` is the branch decision of `up`. It takes the 3.0 list and the
    7.1 list as two separate inputs.
  - The `Migration` class is the migration object. Its fields are the ledger,
    the memo caches that `||=` fills (`@aggregated_versions_3_0` and
    `@all_versions`) and a flag for "the build ran". Its methods mirror the
    source's methods one for one.
- The model gives every outcome a value:
  - a raised exception is `Raised(failure)`;
  - a removal is `DeleteEntries(versions)`, whose effect on the ledger is
    `Difference(ledger, versions)`;
  - the build is `Build`.

As written, `aggregated_versions_7_1` memoises into `@aggregated_versions_3_0`.
`up` reads the 3.0 accessor first, so every later read of the "7.1" list
returns the 3.0 list. `Migration.Up` is proved to decide
`Reconcile(e, e, applied)`, where `e` is the cached 3.0 list. The 7.1 list
never takes part. See Findings.

`remove_applied_migration_entries` refers to `intersection`. That name is a
local variable of `up` and is not in scope in the method. The model passes
the intersection to `RemoveAppliedMigrationEntries` explicitly.

## Model

| member | source | states |
|---|---|---|
| `RubyArray.IntersectMembers` | db/migrate/10000000000000_to_v710_aggregated_migrations.rb:183 | a version is in `agg & applied` exactly when it is in both lists |
| `RubyArray.IntersectNoDups` | db/migrate/10000000000000_to_v710_aggregated_migrations.rb:183 | `agg & applied` never holds a version twice |
| `RubyArray.IntersectIsWhole` | db/migrate/10000000000000_to_v710_aggregated_migrations.rb:185 | the intersection equals the reference list iff every listed version is applied and the list has no duplicates |
| `RubyArray.IntersectIsEmpty` | db/migrate/10000000000000_to_v710_aggregated_migrations.rb:185 | the intersection is empty iff no listed version is applied |
| `RubyArray.DifferenceMembers` | db/migrate/10000000000000_to_v710_aggregated_migrations.rb:187 | a version is in `a - b` exactly when it is in `a` and not in `b` |
| `RubyArray.DifferenceCounts` | db/migrate/10000000000000_to_v710_aggregated_migrations.rb:164-171 | deleting by an `OR` of version equalities removes every row whose version is listed and keeps every other row exactly as often as before |
| `RubyArray.DifferenceExtremes` | db/migrate/10000000000000_to_v710_aggregated_migrations.rb:164-171 | deletion never adds rows; it leaves the ledger intact when no listed version is present, and empties a list whose every entry is listed |
| `ToV710AggregatedMigrations.IncompleteCheckRaisesIff` | db/migrate/10000000000000_to_v710_aggregated_migrations.rb:182-198 | the check raises iff the intersection is non-empty and differs from the list (some version applied, and some not applied or the list repeats one); the error carries the generation's name and version |
| `ToV710AggregatedMigrations.MissingIsUnapplied` | db/migrate/10000000000000_to_v710_aggregated_migrations.rb:187-196 | when the check raises, `missing` holds exactly the listed versions that are not applied, none of them is applied, and it is non-empty when the list has no duplicates |
| `ToV710AggregatedMigrations.RepeatedVersionRaisesWithNothingMissing` | db/migrate/10000000000000_to_v710_aggregated_migrations.rb:183-187 | a fully applied list with a repeated version still raises, with an empty `missing` list |
| `ToV710AggregatedMigrations.ReconcileOutcomes` | db/migrate/10000000000000_to_v710_aggregated_migrations.rb:61-71 | an inconsistent 3.0 generation raises its own error first, whatever the 7.1 state is; otherwise an inconsistent 7.1 generation raises; it raises iff either generation is inconsistent; it removes iff no error and the whole 7.1 list is applied without duplicates, and then removes exactly the 7.1 list; it builds iff no error, the 7.1 list is non-empty and none of it is applied |
| `ToV710AggregatedMigrations.RemovalDeletesExactly` | db/migrate/10000000000000_to_v710_aggregated_migrations.rb:65-68 | after removal, no 7.1 version is left in the ledger and every other ledger entry survives with its multiplicity |
| `ToV710AggregatedMigrations.RemovalIsIdempotent` | db/migrate/10000000000000_to_v710_aggregated_migrations.rb:65-71 | re-running the decision on the ledger a removal left raises nothing and does not remove again; this holds when the 7.1 list is non-empty and the 3.0 list is disjoint from it or contained in it |
| `ToV710AggregatedMigrations.OverlapBreaksIdempotence` | db/migrate/10000000000000_to_v710_aggregated_migrations.rb:61-71 | when the two lists overlap, a removal can leave the 3.0 generation partly applied, so a second run raises |
| `ToV710AggregatedMigrations.AliasedSecondCheckNeverRaises` | db/migrate/10000000000000_to_v710_aggregated_migrations.rb:62-63 | with the 3.0 list standing in for the 7.1 list, any error raised is the ChiliProject one; the OpenProject check never fires |
| `ToV710AggregatedMigrations.SharedCacheSkipsRemoval` | db/migrate/10000000000000_to_v710_aggregated_migrations.rb:914-916 | a ledger holding the whole 7.1 list and none of the 3.0 list is pruned when the lists are kept apart, but gets the full build under the shared cache |
| `ToV710AggregatedMigrations.ReconcileExamples` | db/migrate/10000000000000_to_v710_aggregated_migrations.rb:61-71 | a fully applied 7.1 list {a,b,c} with ledger {a,b,c,x} leaves {x}; ledger {a,x} raises with `missing` = [b, c] |
| `ToV710AggregatedMigrations.Migration.constructor` | db/migrate/10000000000000_to_v710_aggregated_migrations.rb:35 | a new migration object has empty caches and has built nothing |
| `ToV710AggregatedMigrations.Migration.AggregatedVersions30` | db/migrate/10000000000000_to_v710_aggregated_migrations.rb:910-912 | returns the cached list if set, otherwise the 3.0 list, and caches it |
| `ToV710AggregatedMigrations.Migration.AggregatedVersions71` | db/migrate/10000000000000_to_v710_aggregated_migrations.rb:914-916 | returns whatever the 3.0 cache holds if it is set, otherwise the 7.1 list, and stores it in the 3.0 cache |
| `ToV710AggregatedMigrations.Migration.AllVersions` | db/migrate/10000000000000_to_v710_aggregated_migrations.rb:918-920 | reads the ledger at most once; later calls return the same snapshot |
| `ToV710AggregatedMigrations.Migration.RaiseOnIncompleteMigrations` | db/migrate/10000000000000_to_v710_aggregated_migrations.rb:182-199 | returns the error `IncompleteCheck` gives for the list against the `all_versions` snapshot |
| `ToV710AggregatedMigrations.Migration.RaiseOnIncomplete30Migrations` | db/migrate/10000000000000_to_v710_aggregated_migrations.rb:174-176 | checks the 3.0 accessor's list under the ChiliProject name and `v2.4.0` |
| `ToV710AggregatedMigrations.Migration.RaiseOnIncomplete71Migrations` | db/migrate/10000000000000_to_v710_aggregated_migrations.rb:178-180 | checks the 7.1 accessor's list (the shared cache's content) under the OpenProject name and `v7.4.0` |
| `ToV710AggregatedMigrations.Migration.RemoveAppliedMigrationEntries` | db/migrate/10000000000000_to_v710_aggregated_migrations.rb:164-171 | the ledger becomes the old ledger without the rows whose version is in the given intersection |
| `ToV710AggregatedMigrations.Migration.RunAggregatedMigrations` | db/migrate/10000000000000_to_v710_aggregated_migrations.rb:82-159 | records that the build ran |
| `ToV710AggregatedMigrations.Migration.Up` | db/migrate/10000000000000_to_v710_aggregated_migrations.rb:61-72 | returns `Reconcile(e, e, applied)` for the cached 3.0 list `e` and the single ledger snapshot; a raised error changes neither ledger nor build flag; otherwise exactly one of deletion and build happens |
| `ToV710AggregatedMigrations.Migration.Down` | db/migrate/10000000000000_to_v710_aggregated_migrations.rb:74-76 | always raises `IrreversibleMigration` with the v7.4 message and changes nothing |

## Findings

| source | as written | input that shows it | evidently intended | confidence | as-written member | corrected member |
|---|---|---|---|---|---|---|
| db/migrate/10000000000000_to_v710_aggregated_migrations.rb:914-916 | `aggregated_versions_7_1` memoises into `@aggregated_versions_3_0`, which `up` has already filled with the 3.0 list, so the 7.1 check repeats the 3.0 check and the removal test compares the 3.0 list | 3.0 list `[a]`, 7.1 list `[b]`, ledger `[b]`: the build runs instead of deleting `b` | a cache of its own for the 7.1 list, so `up` decides on the two lists separately | medium, not executed | `ToV710AggregatedMigrations.SharedCacheSkipsRemoval` | `ToV710AggregatedMigrations.ReconcileOutcomes` |

In the as-written half, `Migration.Up` decides `Reconcile(e, e, applied)`.
`AliasedSecondCheckNeverRaises` and `SharedCacheSkipsRemoval` show what that
loses. The corrected half is `Reconcile(v30, v71, applied)` with two
independent lists, and every lemma about `Reconcile` states the intended
behaviour.

## Left out

- The `create_*` table and index methods and `create_tables` are left out.
  They are static DDL, so the build is the single step
  `RunAggregatedMigrations` (a `built` flag).
- The `Tables::*` and `Aggregated::*` classes and the `Dir[...]` requires are
  not part of this model. `normalized_migrations` is taken as the two lists
  passed to the `Migration` constructor.
- `ActiveRecord::Migrator.get_all_versions` is not part of this model. Its
  result is the `ledger` field, read through `AllVersions`. The model keeps
  versions as strings and does not model integer versions.
- SQL text, connection quoting, the schema-table name and `execute` are left
  out. The `DELETE` becomes a filter on the ledger sequence.
- An empty aggregated list would produce a `DELETE ... WHERE` with no
  condition, which is malformed SQL. The model treats that removal as
  deleting nothing.
- The `remove_applied_migration_entries` source names an unbound
  `intersection`, which would fail at run time. The model passes the
  intersection of `up` instead.
- The error message text (heredoc, `strip!`, `join`) is left out. Only the
  `missing` list, the application name and the version number are kept.
- `spec/models/messages_spec.rb` is left out. It is a Rails model test that
  has no logic of its own.
