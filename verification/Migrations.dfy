/** The migration runner of migrations/migration_engine.py.

The database schema is the set of versions whose `up` step is in effect; the version file holds the last
version recorded. Every single step is atomic, and the caller says how each one goes. */
module Migrations {
  import opened Text

  // ---------- Dotted versions and their order ----------

  /** The strings that `_compare_versions` can read: numerals joined by dots. */
  predicate Dotted(v: string) {
    forall p :: p in Split(v, '.') ==> Numeric(p)
  }

  function Numbers(parts: seq<string>): seq<nat>
    requires forall p :: p in parts ==> Numeric(p)
  {
    if parts == [] then []
    else
      assert Numeric(parts[0]);
      [ToNat(parts[0])] + Numbers(parts[1..])
  }

  /** A component that is missing counts as zero. */
  function Front(p: seq<nat>): nat { if p == [] then 0 else p[0] }
  function Rest(p: seq<nat>): seq<nat> { if p == [] then [] else p[1..] }

  function CompareNumbers(p: seq<nat>, q: seq<nat>): int
    decreases |p| + |q|
  {
    if p == [] && q == [] then 0
    else if Front(p) > Front(q) then 1
    else if Front(p) < Front(q) then -1
    else CompareNumbers(Rest(p), Rest(q))
  }

  function CompareVersions(v: string, w: string): int
    requires Dotted(v) && Dotted(w)
  {
    CompareNumbers(Numbers(Split(v, '.')), Numbers(Split(w, '.')))
  }

  lemma {:induction false} CompareNumbersAntisymmetric(p: seq<nat>, q: seq<nat>)
    ensures CompareNumbers(p, q) == -CompareNumbers(q, p)
    decreases |p| + |q|
  {
    if p == [] && q == [] {
    } else {
      CompareNumbersAntisymmetric(Rest(p), Rest(q));
    }
  }

  lemma {:induction false} CompareNumbersTransitive(p: seq<nat>, q: seq<nat>, r: seq<nat>)
    requires CompareNumbers(p, q) <= 0 && CompareNumbers(q, r) <= 0
    ensures CompareNumbers(p, r) <= 0
    ensures CompareNumbers(p, r) == 0 ==> CompareNumbers(p, q) == 0 && CompareNumbers(q, r) == 0
    decreases |p| + |q| + |r|
  {
    if p == [] && q == [] && r == [] {
    } else {
      if Front(p) == Front(q) == Front(r) {
        CompareNumbersTransitive(Rest(p), Rest(q), Rest(r));
      }
    }
  }

  lemma CompareVersionsPreorder(u: string, v: string, w: string)
    requires Dotted(u) && Dotted(v) && Dotted(w)
    ensures CompareVersions(u, v) == -CompareVersions(v, u)
    ensures CompareVersions(u, v) <= 0 && CompareVersions(v, w) <= 0 ==>
              CompareVersions(u, w) <= 0 &&
              (CompareVersions(u, w) == 0 ==> CompareVersions(u, v) == 0 && CompareVersions(v, w) == 0)
  {
    var p, q, r := Numbers(Split(u, '.')), Numbers(Split(v, '.')), Numbers(Split(w, '.'));
    CompareNumbersAntisymmetric(p, q);
    if CompareNumbers(p, q) <= 0 && CompareNumbers(q, r) <= 0 {
      CompareNumbersTransitive(p, q, r);
    }
  }

  /** The `i`-th number of a version, 0 from its end on. */
  function Part(v: string, i: nat): nat
    requires Dotted(v)
  {
    var parts := Split(v, '.');
    if i < |parts| then assert parts[i] in parts; ToNat(parts[i]) else 0
  }

  function At(p: seq<nat>, i: nat): nat { if i < |p| then p[i] else 0 }

  lemma {:induction false} NumbersAt(parts: seq<string>)
    requires forall p :: p in parts ==> Numeric(p)
    ensures |Numbers(parts)| == |parts|
    ensures forall i :: 0 <= i < |parts| ==> Numeric(parts[i]) && Numbers(parts)[i] == ToNat(parts[i])
  {
    if parts == [] {
    } else {
      NumbersAt(parts[1..]);
      assert forall i :: 0 < i < |parts| ==> parts[i] == parts[1..][i - 1];
    }
  }

  ghost predicate FirstDifference(p: seq<nat>, q: seq<nat>, i: nat) {
    At(p, i) != At(q, i) && forall j: nat :: j < i ==> At(p, j) == At(q, j)
  }

  lemma FirstDifferenceOfRest(p: seq<nat>, q: seq<nat>, i: nat)
    ensures At(Rest(p), i) == At(p, i + 1) && At(p, 0) == Front(p)
    ensures Front(p) == Front(q) && FirstDifference(Rest(p), Rest(q), i) ==> FirstDifference(p, q, i + 1)
  {
    if Front(p) == Front(q) && FirstDifference(Rest(p), Rest(q), i) {
      forall j: nat | j < i + 1
        ensures At(p, j) == At(q, j)
      {
        if j > 0 {
          assert At(Rest(p), j - 1) == At(Rest(q), j - 1);
        }
      }
    }
  }

  /** The first number in which two lists differ, if there is one, decides their comparison. */
  lemma {:induction false} FirstDifferenceDecides(p: seq<nat>, q: seq<nat>) returns (i: nat)
    ensures CompareNumbers(p, q) == 0 ==> forall j: nat :: At(p, j) == At(q, j)
    ensures CompareNumbers(p, q) != 0 ==> FirstDifference(p, q, i)
    ensures CompareNumbers(p, q) != 0 ==> CompareNumbers(p, q) == if At(p, i) > At(q, i) then 1 else -1
    decreases |p| + |q|
  {
    i := 0;
    if p == [] && q == [] {
    } else if Front(p) == Front(q) {
      var m := FirstDifferenceDecides(Rest(p), Rest(q));
      i := m + 1;
      FirstDifferenceOfRest(p, q, m);
      FirstDifferenceOfRest(q, p, m);
      if CompareNumbers(p, q) == 0 {
        forall j: nat
          ensures At(p, j) == At(q, j)
        {
          if j > 0 {
            FirstDifferenceOfRest(p, q, j - 1);
            FirstDifferenceOfRest(q, p, j - 1);
          }
        }
      }
    }
  }

  /** `v` is the greater one in the first number in which they differ. */
  ghost predicate GreaterFirst(v: string, w: string)
    requires Dotted(v) && Dotted(w)
  {
    exists i: nat :: Part(v, i) > Part(w, i) && forall j: nat :: j < i ==> Part(v, j) == Part(w, j)
  }

  lemma PartIsAt(v: string)
    requires Dotted(v)
    ensures forall i: nat :: Part(v, i) == At(Numbers(Split(v, '.')), i)
  {
    NumbersAt(Split(v, '.'));
  }

  /** A version is above another exactly if it is greater in the first number in which they differ, and they compare
  equal exactly if they differ in none; a number that is missing counts as zero. */
  lemma CompareVersionsIff(v: string, w: string)
    requires Dotted(v) && Dotted(w)
    ensures CompareVersions(v, w) in {-1, 0, 1}
    ensures CompareVersions(v, w) > 0 <==> GreaterFirst(v, w)
    ensures CompareVersions(v, w) < 0 <==> GreaterFirst(w, v)
    ensures CompareVersions(v, w) == 0 <==> forall i: nat :: Part(v, i) == Part(w, i)
  {
    var i := FirstDifferenceDecides(Numbers(Split(v, '.')), Numbers(Split(w, '.')));
    PartIsAt(v);
    PartIsAt(w);
    if CompareVersions(v, w) != 0 {
      assert Part(v, i) != Part(w, i) && forall j: nat :: j < i ==> Part(v, j) == Part(w, j);
    }
  }

  predicate Above(v: string, w: string)
    requires Dotted(v) && Dotted(w)
  {
    CompareVersions(v, w) > 0
  }

  // ---------- The engine ----------

  /** How one step goes. `Unrecorded` is an `up` that took effect while writing the version file failed. */
  datatype Fate = Done | Fails | Raises | Unrecorded

  /** `applied`: the schema; `stored`: the version file, if there is one. */
  datatype State = State(applied: set<string>, stored: Option<string>)

  const DEFAULT_VERSION: string := "9.7.0"

  function Current(s: State): string {
    match s.stored case None => DEFAULT_VERSION case Some(v) => v
  }

  /** The registered migrations, given by their versions. */
  predicate AllDotted(ms: seq<string>) {
    forall v :: v in ms ==> Dotted(v)
  }

  ghost predicate Ascending(ms: seq<string>)
    requires AllDotted(ms)
  {
    forall i, j :: 0 <= i < j < |ms| ==> Above(ms[j], ms[i])
  }

  function Pending(ms: seq<string>, current: string): seq<string>
    requires AllDotted(ms) && Dotted(current)
  {
    if ms == [] then []
    else (if Above(ms[0], current) then [ms[0]] else []) + Pending(ms[1..], current)
  }

  /** The loop of `run_migrations`: stops at the first step that does not go well. */
  function Apply(pending: seq<string>, s: State, fate: string -> Fate): (State, bool) {
    if pending == [] then (s, true)
    else
      var v := pending[0];
      match fate(v)
      case Done => Apply(pending[1..], State(s.applied + {v}, Some(v)), fate)
      case Unrecorded => (s.(applied := s.applied + {v}), false)
      case _ => (s, false)
  }

  function Run(ms: seq<string>, s: State, dryRun: bool, fate: string -> Fate): (State, bool)
    requires AllDotted(ms) && Dotted(Current(s))
  {
    if dryRun then (s, true) else Apply(Pending(ms, Current(s)), s, fate)
  }

  predicate Affected(v: string, current: string, target: string)
    requires Dotted(v) && Dotted(current) && Dotted(target)
  {
    !Above(v, current) && Above(v, target)
  }

  /** The loop of `rollback_migration` over the first `n` migrations, from the last to the first. */
  function Undo(ms: seq<string>, n: nat, applied: set<string>, current: string, target: string,
                fate: string -> Fate): (set<string>, bool)
    requires AllDotted(ms) && Dotted(current) && Dotted(target) && n <= |ms|
  {
    if n == 0 then (applied, true)
    else if Affected(ms[n - 1], current, target) then
      if fate(ms[n - 1]).Done? then Undo(ms, n - 1, applied - {ms[n - 1]}, current, target, fate)
      else (applied, false)
    else Undo(ms, n - 1, applied, current, target, fate)
  }

  /** `recorded` says whether the version file can be written at the end. */
  function Rollback(ms: seq<string>, s: State, target: string, fate: string -> Fate, recorded: bool): (State, bool)
    requires AllDotted(ms) && Dotted(Current(s)) && Dotted(target)
  {
    var (applied, ok) := Undo(ms, |ms|, s.applied, Current(s), target, fate);
    if ok && recorded then (State(applied, Some(target)), true) else (s.(applied := applied), false)
  }

  class MigrationEngine {
    const migrations: seq<string>
    /** The contents of migration_history.json, which this engine only reads. */
    const history: seq<string>
    var schema: set<string>
    var versionFile: Option<string>

    function View(): State
      reads this
    {
      State(schema, versionFile)
    }

    predicate Valid()
      reads this
    {
      AllDotted(migrations) && AllDotted(history) && Dotted(Current(View()))
    }

    constructor (migrations: seq<string>, history: seq<string>, schema: set<string>, versionFile: Option<string>)
      requires AllDotted(migrations) && AllDotted(history) && Dotted(Current(State(schema, versionFile)))
      ensures Valid() && View() == State(schema, versionFile)
      ensures this.migrations == migrations && this.history == history
    {
      this.migrations, this.history := migrations, history;
      this.schema, this.versionFile := schema, versionFile;
    }

    method GetPendingMigrations() returns (pending: seq<string>)
      requires Valid()
      ensures pending == Pending(migrations, Current(View()))
    {
      var current := Current(View());
      pending := [];
      for i := 0 to |migrations|
        invariant pending + Pending(migrations[i..], current) == Pending(migrations, current)
      {
        if Above(migrations[i], current) {
          pending := pending + [migrations[i]];
        }
      }
    }

    method RunMigrations(dryRun: bool, fate: string -> Fate) returns (ok: bool)
      requires Valid()
      modifies this
      ensures (View(), ok) == Run(migrations, old(View()), dryRun, fate)
      ensures Valid()
    {
      var pending := GetPendingMigrations();
      if pending == [] || dryRun {
        return true;
      }
      PendingMembers(migrations, Current(View()));
      ok := ApplyAll(pending, fate);
    }

    /** The loop of `RunMigrations`. */
    method ApplyAll(pending: seq<string>, fate: string -> Fate) returns (ok: bool)
      requires Valid() && AllDotted(pending)
      modifies this
      ensures (View(), ok) == Apply(pending, old(View()), fate)
      ensures Valid()
    {
      ghost var outcome := Apply(pending, View(), fate);
      for i := 0 to |pending|
        invariant Dotted(Current(View()))
        invariant Apply(pending[i..], View(), fate) == outcome
      {
        var v := pending[i];
        assert pending[i..][1..] == pending[i + 1..];
        match fate(v) {
          case Done =>
            schema, versionFile := schema + {v}, Some(v);
            assert v in pending;
          case Unrecorded =>
            schema := schema + {v};
            return false;
          case _ =>
            return false;
        }
      }
      return true;
    }

    method RollbackMigration(target: Option<string>, fate: string -> Fate, recorded: bool) returns (ok: bool)
      requires Valid() && (target.Some? ==> Dotted(target.value))
      modifies this
      ensures Valid()
      ensures target.Some? ==> (View(), ok) == Rollback(migrations, old(View()), target.value, fate, recorded)
      ensures target.None? && |history| >= 2 ==>
                (View(), ok) == Rollback(migrations, old(View()), history[|history| - 2], fate, recorded)
      ensures target.None? && |history| < 2 ==> !ok && View() == old(View())
    {
      var current := Current(View());
      var goal;
      if target.None? {
        if |history| < 2 {
          return false;
        }
        goal := history[|history| - 2];
      } else {
        goal := target.value;
      }
      ghost var outcome := Undo(migrations, |migrations|, schema, current, goal, fate);
      for n := |migrations| downto 0
        invariant versionFile == old(versionFile)
        invariant Undo(migrations, n, schema, current, goal, fate) == outcome
      {
        if Affected(migrations[n], current, goal) {
          if fate(migrations[n]).Done? {
            schema := schema - {migrations[n]};
          } else {
            return false;
          }
        }
      }
      if !recorded {
        return false;
      }
      versionFile := Some(goal);
      return true;
    }
  }

  // ---------- What is pending ----------

  lemma {:induction false} PendingMembers(ms: seq<string>, current: string)
    requires AllDotted(ms) && Dotted(current)
    ensures forall v :: v in Pending(ms, current) <==> v in ms && Above(v, current)
    ensures AllDotted(Pending(ms, current))
  {
    if ms == [] {
    } else {
      PendingMembers(ms[1..], current);
      assert ms == [ms[0]] + ms[1..];
    }
  }

  lemma AboveIsUpward(ms: seq<string>, current: string, i: nat, j: nat)
    requires AllDotted(ms) && Dotted(current) && Ascending(ms) && i < j < |ms| && Above(ms[i], current)
    ensures Above(ms[j], current)
  {
    AboveMonotone(ms[j], current, ms[i]);
  }

  lemma {:induction false} FirstAbove(ms: seq<string>, current: string) returns (k: nat)
    requires AllDotted(ms) && Dotted(current) && Ascending(ms)
    ensures k <= |ms| && forall i :: 0 <= i < |ms| ==> (Above(ms[i], current) <==> k <= i)
    decreases |ms|
  {
    if ms == [] {
      k := 0;
    } else {
      var last := |ms| - 1;
      k := FirstAbove(ms[..last], current);
      if k < last {
        assert Above(ms[..last][k], current);
        AboveIsUpward(ms, current, k, last);
      } else if !Above(ms[last], current) {
        k := |ms|;
      }
      assert forall i :: 0 <= i < last ==> ms[i] == ms[..last][i];
    }
  }

  lemma {:induction false} PendingFrom(ms: seq<string>, current: string, k: nat)
    requires AllDotted(ms) && Dotted(current) && k <= |ms|
    requires forall i :: 0 <= i < |ms| ==> (Above(ms[i], current) <==> k <= i)
    ensures Pending(ms, current) == ms[k..]
    decreases |ms|
  {
    if k == 0 {
      AllPending(ms, current);
    } else {
      assert forall i :: 0 < i < |ms| ==> ms[i] == ms[1..][i - 1];
      PendingFrom(ms[1..], current, k - 1);
      assert ms[k..] == ms[1..][k - 1..];
    }
  }

  /** With an ascending list, what is pending is the list from some migration on. */
  lemma PendingIsSuffix(ms: seq<string>, current: string) returns (k: nat)
    requires AllDotted(ms) && Dotted(current) && Ascending(ms)
    ensures k <= |ms| && Pending(ms, current) == ms[k..]
    ensures forall i :: 0 <= i < |ms| ==> (Above(ms[i], current) <==> k <= i)
  {
    k := FirstAbove(ms, current);
    PendingFrom(ms, current, k);
  }

  lemma {:induction false} AllPending(ms: seq<string>, current: string)
    requires AllDotted(ms) && Dotted(current) && forall i :: 0 <= i < |ms| ==> Above(ms[i], current)
    ensures Pending(ms, current) == ms
  {
    if ms == [] {
    } else {
      assert forall i :: 0 < i < |ms| ==> ms[i] == ms[1..][i - 1];
      AllPending(ms[1..], current);
    }
  }

  // ---------- The schema and the version file agree ----------

  /** Above the starting version, exactly the migrations up to the stored version are in effect. */
  ghost predicate Clean(ms: seq<string>, start: string, s: State)
    requires AllDotted(ms) && Dotted(start) && Dotted(Current(s))
  {
    forall v :: v in ms && Above(v, start) ==> (v in s.applied <==> !Above(v, Current(s)))
  }

  lemma AboveMonotone(v: string, lower: string, upper: string)
    requires Dotted(v) && Dotted(lower) && Dotted(upper)
    ensures Above(upper, lower) && Above(v, upper) ==> Above(v, lower)
    ensures !Above(lower, upper) && !Above(v, lower) ==> !Above(v, upper)
    ensures Above(upper, lower) ==> !Above(lower, upper)
    ensures !Above(v, v)
  {
    CompareVersionsPreorder(v, v, v);
    CompareVersionsPreorder(v, lower, upper);
    CompareVersionsPreorder(lower, upper, v);
    CompareVersionsPreorder(upper, v, v);
    CompareVersionsPreorder(upper, lower, v);
    CompareVersionsPreorder(v, upper, lower);
    CompareVersionsPreorder(lower, v, v);
  }

  predicate NeverUnrecorded(fate: string -> Fate, vs: seq<string>) {
    forall v :: v in vs ==> !fate(v).Unrecorded?
  }

  /** With `ms[k]` recorded, what is pending starts one further on. */
  lemma PendingAfterOne(ms: seq<string>, k: nat)
    requires AllDotted(ms) && Ascending(ms) && k < |ms|
    ensures forall i :: 0 <= i < |ms| ==> (Above(ms[i], ms[k]) <==> k + 1 <= i)
    ensures ms[k..][0] == ms[k] && ms[k..][1..] == ms[k + 1..]
  {
    forall i | 0 <= i < |ms|
      ensures Above(ms[i], ms[k]) <==> k + 1 <= i
    {
      AboveMonotone(ms[k], ms[i], ms[k]);
    }
  }

  /** Applying `ms[k..]`, exactly what is pending, keeps the state clean wherever it stops. */
  lemma {:induction false} ApplyKeepsClean(ms: seq<string>, k: nat, start: string, s: State, fate: string -> Fate)
    requires AllDotted(ms) && Ascending(ms) && Dotted(start) && Dotted(Current(s)) && k <= |ms|
    requires forall i :: 0 <= i < |ms| ==> (Above(ms[i], Current(s)) <==> k <= i)
    requires Clean(ms, start, s) && NeverUnrecorded(fate, ms[k..])
    ensures var (t, ok) := Apply(ms[k..], s, fate);
            Dotted(Current(t)) && Clean(ms, start, t) &&
            (ok ==> forall v :: v in ms ==> !Above(v, Current(t)))
    decreases |ms| - k
  {
    if k == |ms| {
      assert ms[k..] == [];
    } else if fate(ms[k]).Done? {
      var t := State(s.applied + {ms[k]}, Some(ms[k]));
      PendingAfterOne(ms, k);
      assert Clean(ms, start, t);
      ApplyKeepsClean(ms, k + 1, start, t, fate);
    } else {
      assert ms[k] in ms[k..];
    }
  }

  /** A run keeps the state clean however far it gets, and a successful one leaves nothing pending. */
  lemma RunKeepsClean(ms: seq<string>, start: string, s: State, dryRun: bool, fate: string -> Fate)
    requires AllDotted(ms) && Ascending(ms) && Dotted(start) && Dotted(Current(s))
    requires Clean(ms, start, s) && NeverUnrecorded(fate, ms)
    ensures var (t, ok) := Run(ms, s, dryRun, fate);
            Dotted(Current(t)) && Clean(ms, start, t) && (ok && !dryRun ==> Pending(ms, Current(t)) == [])
  {
    var k := PendingIsSuffix(ms, Current(s));
    ApplyKeepsClean(ms, k, start, s, fate);
    var (t, ok) := Run(ms, s, dryRun, fate);
    PendingMembers(ms, Current(t));
    assert Pending(ms, Current(t)) != [] ==> Pending(ms, Current(t))[0] in Pending(ms, Current(t));
  }

  /** `ms[k]` is the first migration above `base` that is not in effect; `k == |ms|` if all of them are. */
  ghost predicate FirstUnapplied(ms: seq<string>, base: string, s: State, k: nat)
    requires AllDotted(ms) && Dotted(base)
  {
    && k <= |ms|
    && (k < |ms| ==> Above(ms[k], base) && ms[k] !in s.applied)
    && (forall j :: 0 <= j < k && Above(ms[j], base) ==> ms[j] in s.applied)
  }

  /** A run from a clean state resumes at the first migration above `base` that is not in effect. */
  lemma ResumesAtFirstUnapplied(ms: seq<string>, base: string, s: State, k: nat)
    requires AllDotted(ms) && Ascending(ms) && Dotted(base) && Dotted(Current(s)) && Clean(ms, base, s)
    requires !Above(base, Current(s))
    ensures FirstUnapplied(ms, base, s, k) <==> k <= |ms| && Pending(ms, Current(s)) == ms[k..]
  {
    var m := PendingIsSuffix(ms, Current(s));
    assert FirstUnapplied(ms, base, s, m) by {
      NoneAppliedFrom(ms, base, s, m);
    }
    if FirstUnapplied(ms, base, s, k) {
      FirstUnappliedIsUnique(ms, base, s, k, m);
    } else if k <= |ms| {
      assert |ms[k..]| == |ms| - k && k != m;
    }
  }

  lemma FirstUnappliedIsUnique(ms: seq<string>, base: string, s: State, k: nat, m: nat)
    requires AllDotted(ms) && Dotted(base) && FirstUnapplied(ms, base, s, k) && FirstUnapplied(ms, base, s, m)
    ensures k == m
  {
  }

  lemma NoneAppliedFrom(ms: seq<string>, base: string, s: State, m: nat)
    requires AllDotted(ms) && Dotted(base) && Dotted(Current(s)) && Clean(ms, base, s) && !Above(base, Current(s))
    requires m <= |ms| && forall i :: 0 <= i < |ms| ==> (Above(ms[i], Current(s)) <==> m <= i)
    ensures forall i :: m <= i < |ms| ==> Above(ms[i], base) && ms[i] !in s.applied
    ensures forall i :: 0 <= i < m && Above(ms[i], base) ==> ms[i] in s.applied
  {
    forall i | m <= i < |ms|
      ensures Above(ms[i], base) && ms[i] !in s.applied
    {
      AboveMonotone(ms[i], base, Current(s));
    }
  }

  // ---------- Rollback ----------

  lemma {:induction false} UndoRemoves(ms: seq<string>, n: nat, applied: set<string>, current: string, target: string,
                                       fate: string -> Fate)
    requires AllDotted(ms) && Dotted(current) && Dotted(target) && n <= |ms|
    ensures var (after, ok) := Undo(ms, n, applied, current, target, fate);
            && after <= applied
            && (forall v :: v in applied && v !in after ==> v in ms && Affected(v, current, target))
            && (ok ==> after == set v | v in applied && !(v in ms[..n] && Affected(v, current, target)))
  {
    if n == 0 {
    } else {
      assert ms[..n] == ms[..n - 1] + [ms[n - 1]];
      if Affected(ms[n - 1], current, target) && fate(ms[n - 1]).Done? {
        UndoRemoves(ms, n - 1, applied - {ms[n - 1]}, current, target, fate);
      } else {
        UndoRemoves(ms, n - 1, applied, current, target, fate);
      }
    }
  }

  /** The rollback undoes `ms[n]`: it is in the range, and every step in the range from the last one down to it
  goes well. */
  ghost predicate Undoes(ms: seq<string>, s: State, target: string, fate: string -> Fate, n: nat)
    requires AllDotted(ms) && Dotted(Current(s)) && Dotted(target)
  {
    UndoesBelow(ms, |ms|, Current(s), target, fate, n)
  }

  /** Every step in the range among the migrations from `n` on and before `top` goes well. */
  ghost predicate GoesWell(ms: seq<string>, n: nat, top: nat, current: string, target: string, fate: string -> Fate)
    requires AllDotted(ms) && Dotted(current) && Dotted(target) && top <= |ms|
  {
    forall m :: n <= m < top && Affected(ms[m], current, target) ==> fate(ms[m]).Done?
  }

  ghost predicate UndoesBelow(ms: seq<string>, top: nat, current: string, target: string, fate: string -> Fate, n: nat)
    requires AllDotted(ms) && Dotted(current) && Dotted(target) && top <= |ms|
  {
    n < top && Affected(ms[n], current, target) && GoesWell(ms, n, top, current, target, fate)
  }

  ghost predicate UndoesVersion(ms: seq<string>, top: nat, current: string, target: string, fate: string -> Fate,
                                v: string)
    requires AllDotted(ms) && Dotted(current) && Dotted(target) && top <= |ms|
  {
    exists n :: 0 <= n < top && ms[n] == v && UndoesBelow(ms, top, current, target, fate, n)
  }

  lemma GoesWellOneMore(ms: seq<string>, n: nat, last: nat, current: string, target: string, fate: string -> Fate)
    requires AllDotted(ms) && Dotted(current) && Dotted(target) && n <= last < |ms|
    ensures GoesWell(ms, n, last + 1, current, target, fate) <==>
            GoesWell(ms, n, last, current, target, fate) &&
            (Affected(ms[last], current, target) ==> fate(ms[last]).Done?)
  {
  }

  lemma UndoesBelowOneMore(ms: seq<string>, last: nat, current: string, target: string, fate: string -> Fate, n: nat)
    requires AllDotted(ms) && Dotted(current) && Dotted(target) && n <= last < |ms|
    ensures UndoesBelow(ms, last + 1, current, target, fate, n) <==>
            if !Affected(ms[last], current, target) then UndoesBelow(ms, last, current, target, fate, n)
            else fate(ms[last]).Done? && (n == last || UndoesBelow(ms, last, current, target, fate, n))
  {
    GoesWellOneMore(ms, n, last, current, target, fate);
  }

  lemma UndoesOneMore(ms: seq<string>, last: nat, current: string, target: string, fate: string -> Fate, v: string)
    requires AllDotted(ms) && Dotted(current) && Dotted(target) && last < |ms|
    ensures UndoesVersion(ms, last + 1, current, target, fate, v) <==>
            if !Affected(ms[last], current, target) then UndoesVersion(ms, last, current, target, fate, v)
            else fate(ms[last]).Done? && (v == ms[last] || UndoesVersion(ms, last, current, target, fate, v))
  {
    UndoesBelowOneMore(ms, last, current, target, fate, last);
    if n: nat :| n < last && ms[n] == v && UndoesBelow(ms, last, current, target, fate, n) {
      UndoesBelowOneMore(ms, last, current, target, fate, n);
    }
    if n: nat :| n <= last && ms[n] == v && UndoesBelow(ms, last + 1, current, target, fate, n) {
      UndoesBelowOneMore(ms, last, current, target, fate, n);
    }
  }

  lemma {:induction false} UndoExactly(ms: seq<string>, top: nat, applied: set<string>, current: string, target: string,
                                       fate: string -> Fate, v: string)
    requires AllDotted(ms) && Dotted(current) && Dotted(target) && top <= |ms|
    ensures v in Undo(ms, top, applied, current, target, fate).0 <==>
            v in applied && !UndoesVersion(ms, top, current, target, fate, v)
  {
    if top == 0 {
    } else {
      var last := top - 1;
      UndoesOneMore(ms, last, current, target, fate, v);
      UndoExactly(ms, last, applied, current, target, fate, v);
      UndoExactly(ms, last, applied - {ms[last]}, current, target, fate, v);
    }
  }

  /** What a rollback that goes well leaves behind. */
  function RolledBack(ms: seq<string>, s: State, target: string): State
    requires AllDotted(ms) && Dotted(Current(s)) && Dotted(target)
  {
    var kept := set v | v in s.applied && !(v in ms && Affected(v, Current(s), target));
    State(kept, Some(target))
  }

  lemma RollbackOutcome(ms: seq<string>, s: State, target: string, fate: string -> Fate, recorded: bool)
    requires AllDotted(ms) && Dotted(Current(s)) && Dotted(target)
    ensures var (t, ok) := Rollback(ms, s, target, fate, recorded);
            if ok then t == RolledBack(ms, s, target)
            else t.stored == s.stored && RolledBack(ms, s, target).applied <= t.applied <= s.applied
  {
    UndoRemoves(ms, |ms|, s.applied, Current(s), target, fate);
    assert ms[..|ms|] == ms;
  }

  /** A rollback that goes well keeps the state clean exactly when its target jumps over no migration. */
  lemma RollbackKeepsCleanIff(ms: seq<string>, start: string, s: State, target: string, fate: string -> Fate,
                              recorded: bool)
    requires AllDotted(ms) && Dotted(start) && Dotted(Current(s)) && Dotted(target) && Clean(ms, start, s)
    requires Rollback(ms, s, target, fate, recorded).1
    ensures Clean(ms, start, Rollback(ms, s, target, fate, recorded).0) <==>
            forall v :: v in ms && Above(v, start) && Above(v, Current(s)) ==> Above(v, target)
  {
    RollbackOutcome(ms, s, target, fate, recorded);
    var t := RolledBack(ms, s, target);
    assert Current(t) == target;
    forall v | v in ms && Above(v, start)
      ensures v in t.applied <==> !Above(v, Current(s)) && !Above(v, target)
    {
    }
  }

  /** A target that is not above the current version jumps over nothing. */
  lemma RollbackKeepsClean(ms: seq<string>, start: string, s: State, target: string, fate: string -> Fate,
                           recorded: bool)
    requires AllDotted(ms) && Dotted(start) && Dotted(Current(s)) && Dotted(target) && Clean(ms, start, s)
    requires Rollback(ms, s, target, fate, recorded).1 && !Above(target, Current(s))
    ensures Clean(ms, start, Rollback(ms, s, target, fate, recorded).0)
  {
    RollbackKeepsCleanIff(ms, start, s, target, fate, recorded);
    forall v | v in ms && Above(v, start) && Above(v, Current(s))
      ensures Above(v, target)
    {
      AboveMonotone(v, target, Current(s));
    }
  }

  /** One attempt to roll back: how the steps go, and whether the version file can be written. */
  datatype Attempt = Attempt(fate: string -> Fate, recorded: bool)

  function Retry(ms: seq<string>, s: State, target: string, attempts: seq<Attempt>): (t: State)
    requires AllDotted(ms) && Dotted(Current(s)) && Dotted(target)
    ensures Dotted(Current(t))
    decreases |attempts|
  {
    if attempts == [] then s
    else Retry(ms, Rollback(ms, s, target, attempts[0].fate, attempts[0].recorded).0, target, attempts[1..])
  }

  predicate AllFail(ms: seq<string>, s: State, target: string, attempts: seq<Attempt>)
    requires AllDotted(ms) && Dotted(Current(s)) && Dotted(target)
    decreases |attempts|
  {
    attempts == [] ||
    var (t, ok) := Rollback(ms, s, target, attempts[0].fate, attempts[0].recorded);
    !ok && AllFail(ms, t, target, attempts[1..])
  }

  /** However many rollbacks fail part-way, the version stays stale, and the first one that goes well
  reaches the same state as a single rollback without any failure. */
  lemma {:induction false} RollbackRetried(ms: seq<string>, s: State, target: string, failed: seq<Attempt>,
                                           last: Attempt)
    requires AllDotted(ms) && Dotted(Current(s)) && Dotted(target) && AllFail(ms, s, target, failed)
    ensures Retry(ms, s, target, failed).stored == s.stored
    ensures var (t, ok) := Rollback(ms, Retry(ms, s, target, failed), target, last.fate, last.recorded);
            ok ==> t == RolledBack(ms, s, target)
    decreases |failed|
  {
    if failed == [] {
      RollbackOutcome(ms, s, target, last.fate, last.recorded);
    } else {
      var next := Rollback(ms, s, target, failed[0].fate, failed[0].recorded).0;
      RollbackOutcome(ms, s, target, failed[0].fate, failed[0].recorded);
      RollbackRetried(ms, next, target, failed[1..], last);
      SameRolledBack(ms, s, next, target);
    }
  }

  lemma SameRolledBack(ms: seq<string>, s: State, t: State, target: string)
    requires AllDotted(ms) && Dotted(Current(s)) && Dotted(target) && t.stored == s.stored
    requires RolledBack(ms, s, target).applied <= t.applied <= s.applied
    ensures RolledBack(ms, t, target) == RolledBack(ms, s, target)
  {
    assert RolledBack(ms, t, target).applied == RolledBack(ms, s, target).applied;
  }

  /** A rollback that fails leaves schema and version file in agreement exactly when it comes to undo nothing above
  `start`: the last step in the range fails already, or the range holds only what lies at or below `start`. */
  lemma PartialRollbackIsStale(ms: seq<string>, start: string, s: State, target: string, fate: string -> Fate,
                               recorded: bool)
    requires AllDotted(ms) && Dotted(start) && Dotted(Current(s)) && Dotted(target) && Clean(ms, start, s)
    requires !Rollback(ms, s, target, fate, recorded).1
    ensures Clean(ms, start, Rollback(ms, s, target, fate, recorded).0) <==>
            forall n :: 0 <= n < |ms| && Above(ms[n], start) ==> !Undoes(ms, s, target, fate, n)
  {
    var t := Rollback(ms, s, target, fate, recorded).0;
    RollbackOutcome(ms, s, target, fate, recorded);
    forall v
      ensures v in t.applied <==> v in s.applied && !UndoesVersion(ms, |ms|, Current(s), target, fate, v)
    {
      UndoExactly(ms, |ms|, s.applied, Current(s), target, fate, v);
    }
    if n :| 0 <= n < |ms| && Above(ms[n], start) && Undoes(ms, s, target, fate, n) {
      assert ms[n] in s.applied && ms[n] !in t.applied;
    }
  }

  // ---------- Whole histories ----------

  datatype Event =
    | Migrate(dryRun: bool, fate: string -> Fate)
    | RollBackTo(target: string, attempt: Attempt)

  /** Any run, however it goes, or a rollback that goes well and leads to no later version. */
  ghost predicate Lawful(ms: seq<string>, s: State, e: Event)
    requires AllDotted(ms) && Dotted(Current(s))
  {
    match e
    case Migrate(_, _) => true
    case RollBackTo(target, a) =>
      Dotted(target) && !Above(target, Current(s)) && Rollback(ms, s, target, a.fate, a.recorded).1
  }

  function Step(ms: seq<string>, s: State, e: Event): State
    requires AllDotted(ms) && Dotted(Current(s)) && (e.RollBackTo? ==> Dotted(e.target))
  {
    match e
    case Migrate(dryRun, fate) => Run(ms, s, dryRun, fate).0
    case RollBackTo(target, a) => Rollback(ms, s, target, a.fate, a.recorded).0
  }

  /** `states` is a history: each state follows from the one before it by a lawful event. */
  ghost predicate MixedHistory(ms: seq<string>, states: seq<State>, events: seq<Event>)
    requires AllDotted(ms)
  {
    && |states| == |events| + 1
    && forall i :: 0 <= i < |events| ==>
         Dotted(Current(states[i])) && Lawful(ms, states[i], events[i]) &&
         states[i + 1] == Step(ms, states[i], events[i])
  }

  /** A history in which every version that is applied is recorded. */
  ghost predicate History(ms: seq<string>, states: seq<State>, events: seq<Event>)
    requires AllDotted(ms)
  {
    && MixedHistory(ms, states, events)
    && forall i :: 0 <= i < |events| && events[i].Migrate? ==> NeverUnrecorded(events[i].fate, ms)
  }

  /** Nothing above the stored version is in effect. */
  ghost predicate StartsAt(ms: seq<string>, start: string, s: State)
    requires AllDotted(ms) && Dotted(start)
  {
    Current(s) == start && forall v :: v in ms && Above(v, start) ==> v !in s.applied
  }

  /** Runs may fail anywhere and be retried, and rollbacks may go back anywhere: starting with nothing above
  the stored version in effect, the version file tells at every moment what is in effect above it. */
  lemma {:induction false} HistoryStaysClean(ms: seq<string>, start: string, states: seq<State>, events: seq<Event>,
                                             i: nat)
    requires AllDotted(ms) && Ascending(ms) && Dotted(start) && History(ms, states, events) && i <= |events|
    requires StartsAt(ms, start, states[0])
    ensures Dotted(Current(states[i])) && Clean(ms, start, states[i])
  {
    if i == 0 {
    } else {
      HistoryStaysClean(ms, start, states, events, i - 1);
      var s, e := states[i - 1], events[i - 1];
      match e
      case Migrate(dryRun, fate) => RunKeepsClean(ms, start, s, dryRun, fate);
      case RollBackTo(target, a) =>
        RollbackOutcome(ms, s, target, a.fate, a.recorded);
        RollbackKeepsClean(ms, start, s, target, a.fate, a.recorded);
    }
  }

  // ---------- How far back a history goes ----------

  ghost predicate DottedTargets(events: seq<Event>) {
    forall e :: e in events && e.RollBackTo? ==> Dotted(e.target)
  }

  /** The lowest of `start` and the targets of all rollbacks so far. */
  ghost function Base(start: string, events: seq<Event>): (base: string)
    requires Dotted(start) && DottedTargets(events)
    ensures Dotted(base)
    decreases |events|
  {
    if events == [] then start
    else
      var last := |events| - 1;
      var base := Base(start, events[..last]);
      if events[last].RollBackTo? && Above(base, events[last].target) then
        assert events[last] in events;
        events[last].target
      else base
  }

  lemma HistoryHasDottedTargets(ms: seq<string>, states: seq<State>, events: seq<Event>)
    requires AllDotted(ms) && MixedHistory(ms, states, events)
    ensures DottedTargets(events)
  {
    forall e | e in events && e.RollBackTo?
      ensures Dotted(e.target)
    {
      var i :| 0 <= i < |events| && events[i] == e;
      assert Lawful(ms, states[i], events[i]);
    }
  }

  lemma BaseStep(start: string, events: seq<Event>, i: nat)
    requires Dotted(start) && DottedTargets(events) && i < |events|
    ensures var base, e := Base(start, events[..i]), events[i];
            Base(start, events[..i + 1]) ==
            if e.RollBackTo? && Above(base, e.target) then e.target else base
  {
    assert events[..i + 1][..i] == events[..i];
  }

  /** Applying only moves the stored version up. */
  lemma ApplyMovesUp(ms: seq<string>, s: State, fate: string -> Fate, dryRun: bool)
    requires AllDotted(ms) && Dotted(Current(s))
    ensures var t := Run(ms, s, dryRun, fate).0;
            Dotted(Current(t)) && (t.stored == s.stored || Above(Current(t), Current(s)))
  {
    PendingMembers(ms, Current(s));
    ApplyEndsIn(Pending(ms, Current(s)), s, fate);
  }

  lemma {:induction false} ApplyEndsIn(pending: seq<string>, s: State, fate: string -> Fate)
    ensures var t := Apply(pending, s, fate).0;
            t.stored == s.stored || (t.stored.Some? && t.stored.value in pending)
  {
    if pending == [] {
    } else if fate(pending[0]).Done? {
      ApplyEndsIn(pending[1..], State(s.applied + {pending[0]}, Some(pending[0])), fate);
    }
  }

  lemma BaseIsBelow(ms: seq<string>, base: string, s: State, e: Event)
    requires AllDotted(ms) && Dotted(base) && Dotted(Current(s)) && !Above(base, Current(s)) && Lawful(ms, s, e)
    ensures var t := Step(ms, s, e);
            var base' := if e.RollBackTo? && Above(base, e.target) then e.target else base;
            Dotted(Current(t)) && !Above(base', Current(t))
  {
    match e
    case Migrate(dryRun, fate) =>
      ApplyMovesUp(ms, s, fate, dryRun);
      AboveMonotone(base, Current(s), Current(Step(ms, s, e)));
      AboveMonotone(Current(Step(ms, s, e)), Current(s), base);
    case RollBackTo(target, a) =>
      RollbackOutcome(ms, s, target, a.fate, a.recorded);
      AboveMonotone(target, target, target);
  }

  /** After a rollback below `base` the state is clean above the target. */
  lemma RollbackMovesBase(ms: seq<string>, base: string, s: State, target: string, a: Attempt)
    requires AllDotted(ms) && Dotted(base) && Dotted(Current(s)) && Dotted(target) && Clean(ms, base, s)
    requires !Above(base, Current(s)) && Above(base, target) && Rollback(ms, s, target, a.fate, a.recorded).1
    ensures Clean(ms, target, Rollback(ms, s, target, a.fate, a.recorded).0)
  {
    RollbackOutcome(ms, s, target, a.fate, a.recorded);
    forall v | v in ms && Above(v, target) && Above(v, Current(s))
      ensures v !in s.applied
    {
      AboveMonotone(v, base, Current(s));
    }
  }

  lemma {:induction false} HistoryIsAnchored(ms: seq<string>, start: string, states: seq<State>, events: seq<Event>,
                                             i: nat)
    requires AllDotted(ms) && Ascending(ms) && Dotted(start) && History(ms, states, events) && i <= |events|
    requires StartsAt(ms, start, states[0]) && DottedTargets(events)
    ensures var base := Base(start, events[..i]);
            Dotted(Current(states[i])) && !Above(base, Current(states[i])) && Clean(ms, base, states[i])
  {
    if i == 0 {
      AboveMonotone(start, start, start);
    } else {
      var s, e, base := states[i - 1], events[i - 1], Base(start, events[..i - 1]);
      HistoryIsAnchored(ms, start, states, events, i - 1);
      BaseStep(start, events, i - 1);
      BaseIsBelow(ms, base, s, e);
      match e
      case Migrate(dryRun, fate) => RunKeepsClean(ms, base, s, dryRun, fate);
      case RollBackTo(target, a) =>
        if Above(base, target) {
          RollbackMovesBase(ms, base, s, target, a);
        } else {
          RollbackKeepsClean(ms, base, s, target, a.fate, a.recorded);
        }
    }
  }

  /** At every moment of every history, what a run would apply is the list from the first migration on that is
  not in effect, counted from the lowest version the history ever went back to. */
  lemma HistoryResumes(ms: seq<string>, start: string, states: seq<State>, events: seq<Event>, i: nat, k: nat)
    requires AllDotted(ms) && Ascending(ms) && Dotted(start) && History(ms, states, events) && i <= |events|
    requires StartsAt(ms, start, states[0])
    ensures Dotted(Current(states[i])) && DottedTargets(events)
    ensures FirstUnapplied(ms, Base(start, events[..i]), states[i], k) <==>
            k <= |ms| && Pending(ms, Current(states[i])) == ms[k..]
  {
    HistoryHasDottedTargets(ms, states, events);
    HistoryIsAnchored(ms, start, states, events, i);
    ResumesAtFirstUnapplied(ms, Base(start, events[..i]), states[i], k);
  }

  // ---------- When the version file cannot be written ----------

  /** Like `Clean`, except that the first pending migration may be in effect already. */
  ghost predicate OneAhead(ms: seq<string>, start: string, s: State)
    requires AllDotted(ms) && Dotted(start) && Dotted(Current(s))
  {
    forall v :: v in ms && Above(v, start) ==>
      && (!Above(v, Current(s)) ==> v in s.applied)
      && (v in s.applied && Above(v, Current(s)) ==> Pending(ms, Current(s)) != [] && v == Pending(ms, Current(s))[0])
  }

  lemma {:induction false} ApplyKeepsOneAhead(ms: seq<string>, k: nat, start: string, s: State, fate: string -> Fate)
    requires AllDotted(ms) && Ascending(ms) && Dotted(start) && Dotted(Current(s)) && k <= |ms|
    requires forall i :: 0 <= i < |ms| ==> (Above(ms[i], Current(s)) <==> k <= i)
    requires forall v :: v in ms && Above(v, start) ==>
               (!Above(v, Current(s)) ==> v in s.applied) &&
               (v in s.applied && Above(v, Current(s)) ==> k < |ms| && v == ms[k])
    ensures var (t, ok) := Apply(ms[k..], s, fate);
            Dotted(Current(t)) && OneAhead(ms, start, t) && (ok ==> Clean(ms, start, t))
    decreases |ms| - k
  {
    if k < |ms| && fate(ms[k]).Done? {
      var t := State(s.applied + {ms[k]}, Some(ms[k]));
      PendingAfterOne(ms, k);
      ApplyKeepsOneAhead(ms, k + 1, start, t, fate);
    } else {
      var t := Apply(ms[k..], s, fate).0;
      var k' := PendingIsSuffix(ms, Current(t));
      assert k' == k by {
        assert k' < |ms| ==> Above(ms[k'], Current(s));
        assert k < |ms| ==> Above(ms[k], Current(s));
      }
    }
  }

  /** Even when the version file cannot be written at times, at most the first pending migration is ahead of
  the file, and a run that gets through makes the two agree again. */
  lemma RunKeepsOneAhead(ms: seq<string>, start: string, s: State, fate: string -> Fate)
    requires AllDotted(ms) && Ascending(ms) && Dotted(start) && Dotted(Current(s)) && OneAhead(ms, start, s)
    ensures var (t, ok) := Run(ms, s, false, fate);
            Dotted(Current(t)) && OneAhead(ms, start, t) && (ok ==> Clean(ms, start, t))
  {
    var k := PendingIsSuffix(ms, Current(s));
    forall v | v in ms && v in s.applied && Above(v, start) && Above(v, Current(s))
      ensures k < |ms| && v == ms[k]
    {
      var i :| 0 <= i < |ms| && ms[i] == v;
    }
    ApplyKeepsOneAhead(ms, k, start, s, fate);
  }

  // ---------- What one event does to one migration ----------

  /** A run comes to `ms[n]`: it is pending, and everything pending before it goes well. */
  ghost predicate Reaches(ms: seq<string>, s: State, fate: string -> Fate, n: nat)
    requires AllDotted(ms) && Dotted(Current(s)) && n < |ms|
  {
    && Above(ms[n], Current(s))
    && forall m :: 0 <= m < n && Above(ms[m], Current(s)) ==> fate(ms[m]).Done?
  }

  lemma AscendingIsDistinct(ms: seq<string>, m: nat, n: nat)
    requires AllDotted(ms) && Ascending(ms) && m < |ms| && n < |ms|
    ensures ms[m] == ms[n] <==> m == n
  {
    AboveMonotone(ms[m], ms[m], ms[m]);
  }

  /** What a run does to one migration and to its place relative to the stored version. */
  ghost predicate RunsExactly(ms: seq<string>, s: State, fate: string -> Fate, n: nat, t: State)
    requires AllDotted(ms) && Dotted(Current(s)) && n < |ms|
  {
    && Dotted(Current(t))
    && (ms[n] in t.applied <==>
          ms[n] in s.applied || (Reaches(ms, s, fate, n) && (fate(ms[n]).Done? || fate(ms[n]).Unrecorded?)))
    && (Above(ms[n], Current(t)) <==>
          Above(ms[n], Current(s)) && !(Reaches(ms, s, fate, n) && fate(ms[n]).Done?))
  }

  lemma ReachesAfterOne(ms: seq<string>, k: nat, s: State, fate: string -> Fate, n: nat, next: State)
    requires AllDotted(ms) && Ascending(ms) && Dotted(Current(s)) && k < |ms| && n < |ms|
    requires forall i :: 0 <= i < |ms| ==> (Above(ms[i], Current(s)) <==> k <= i)
    requires fate(ms[k]).Done? && next == State(s.applied + {ms[k]}, Some(ms[k]))
    ensures n != k ==> (Reaches(ms, s, fate, n) <==> Reaches(ms, next, fate, n))
    ensures Reaches(ms, s, fate, k) && !Reaches(ms, next, fate, k)
    ensures Above(ms[n], ms[k]) <==> k < n
  {
    PendingAfterOne(ms, k);
  }

  lemma {:induction false} ApplyExactly(ms: seq<string>, k: nat, s: State, fate: string -> Fate, n: nat)
    requires AllDotted(ms) && Ascending(ms) && Dotted(Current(s)) && k <= |ms| && n < |ms|
    requires forall i :: 0 <= i < |ms| ==> (Above(ms[i], Current(s)) <==> k <= i)
    ensures RunsExactly(ms, s, fate, n, Apply(ms[k..], s, fate).0)
    decreases |ms| - k
  {
    if k == |ms| {
      assert ms[k..] == [];
    } else {
      PendingAfterOne(ms, k);
      AscendingIsDistinct(ms, k, n);
      if fate(ms[k]).Done? {
        var next := State(s.applied + {ms[k]}, Some(ms[k]));
        ReachesAfterOne(ms, k, s, fate, n, next);
        ApplyExactly(ms, k + 1, next, fate, n);
        assert Apply(ms[k..], s, fate).0 == Apply(ms[k + 1..], next, fate).0;
      } else {
        assert Reaches(ms, s, fate, n) <==> n == k;
      }
    }
  }

  lemma RunExactly(ms: seq<string>, s: State, fate: string -> Fate, n: nat)
    requires AllDotted(ms) && Ascending(ms) && Dotted(Current(s)) && n < |ms|
    ensures RunsExactly(ms, s, fate, n, Run(ms, s, false, fate).0)
  {
    var k := PendingIsSuffix(ms, Current(s));
    ApplyExactly(ms, k, s, fate, n);
  }

  lemma {:induction false} ApplySucceedsIff(pending: seq<string>, s: State, fate: string -> Fate)
    ensures Apply(pending, s, fate).1 <==> forall v :: v in pending ==> fate(v).Done?
  {
    if pending == [] {
    } else {
      ApplySucceedsIff(pending[1..], State(s.applied + {pending[0]}, Some(pending[0])), fate);
      assert forall v :: v in pending <==> v == pending[0] || v in pending[1..];
    }
  }

  /** A run answers true exactly if it is a dry one or every registered migration above the version goes well. */
  lemma RunSucceedsIff(ms: seq<string>, s: State, dryRun: bool, fate: string -> Fate)
    requires AllDotted(ms) && Dotted(Current(s))
    ensures Run(ms, s, dryRun, fate).1 <==> dryRun || forall v :: v in ms && Above(v, Current(s)) ==> fate(v).Done?
  {
    PendingMembers(ms, Current(s));
    ApplySucceedsIff(Pending(ms, Current(s)), s, fate);
  }

  lemma RollbackExactly(ms: seq<string>, s: State, target: string, a: Attempt, n: nat)
    requires AllDotted(ms) && Ascending(ms) && Dotted(Current(s)) && Dotted(target) && n < |ms|
    ensures ms[n] in Rollback(ms, s, target, a.fate, a.recorded).0.applied <==>
            ms[n] in s.applied && !Undoes(ms, s, target, a.fate, n)
  {
    UndoExactly(ms, |ms|, s.applied, Current(s), target, a.fate, ms[n]);
    forall m | 0 <= m < |ms| && ms[m] == ms[n]
      ensures m == n
    {
      AscendingIsDistinct(ms, m, n);
    }
  }

  /** All steps in the range go well and the version file can be written. */
  ghost predicate Succeeds(ms: seq<string>, s: State, target: string, a: Attempt)
    requires AllDotted(ms) && Dotted(Current(s)) && Dotted(target)
  {
    a.recorded && GoesWell(ms, 0, |ms|, Current(s), target, a.fate)
  }

  lemma {:induction false} UndoSucceedsIff(ms: seq<string>, top: nat, applied: set<string>, current: string,
                                           target: string, fate: string -> Fate)
    requires AllDotted(ms) && Dotted(current) && Dotted(target) && top <= |ms|
    ensures Undo(ms, top, applied, current, target, fate).1 <==> GoesWell(ms, 0, top, current, target, fate)
  {
    if top == 0 {
    } else {
      var last := top - 1;
      GoesWellOneMore(ms, 0, last, current, target, fate);
      UndoSucceedsIff(ms, last, applied, current, target, fate);
      UndoSucceedsIff(ms, last, applied - {ms[last]}, current, target, fate);
    }
  }

  lemma RollbackSucceedsIff(ms: seq<string>, s: State, target: string, a: Attempt)
    requires AllDotted(ms) && Dotted(Current(s)) && Dotted(target)
    ensures Rollback(ms, s, target, a.fate, a.recorded).1 <==> Succeeds(ms, s, target, a)
  {
    UndoSucceedsIff(ms, |ms|, s.applied, Current(s), target, a.fate);
  }

  // ---------- Schema and version file over any history ----------

  /** In effect, but above the stored version. */
  ghost predicate Ahead(ms: seq<string>, s: State, n: nat)
    requires AllDotted(ms) && Dotted(Current(s)) && n < |ms|
  {
    ms[n] in s.applied && Above(ms[n], Current(s))
  }

  /** Not in effect, though not above the stored version. */
  ghost predicate Missing(ms: seq<string>, s: State, n: nat)
    requires AllDotted(ms) && Dotted(Current(s)) && n < |ms|
  {
    ms[n] !in s.applied && !Above(ms[n], Current(s))
  }

  predicate Readable(e: Event) { e.RollBackTo? ==> Dotted(e.target) }

  /** A run puts `ms[n]` in effect and cannot record it. */
  ghost predicate StopsAt(ms: seq<string>, s: State, e: Event, n: nat)
    requires AllDotted(ms) && Dotted(Current(s)) && n < |ms|
  {
    e.Migrate? && !e.dryRun && Reaches(ms, s, e.fate, n) && e.fate(ms[n]).Unrecorded?
  }

  /** A rollback that fails undoes `ms[n]`, or one that goes well may jump over it. */
  ghost predicate Loses(ms: seq<string>, s: State, e: Event, n: nat)
    requires AllDotted(ms) && Dotted(Current(s)) && n < |ms| && Readable(e)
  {
    e.RollBackTo? &&
    if Succeeds(ms, s, e.target, e.attempt) then Above(ms[n], Current(s)) && ms[n] !in s.applied
    else Undoes(ms, s, e.target, e.attempt.fate, n)
  }

  /** A migration is ahead or missing after an event exactly if it was so before, or the event made it so, and
  the stored version is still on that side of it. */
  lemma StepExactly(ms: seq<string>, s: State, e: Event, n: nat)
    requires AllDotted(ms) && Ascending(ms) && Dotted(Current(s)) && Readable(e) && n < |ms|
    ensures var t := Step(ms, s, e);
            && Dotted(Current(t))
            && (Ahead(ms, t, n) <==> (Ahead(ms, s, n) || StopsAt(ms, s, e, n)) && Above(ms[n], Current(t)))
            && (Missing(ms, t, n) <==> (Missing(ms, s, n) || Loses(ms, s, e, n)) && !Above(ms[n], Current(t)))
  {
    match e
    case Migrate(dryRun, fate) => RunExactly(ms, s, fate, n);
    case RollBackTo(target, a) =>
      RollbackSucceedsIff(ms, s, target, a);
      RollbackExactly(ms, s, target, a, n);
      RollbackOutcome(ms, s, target, a.fate, a.recorded);
      AboveMonotone(ms[n], target, Current(s));
      AboveMonotone(ms[n], Current(s), target);
  }

  /** Any sequence of runs and rollbacks, to wherever and however they go. */
  ghost predicate AnyHistory(ms: seq<string>, states: seq<State>, events: seq<Event>)
    requires AllDotted(ms)
  {
    && |states| == |events| + 1 && (forall i :: 0 <= i <= |events| ==> Dotted(Current(states[i])))
    && forall i :: 0 <= i < |events| ==> Readable(events[i]) && states[i + 1] == Step(ms, states[i], events[i])
  }

  /** `ms[n]` is above the stored version, or not above it, from one state to another. */
  ghost predicate Stays(ms: seq<string>, states: seq<State>, n: nat, above: bool, from: nat, to: nat)
    requires AllDotted(ms) && n < |ms| && to < |states|
    requires forall i :: 0 <= i < |states| ==> Dotted(Current(states[i]))
  {
    forall k :: from <= k <= to ==> (Above(ms[n], Current(states[k])) <==> above)
  }

  /** Some run put `ms[n]` in effect without recording it, or it was so at the start, and the stored version has
  been below it ever since. */
  ghost predicate LeftAhead(ms: seq<string>, states: seq<State>, events: seq<Event>, i: nat, n: nat)
    requires AllDotted(ms) && AnyHistory(ms, states, events) && i <= |events| && n < |ms|
  {
    || (Ahead(ms, states[0], n) && Stays(ms, states, n, true, 0, i))
    || exists j :: 0 <= j < i && StopsAt(ms, states[j], events[j], n) && Stays(ms, states, n, true, j + 1, i)
  }

  /** Some rollback lost `ms[n]`, or it was missing at the start, and the stored version has not been below it
  since. */
  ghost predicate LeftMissing(ms: seq<string>, states: seq<State>, events: seq<Event>, i: nat, n: nat)
    requires AllDotted(ms) && AnyHistory(ms, states, events) && i <= |events| && n < |ms|
  {
    || (Missing(ms, states[0], n) && Stays(ms, states, n, false, 0, i))
    || exists j :: 0 <= j < i && Loses(ms, states[j], events[j], n) && Stays(ms, states, n, false, j + 1, i)
  }

  lemma LeftAheadStep(ms: seq<string>, states: seq<State>, events: seq<Event>, i: nat, n: nat)
    requires AllDotted(ms) && AnyHistory(ms, states, events) && i < |events| && n < |ms|
    ensures LeftAhead(ms, states, events, i + 1, n) <==>
            (LeftAhead(ms, states, events, i, n) || StopsAt(ms, states[i], events[i], n)) &&
            Above(ms[n], Current(states[i + 1]))
  {
    forall j | 0 <= j <= i + 1
      ensures Stays(ms, states, n, true, j, i + 1) <==>
              (j <= i ==> Stays(ms, states, n, true, j, i)) && Above(ms[n], Current(states[i + 1]))
    {
    }
  }

  lemma LeftMissingStep(ms: seq<string>, states: seq<State>, events: seq<Event>, i: nat, n: nat)
    requires AllDotted(ms) && AnyHistory(ms, states, events) && i < |events| && n < |ms|
    ensures LeftMissing(ms, states, events, i + 1, n) <==>
            (LeftMissing(ms, states, events, i, n) || Loses(ms, states[i], events[i], n)) &&
            !Above(ms[n], Current(states[i + 1]))
  {
    forall j | 0 <= j <= i + 1
      ensures Stays(ms, states, n, false, j, i + 1) <==>
              (j <= i ==> Stays(ms, states, n, false, j, i)) && !Above(ms[n], Current(states[i + 1]))
    {
    }
  }

  /** Over every history: which migrations are in effect beyond the version file, and which are missing. */
  lemma {:induction false} DisagreementIff(ms: seq<string>, states: seq<State>, events: seq<Event>, i: nat, n: nat)
    requires AllDotted(ms) && Ascending(ms) && AnyHistory(ms, states, events) && i <= |events| && n < |ms|
    ensures Ahead(ms, states[i], n) <==> LeftAhead(ms, states, events, i, n)
    ensures Missing(ms, states[i], n) <==> LeftMissing(ms, states, events, i, n)
  {
    if i == 0 {
      assert Above(ms[n], Current(states[0])) ==> Stays(ms, states, n, true, 0, 0);
      assert !Above(ms[n], Current(states[0])) ==> Stays(ms, states, n, false, 0, 0);
    } else {
      var m := i - 1;
      DisagreementIff(ms, states, events, m, n);
      LeftAheadStep(ms, states, events, m, n);
      LeftMissingStep(ms, states, events, m, n);
      StepExactly(ms, states[m], events[m], n);
    }
  }

  // ---------- Histories whose rollbacks go well ----------

  /** Every migration above `base` and not above the stored version is in effect. */
  ghost predicate NoneMissing(ms: seq<string>, base: string, s: State)
    requires AllDotted(ms) && Dotted(base) && Dotted(Current(s))
  {
    forall n :: 0 <= n < |ms| && Above(ms[n], base) ==> !Missing(ms, s, n)
  }

  lemma StepMissesNone(ms: seq<string>, base: string, s: State, e: Event)
    requires AllDotted(ms) && Ascending(ms) && Dotted(base) && Dotted(Current(s)) && Lawful(ms, s, e)
    requires NoneMissing(ms, base, s) && !Above(base, Current(s))
    ensures var t := Step(ms, s, e);
            var base' := if e.RollBackTo? && Above(base, e.target) then e.target else base;
            Dotted(Current(t)) && NoneMissing(ms, base', t)
  {
    BaseIsBelow(ms, base, s, e);
    forall n | 0 <= n < |ms| && Above(ms[n], if e.RollBackTo? && Above(base, e.target) then e.target else base)
      ensures !Missing(ms, Step(ms, s, e), n)
    {
      StepExactly(ms, s, e, n);
      if e.RollBackTo? {
        RollbackSucceedsIff(ms, s, e.target, e.attempt);
        AboveMonotone(ms[n], e.target, Current(s));
      }
    }
  }

  lemma MixedHistoryIsAny(ms: seq<string>, states: seq<State>, events: seq<Event>)
    requires AllDotted(ms) && Ascending(ms) && MixedHistory(ms, states, events)
    requires Dotted(Current(states[|events|]))
    ensures AnyHistory(ms, states, events)
  {
    forall i | 0 <= i < |events|
      ensures Readable(events[i])
    {
      assert Lawful(ms, states[i], events[i]);
    }
  }

  lemma {:induction false} MixedHistoryIsDotted(ms: seq<string>, start: string, states: seq<State>, events: seq<Event>,
                                                i: nat)
    requires AllDotted(ms) && Dotted(start) && MixedHistory(ms, states, events) && i <= |events|
    requires StartsAt(ms, start, states[0])
    ensures Dotted(Current(states[i]))
  {
    if i == 0 {
      AboveMonotone(start, start, start);
    } else {
      var m := i - 1;
      MixedHistoryIsDotted(ms, start, states, events, m);
      AboveMonotone(Current(states[m]), Current(states[m]), Current(states[m]));
      BaseIsBelow(ms, Current(states[m]), states[m], events[m]);
    }
  }

  /** Whatever mixture of runs that fail, runs that leave a step unrecorded, and rollbacks that go well: no migration
  up to the stored version is missing. */
  lemma {:induction false} MixedHistoryMissesNone(ms: seq<string>, start: string, states: seq<State>,
                                                  events: seq<Event>, i: nat)
    requires AllDotted(ms) && Ascending(ms) && Dotted(start) && MixedHistory(ms, states, events) && i <= |events|
    requires StartsAt(ms, start, states[0])
    ensures DottedTargets(events)
    ensures var base := Base(start, events[..i]);
            Dotted(Current(states[i])) && !Above(base, Current(states[i])) && NoneMissing(ms, base, states[i])
  {
    HistoryHasDottedTargets(ms, states, events);
    if i == 0 {
      AboveMonotone(start, start, start);
    } else {
      var m := i - 1;
      var s, e, base := states[m], events[m], Base(start, events[..m]);
      MixedHistoryMissesNone(ms, start, states, events, m);
      BaseStep(start, events, m);
      BaseIsBelow(ms, base, s, e);
      StepMissesNone(ms, base, s, e);
    }
  }

  /** A run stopped at `ms[n]` without recording it, and the stored version has been below it ever since. */
  ghost predicate StoppedAt(ms: seq<string>, states: seq<State>, events: seq<Event>, i: nat, n: nat)
    requires AllDotted(ms) && AnyHistory(ms, states, events) && i <= |events| && n < |ms|
  {
    exists j :: 0 <= j < i && StopsAt(ms, states[j], events[j], n) && Stays(ms, states, n, true, j + 1, i)
  }

  /** Over every such mixture: a migration is in effect beyond the version file exactly if a run could not record it
  and no later event moved the version past it; schema and version file agree exactly if there is none. */
  lemma MixedHistoryIsCleanIff(ms: seq<string>, start: string, states: seq<State>, events: seq<Event>, i: nat)
    requires AllDotted(ms) && Ascending(ms) && Dotted(start) && MixedHistory(ms, states, events) && i <= |events|
    requires StartsAt(ms, start, states[0])
    ensures DottedTargets(events) && Dotted(Current(states[i])) && AnyHistory(ms, states, events)
    ensures forall n :: 0 <= n < |ms| ==> (Ahead(ms, states[i], n) <==> StoppedAt(ms, states, events, i, n))
    ensures Clean(ms, Base(start, events[..i]), states[i]) <==>
            forall n :: 0 <= n < |ms| ==> !StoppedAt(ms, states, events, i, n)
  {
    MixedHistoryIsDotted(ms, start, states, events, |events|);
    MixedHistoryIsAny(ms, states, events);
    MixedHistoryMissesNone(ms, start, states, events, i);
    forall n | 0 <= n < |ms|
      ensures Ahead(ms, states[i], n) <==> StoppedAt(ms, states, events, i, n)
    {
      DisagreementIff(ms, states, events, i, n);
    }
    CleanIffNoneAhead(ms, Base(start, events[..i]), states[i]);
  }

  lemma CleanIffNoneAhead(ms: seq<string>, base: string, s: State)
    requires AllDotted(ms) && Dotted(base) && Dotted(Current(s)) && NoneMissing(ms, base, s) && !Above(base, Current(s))
    ensures Clean(ms, base, s) <==> forall n :: 0 <= n < |ms| ==> !Ahead(ms, s, n)
  {
    forall n | 0 <= n < |ms| && Ahead(ms, s, n)
      ensures ms[n] in ms && Above(ms[n], base)
    {
      AboveMonotone(ms[n], base, Current(s));
    }
    if !Clean(ms, base, s) {
      var v :| v in ms && Above(v, base) && (v in s.applied <==> Above(v, Current(s)));
      var n :| 0 <= n < |ms| && ms[n] == v;
      assert !Missing(ms, s, n);
      assert Ahead(ms, s, n);
    }
  }

  /** A run that gets through makes schema and version file agree again where nothing was missing. */
  lemma RunRepairs(ms: seq<string>, base: string, s: State, fate: string -> Fate)
    requires AllDotted(ms) && Ascending(ms) && Dotted(base) && Dotted(Current(s)) && NoneMissing(ms, base, s)
    requires Run(ms, s, false, fate).1
    ensures var t := Run(ms, s, false, fate).0;
            Dotted(Current(t)) && Clean(ms, base, t) && Pending(ms, Current(t)) == []
  {
    var t := Run(ms, s, false, fate).0;
    var k := PendingIsSuffix(ms, Current(s));
    AppliedToTheEnd(ms, k, s, fate);
    forall n | 0 <= n < |ms| && Above(ms[n], base)
      ensures ms[n] in t.applied
    {
      RunExactly(ms, s, fate, n);
    }
    var m := PendingIsSuffix(ms, Current(t));
    assert m == |ms|;
  }

  /** After any such mixture the first run that gets through makes schema and version file agree again. */
  lemma MixedHistoryIsRepaired(ms: seq<string>, start: string, states: seq<State>, events: seq<Event>, i: nat,
                               fate: string -> Fate)
    requires AllDotted(ms) && Ascending(ms) && Dotted(start) && MixedHistory(ms, states, events) && i <= |events|
    requires StartsAt(ms, start, states[0])
    requires Dotted(Current(states[i])) && Run(ms, states[i], false, fate).1
    ensures var t := Run(ms, states[i], false, fate).0;
            DottedTargets(events) && Dotted(Current(t)) && Clean(ms, Base(start, events[..i]), t) &&
            Pending(ms, Current(t)) == []
  {
    MixedHistoryMissesNone(ms, start, states, events, i);
    RunRepairs(ms, Base(start, events[..i]), states[i], fate);
  }

  lemma {:induction false} AppliedToTheEnd(ms: seq<string>, k: nat, s: State, fate: string -> Fate)
    requires AllDotted(ms) && Ascending(ms) && Dotted(Current(s)) && k <= |ms|
    requires forall i :: 0 <= i < |ms| ==> (Above(ms[i], Current(s)) <==> k <= i)
    requires Apply(ms[k..], s, fate).1
    ensures var t := Apply(ms[k..], s, fate).0;
            Dotted(Current(t)) && forall i :: 0 <= i < |ms| ==> !Above(ms[i], Current(t))
    decreases |ms| - k
  {
    if k == |ms| {
      assert ms[k..] == [];
    } else {
      PendingAfterOne(ms, k);
      AppliedToTheEnd(ms, k + 1, State(s.applied + {ms[k]}, Some(ms[k])), fate);
    }
  }

  // ---------- Which migrations take effect ----------

  lemma StepLeavesLower(ms: seq<string>, base: string, s: State, e: Event, n: nat)
    requires AllDotted(ms) && Ascending(ms) && Dotted(base) && Dotted(Current(s)) && Lawful(ms, s, e) && n < |ms|
    requires !Above(base, Current(s)) && !Above(ms[n], base)
    requires e.RollBackTo? && Above(base, e.target) ==> !Above(ms[n], e.target)
    ensures ms[n] in Step(ms, s, e).applied <==> ms[n] in s.applied
  {
    AboveMonotone(ms[n], base, Current(s));
    match e
    case Migrate(dryRun, fate) => RunExactly(ms, s, fate, n);
    case RollBackTo(target, a) =>
      RollbackExactly(ms, s, target, a, n);
      AboveMonotone(ms[n], base, target);
  }

  /** A migration that is not above the lowest version reached stays as it was at the start. */
  lemma {:induction false} LowerIsLeftAlone(ms: seq<string>, start: string, states: seq<State>, events: seq<Event>,
                                            i: nat, n: nat)
    requires AllDotted(ms) && Ascending(ms) && Dotted(start) && MixedHistory(ms, states, events) && i <= |events|
    requires StartsAt(ms, start, states[0]) && DottedTargets(events) && n < |ms|
    requires !Above(ms[n], Base(start, events[..i]))
    ensures ms[n] in states[i].applied <==> ms[n] in states[0].applied
  {
    if i == 0 {
    } else {
      var m := i - 1;
      var base, e := Base(start, events[..m]), events[m];
      BaseStep(start, events, m);
      MixedHistoryMissesNone(ms, start, states, events, m);
      assert Lawful(ms, states[m], e);
      if e.RollBackTo? && Above(base, e.target) {
        AboveMonotone(ms[n], e.target, base);
        AboveMonotone(e.target, ms[n], base);
      }
      LowerIsLeftAlone(ms, start, states, events, m, n);
      StepLeavesLower(ms, base, states[m], e, n);
    }
  }

  /** Over every history in which what is applied is recorded: a migration above the lowest version reached is in
  effect exactly up to the stored version, any other one exactly if it was at the start. */
  lemma TakesEffectIff(ms: seq<string>, start: string, states: seq<State>, events: seq<Event>, i: nat, n: nat)
    requires AllDotted(ms) && Ascending(ms) && Dotted(start) && History(ms, states, events) && i <= |events|
    requires StartsAt(ms, start, states[0]) && n < |ms|
    ensures DottedTargets(events) && Dotted(Current(states[i]))
    ensures ms[n] in states[i].applied <==>
            if Above(ms[n], Base(start, events[..i])) then !Above(ms[n], Current(states[i]))
            else ms[n] in states[0].applied
  {
    HistoryHasDottedTargets(ms, states, events);
    HistoryIsAnchored(ms, start, states, events, i);
    if !Above(ms[n], Base(start, events[..i])) {
      LowerIsLeftAlone(ms, start, states, events, i, n);
    }
  }

  // ---------- The shipped migrations ----------

  /** Runs never touch a migration that is not above the version they start from. */
  lemma {:induction false} RunsSkipOldMigrations(ms: seq<string>, s: State, fates: seq<string -> Fate>, v: string)
    requires AllDotted(ms) && Ascending(ms) && Dotted(Current(s)) && v in ms && !Above(v, Current(s))
    ensures v in RunAll(ms, s, fates).applied <==> v in s.applied
    decreases |fates|
  {
    if fates == [] {
    } else {
      var n :| 0 <= n < |ms| && ms[n] == v;
      RunExactly(ms, s, fates[0], n);
      RunsSkipOldMigrations(ms, Run(ms, s, false, fates[0]).0, fates[1..], v);
    }
  }

  function RunAll(ms: seq<string>, s: State, fates: seq<string -> Fate>): State
    requires AllDotted(ms) && Dotted(Current(s))
    decreases |fates|
  {
    if fates == [] then s
    else
      PendingMembers(ms, Current(s));
      ApplyStaysDotted(Pending(ms, Current(s)), s, fates[0]);
      RunAll(ms, Run(ms, s, false, fates[0]).0, fates[1..])
  }

  lemma {:induction false} ApplyStaysDotted(pending: seq<string>, s: State, fate: string -> Fate)
    requires AllDotted(pending) && Dotted(Current(s))
    ensures Dotted(Current(Apply(pending, s, fate).0))
  {
    if pending == [] {
    } else if fate(pending[0]).Done? {
      ApplyStaysDotted(pending[1..], State(s.applied + {pending[0]}, Some(pending[0])), fate);
    }
  }

  const SHIPPED: seq<string> := ["9.7.0", "9.7.1", "9.7.2"]

  lemma ThreeParts(x: string, y: string, z: string)
    requires Numeric(x) && Numeric(y) && Numeric(z)
    ensures Split(x + ['.'] + (y + ['.'] + z), '.') == [x, y, z]
  {
    SplitPiece(x, '.', y + ['.'] + z);
    SplitPiece(y, '.', z);
    SplitPiece(z, '.', "");
  }

  lemma NumbersOfThree(x: string, y: string, z: string)
    requires Numeric(x) && Numeric(y) && Numeric(z)
    ensures Numbers([x, y, z]) == [ToNat(x), ToNat(y), ToNat(z)]
  {
    assert [x, y, z][1..] == [y, z] && [y, z][1..] == [z] && [z][1..] == [];
    assert Numbers([z]) == [ToNat(z)];
    assert Numbers([y, z]) == [ToNat(y)] + Numbers([z]);
  }

  lemma OneDigit(c: char)
    requires IsDigit(c)
    ensures ToNat([c]) == DigitValue(c)
  {
    assert [c][..0] == "";
  }

  lemma ShippedVersion(c: char)
    requires IsDigit(c)
    ensures var v := "9.7." + [c]; Dotted(v) && Numbers(Split(v, '.')) == [9, 7, DigitValue(c)]
  {
    OneDigit('9');
    OneDigit('7');
    OneDigit(c);
    ThreeParts("9", "7", [c]);
    NumbersOfThree("9", "7", [c]);
    assert "9.7." + [c] == "9" + ['.'] + ("7" + ['.'] + [c]);
  }

  lemma CompareTriples(a: nat, b: nat, c: nat, d: nat)
    ensures CompareNumbers([a, b, c], [a, b, d]) > 0 <==> c > d
  {
    assert Rest([a, b, c]) == [b, c] && Rest([a, b, d]) == [b, d];
    assert Rest([b, c]) == [c] && Rest([b, d]) == [d] && Rest([c]) == [] && Rest([d]) == [];
    assert CompareNumbers([c], [d]) > 0 <==> c > d;
    assert CompareNumbers([b, c], [b, d]) == CompareNumbers([c], [d]);
  }

  lemma CompareShipped(c: char, d: char)
    requires IsDigit(c) && IsDigit(d)
    ensures var v, w := "9.7." + [c], "9.7." + [d];
            Dotted(v) && Dotted(w) && (Above(v, w) <==> DigitValue(c) > DigitValue(d))
  {
    ShippedVersion(c);
    ShippedVersion(d);
    CompareTriples(9, 7, DigitValue(c), DigitValue(d));
  }

  lemma AscendingTriple(u: string, v: string, w: string)
    requires Dotted(u) && Dotted(v) && Dotted(w) && Above(v, u) && Above(w, u) && Above(w, v)
    ensures AllDotted([u, v, w]) && Ascending([u, v, w])
  {
  }

  /** The shipped version with the given patch number. */
  function Shipped(patch: char): string { "9.7." + [patch] }

  lemma ShippedVersions(zero: char, one: char, two: char)
    requires zero == '0' && one == '1' && two == '2'
    ensures var ms := [Shipped(zero), Shipped(one), Shipped(two)];
            AllDotted(ms) && Ascending(ms) && Dotted(Shipped(zero)) && !Above(Shipped(zero), Shipped(zero))
    ensures SHIPPED == [Shipped(zero), Shipped(one), Shipped(two)] && DEFAULT_VERSION == Shipped(zero)
  {
    CompareShipped(zero, zero);
    CompareShipped(one, zero);
    CompareShipped(two, zero);
    CompareShipped(two, one);
    AscendingTriple(Shipped(zero), Shipped(one), Shipped(two));
    assert Shipped(zero) == "9.7.0" && Shipped(one) == "9.7.1" && Shipped(two) == "9.7.2";
  }

  /** On a fresh installation runs alone never create the users table, migration 9.7.0, however often and however
  well they go: its version is not above the default one. */
  lemma UsersTableIsNeverCreated(fates: seq<string -> Fate>)
    ensures AllDotted(SHIPPED) && Dotted(Current(State({}, None)))
    ensures "9.7.0" !in RunAll(SHIPPED, State({}, None), fates).applied
  {
    ShippedVersions('0', '1', '2');
    assert SHIPPED[0] == DEFAULT_VERSION && SHIPPED[0] in SHIPPED;
    RunsSkipOldMigrations(SHIPPED, State({}, None), fates, DEFAULT_VERSION);
  }

  /** On a fresh installation the table is there at some moment of a history exactly if a rollback went below 9.7.0
  before, and the stored version is 9.7.0 or later again. */
  lemma UsersTableIff(states: seq<State>, events: seq<Event>, i: nat)
    requires AllDotted(SHIPPED) && History(SHIPPED, states, events) && i <= |events|
    requires states[0] == State({}, None)
    ensures Dotted(DEFAULT_VERSION) && DottedTargets(events) && Dotted(Current(states[i]))
    ensures "9.7.0" in states[i].applied <==>
            Above("9.7.0", Base(DEFAULT_VERSION, events[..i])) && !Above("9.7.0", Current(states[i]))
  {
    ShippedVersions('0', '1', '2');
    assert SHIPPED[0] == "9.7.0";
    TakesEffectIff(SHIPPED, DEFAULT_VERSION, states, events, i, 0);
  }

  /** It does get there: by a rollback to any version below 9.7.0 and a run. */
  lemma UsersTableAfterRollback(target: string, a: Attempt, fate: string -> Fate)
    requires Dotted(target) && Dotted("9.7.0") && Above("9.7.0", target)
    requires AllDotted(SHIPPED) && Succeeds(SHIPPED, State({}, None), target, a) && fate("9.7.0").Done?
    ensures var s := Rollback(SHIPPED, State({}, None), target, a.fate, a.recorded).0;
            Current(s) == target && "9.7.0" in Run(SHIPPED, s, false, fate).0.applied
  {
    ShippedVersions('0', '1', '2');
    var s := Rollback(SHIPPED, State({}, None), target, a.fate, a.recorded).0;
    RollbackSucceedsIff(SHIPPED, State({}, None), target, a);
    RollbackOutcome(SHIPPED, State({}, None), target, a.fate, a.recorded);
    assert SHIPPED[0] == "9.7.0";
    RunExactly(SHIPPED, s, fate, 0);
  }

  /** A rollback may also go up: it then skips the migration it goes to, and however often the migrations are run,
  that one is missing until a rollback goes below it. */
  lemma SkippedMigrationStaysMissing(ms: seq<string>, s: State, v: string, a: Attempt, fates: seq<string -> Fate>)
    requires AllDotted(ms) && Ascending(ms) && Dotted(Current(s)) && v in ms && v !in s.applied
    requires Above(v, Current(s)) && a.recorded
    ensures var (t, ok) := Rollback(ms, s, v, a.fate, a.recorded);
            ok && Current(t) == v && v !in RunAll(ms, t, fates).applied
  {
    assert GoesWell(ms, 0, |ms|, Current(s), v, a.fate) by {
      forall m | 0 <= m < |ms|
        ensures !Affected(ms[m], Current(s), v)
      {
        AboveMonotone(ms[m], Current(s), v);
      }
    }
    RollbackSucceedsIff(ms, s, v, a);
    RollbackOutcome(ms, s, v, a.fate, a.recorded);
    AboveMonotone(v, v, v);
    RunsSkipOldMigrations(ms, Rollback(ms, s, v, a.fate, a.recorded).0, fates, v);
  }

  /** So it is with 9.7.1 after a rollback to it on a fresh installation. */
  lemma ShippedMigrationSkipped(a: Attempt, fates: seq<string -> Fate>)
    requires a.recorded
    ensures AllDotted(SHIPPED) && Dotted("9.7.1") && Dotted(Current(State({}, None)))
    ensures var (t, ok) := Rollback(SHIPPED, State({}, None), "9.7.1", a.fate, a.recorded);
            ok && Current(t) == "9.7.1" && "9.7.1" !in RunAll(SHIPPED, t, fates).applied
  {
    ShippedVersions('0', '1', '2');
    CompareShipped('1', '0');
    assert SHIPPED[1] == Shipped('1') == "9.7.1";
    SkippedMigrationStaysMissing(SHIPPED, State({}, None), SHIPPED[1], a, fates);
  }
}
