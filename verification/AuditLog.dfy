/** The bounded store of backend/api/audit_log.py: ignore-duplicate insert, trim to a cap, purge by cutoff.

`ORDER BY ts DESC LIMIT n` may return any choice among entries with equal timestamps, so a trim is a
relation here and every result holds for every choice the database makes. */
module AuditLog {

  /** `ts` stands for the ISO-8601 text, which the database compares in order of time. */
  datatype Entry = Entry(id: string, ts: int, payload: string)

  function AtMost(n: nat, m: nat): nat { if n <= m then n else m }

  /** `kept` is one of the possible results of selecting the newest `n` entries of `all`. */
  ghost predicate IsNewest(all: set<Entry>, kept: set<Entry>, n: nat) {
    && kept <= all
    && |kept| == AtMost(n, |all|)
    && forall k, d :: k in kept && d in all && d !in kept ==> d.ts <= k.ts
  }

  predicate HasId(rows: set<Entry>, id: string) {
    exists r :: r in rows && r.id == id
  }

  /** INSERT OR IGNORE: a row with the same primary key wins. */
  function WithEntry(rows: set<Entry>, e: Entry): set<Entry> {
    if HasId(rows, e.id) then rows else rows + {e}
  }

  /** DELETE ... WHERE ts < cutoff. */
  function Since(rows: set<Entry>, cutoff: int): set<Entry> {
    set r | r in rows && r.ts >= cutoff
  }

  /** SELECT id FROM audit_entries ORDER BY ts DESC LIMIT n. */
  method SelectNewest(rows: set<Entry>, n: nat) returns (kept: set<Entry>)
    ensures IsNewest(rows, kept, n)
  {
    kept := {};
    var rest := rows;
    while |kept| < n && rest != {}
      invariant kept !! rest && kept + rest == rows && |kept| <= n
      invariant forall k, d :: k in kept && d in rest ==> d.ts <= k.ts
      decreases rest
    {
      NewestExists(rest);
      var newest :| newest in rest && forall r :: r in rest ==> r.ts <= newest.ts;
      kept, rest := kept + {newest}, rest - {newest};
    }
    assert |rows| == |kept| + |rest|;
  }

  lemma {:induction false} NewestExists(rows: set<Entry>)
    requires rows != {}
    ensures exists e :: e in rows && forall r :: r in rows ==> r.ts <= e.ts
    decreases |rows|
  {
    var x :| x in rows;
    if rows - {x} != {} {
      NewestExists(rows - {x});
      var y :| y in rows - {x} && forall r :: r in rows - {x} ==> r.ts <= y.ts;
      assert forall r :: r in rows ==> r == x || r in rows - {x};
      assert forall r :: r in rows ==> r.ts <= (if x.ts > y.ts then x else y).ts;
    } else {
      assert forall r :: r in rows ==> r == x || r in rows - {x};
    }
  }

  class AuditTable {
    /** 10 000 in the source. */
    const cap: nat
    var rows: set<Entry>

    constructor (cap: nat)
      ensures this.cap == cap && rows == {}
    {
      this.cap, rows := cap, {};
    }

    /** `_insert_entry`; when the write fails, nothing is committed. */
    method InsertEntry(e: Entry, fails: bool)
      modifies this
      ensures Steps(old(rows), Write(e, fails), rows, cap)
    {
      if fails {
        return;
      }
      rows := WithEntry(rows, e);
      rows := SelectNewest(rows, cap);
    }

    /** `audit_purge`; when it fails, nothing is deleted. */
    method Purge(cutoff: int, fails: bool) returns (ok: bool, deleted: nat)
      modifies this
      ensures Steps(old(rows), Expire(cutoff, fails), rows, cap)
      ensures ok == !fails && deleted == |old(rows) - rows|
    {
      if fails {
        return false, 0;
      }
      ok := true;
      var kept := Since(rows, cutoff);
      deleted := |rows - kept|;
      rows := kept;
    }
  }

  // ---------- Whole histories ----------

  datatype Op = Write(entry: Entry, fails: bool) | Expire(cutoff: int, fails: bool)

  ghost predicate Steps(rows: set<Entry>, op: Op, after: set<Entry>, cap: nat) {
    if op.fails then after == rows
    else
      match op
      case Write(e, _) => IsNewest(WithEntry(rows, e), after, cap)
      case Expire(cutoff, _) => after == Since(rows, cutoff)
  }

  /** `tables` starts empty, and each table follows from the one before it. */
  ghost predicate History(tables: seq<set<Entry>>, ops: seq<Op>, cap: nat) {
    && |tables| == |ops| + 1 && tables[0] == {}
    && forall i :: 0 <= i < |ops| ==> Steps(tables[i], ops[i], tables[i + 1], cap)
  }

  /** The same operation on a table without any cap. */
  function Grown(all: set<Entry>, op: Op): set<Entry> {
    if op.fails then all
    else
      match op
      case Write(e, _) => WithEntry(all, e)
      case Expire(cutoff, _) => Since(all, cutoff)
  }

  /** What a table without any cap would hold. */
  function Unbounded(ops: seq<Op>): set<Entry> {
    if ops == [] then {} else Grown(Unbounded(ops[..|ops| - 1]), ops[|ops| - 1])
  }

  /** Entries that carry the same id are the same entry. */
  ghost predicate Consistent(ops: seq<Op>) {
    forall a, b :: a in ops && b in ops && a.Write? && b.Write? && a.entry.id == b.entry.id ==> a.entry == b.entry
  }

  lemma SubsetOfSameSize(s: set<Entry>, t: set<Entry>)
    requires s <= t
    ensures |s| <= |t|
    ensures |s| == |t| ==> s == t
  {
    assert t == s + (t - s);
    if |s| == |t| {
      assert |t - s| == 0;
      assert t - s == {};
    }
  }

  /** Trimming after each insert is trimming once at the end. */
  lemma InsertThenTrim(all: set<Entry>, kept: set<Entry>, e: Entry, after: set<Entry>, n: nat)
    requires IsNewest(all, kept, n) && IsNewest(kept + {e}, after, n)
    ensures IsNewest(all + {e}, after, n)
  {
    SubsetOfSameSize(kept, all);
    SubsetOfSameSize(all, all + {e});
    SubsetOfSameSize(kept, kept + {e});
    if |all| <= n {
      assert kept == all;
    } else {
      forall k, d | k in after && d in all + {e} && d !in after
        ensures d.ts <= k.ts
      {
        if d !in kept + {e} && k !in kept {
          assert k == e;
          if kept <= after {
            SubsetOfSameSize(kept + {e}, after);
            assert false;
          }
          var x :| x in kept && x !in after;
        }
      }
    }
  }

  /** Purging before the trim or after it comes to the same. */
  lemma PurgeCommutes(all: set<Entry>, kept: set<Entry>, n: nat, cutoff: int)
    requires IsNewest(all, kept, n)
    ensures IsNewest(Since(all, cutoff), Since(kept, cutoff), n)
  {
    var all', kept' := Since(all, cutoff), Since(kept, cutoff);
    SubsetOfSameSize(kept, all);
    SubsetOfSameSize(kept', all');
    SubsetOfSameSize(kept', kept);
    if |all| <= n {
      assert kept == all;
      SubsetOfSameSize(all', all);
    } else if kept' == kept {
    } else {
      var gone :| gone in kept && gone !in kept';
      assert forall d :: d in all && d !in kept ==> d.ts < cutoff;
      assert all' == kept';
    }
  }

  lemma {:induction false} UnboundedComesFromWrites(ops: seq<Op>, e: Entry)
    requires e in Unbounded(ops)
    ensures exists op :: op in ops && op.Write? && op.entry == e
  {
    var front := ops[..|ops| - 1];
    if e in Unbounded(front) {
      UnboundedComesFromWrites(front, e);
    } else {
      assert ops[|ops| - 1] in ops;
    }
  }

  // ---------- Ids that return ----------

  /** An entry enters the table although the unbounded table ignores it: the id belongs to an earlier entry that
  was trimmed away. */
  ghost predicate Returns(all: set<Entry>, rows: set<Entry>, op: Op, after: set<Entry>) {
    && op.Write? && !op.fails
    && op.entry !in all && HasId(all, op.entry.id) && !HasId(rows, op.entry.id)
    && op.entry in after
  }

  lemma TrimAgain(rows: set<Entry>, after: set<Entry>, n: nat)
    requires IsNewest(rows, after, n) && |rows| <= n
    ensures after == rows
  {
    SubsetOfSameSize(after, rows);
  }

  /** An entry that is trimmed away at once has pushed nothing out. */
  lemma TrimmedAtOnce(rows: set<Entry>, e: Entry, after: set<Entry>, n: nat)
    requires IsNewest(rows + {e}, after, n) && e !in rows && e !in after && |rows| <= n
    ensures after == rows
  {
    assert after <= rows && |rows + {e}| == |rows| + 1;
    SubsetOfSameSize(after, rows);
  }

  lemma WriteKeepsNewestIff(all: set<Entry>, rows: set<Entry>, e: Entry, after: set<Entry>, cap: nat)
    requires IsNewest(all, rows, cap) && IsNewest(WithEntry(rows, e), after, cap)
    ensures IsNewest(WithEntry(all, e), after, cap) <==> !Returns(all, rows, Write(e, false), after)
  {
    if HasId(rows, e.id) {
      TrimAgain(rows, after, cap);
    } else if !HasId(all, e.id) {
      InsertThenTrim(all, rows, e, after, cap);
    } else if e in all {
      InsertThenTrim(all, rows, e, after, cap);
      assert all + {e} == all;
    } else if e !in after {
      TrimmedAtOnce(rows, e, after, cap);
    }
  }

  lemma StepKeepsNewestIff(all: set<Entry>, rows: set<Entry>, op: Op, after: set<Entry>, cap: nat)
    requires IsNewest(all, rows, cap) && Steps(rows, op, after, cap)
    ensures IsNewest(Grown(all, op), after, cap) <==> !Returns(all, rows, op, after)
  {
    if op.fails {
    } else {
      match op
      case Write(e, _) => WriteKeepsNewestIff(all, rows, e, after, cap);
      case Expire(cutoff, _) => PurgeCommutes(all, rows, cap, cutoff);
    }
  }

  ghost predicate NewestUpTo(tables: seq<set<Entry>>, ops: seq<Op>, cap: nat, n: nat)
    requires |tables| == |ops| + 1 && n <= |ops|
  {
    forall i :: 0 <= i <= n ==> IsNewest(Unbounded(ops[..i]), tables[i], cap)
  }

  ghost predicate NoneReturnsUpTo(tables: seq<set<Entry>>, ops: seq<Op>, n: nat)
    requires |tables| == |ops| + 1 && n <= |ops|
  {
    forall i :: 0 <= i < n ==> !Returns(Unbounded(ops[..i]), tables[i], ops[i], tables[i + 1])
  }

  /** The table is a newest `cap` of what an unbounded table would hold exactly as long as no id returns. */
  lemma {:induction false} NewestIffNoneReturns(tables: seq<set<Entry>>, ops: seq<Op>, cap: nat, n: nat)
    requires History(tables, ops, cap) && n <= |ops|
    ensures NewestUpTo(tables, ops, cap, n) <==> NoneReturnsUpTo(tables, ops, n)
  {
    if n == 0 {
      assert IsNewest({}, tables[0], cap);
    } else {
      var m := n - 1;
      NewestIffNoneReturns(tables, ops, cap, m);
      UnboundedStep(ops, m);
      if NewestUpTo(tables, ops, cap, m) {
        StepKeepsNewestIff(Unbounded(ops[..m]), tables[m], ops[m], tables[n], cap);
      }
    }
  }

  lemma UnboundedStep(ops: seq<Op>, i: nat)
    requires i < |ops|
    ensures Unbounded(ops[..i + 1]) == Grown(Unbounded(ops[..i]), ops[i])
  {
    assert ops[..i + 1][..i] == ops[..i];
  }

  // ---------- When an id returns ----------

  /** Before the write: the id belongs to another entry that was trimmed away. */
  ghost predicate Reuses(all: set<Entry>, rows: set<Entry>, op: Op) {
    op.Write? && !op.fails && op.entry !in all && HasId(all, op.entry.id) && !HasId(rows, op.entry.id)
  }

  /** Before the write: such an entry, and some row is older. */
  ghost predicate ComesBack(all: set<Entry>, rows: set<Entry>, op: Op) {
    Reuses(all, rows, op) && exists r :: r in rows && r.ts < op.entry.ts
  }

  /** Before the write: such an entry, and some row is not newer. */
  ghost predicate MayComeBack(all: set<Entry>, rows: set<Entry>, op: Op) {
    Reuses(all, rows, op) && exists r :: r in rows && r.ts <= op.entry.ts
  }

  /** No row has the timestamp of the entry. */
  ghost predicate Untied(rows: set<Entry>, op: Op) {
    op.Write? ==> forall r :: r in rows ==> r.ts != op.entry.ts
  }

  /** What can be seen before the write decides whether the id returns, up to the choice among rows as old as the
  entry. */
  lemma ReturnsBounds(all: set<Entry>, rows: set<Entry>, op: Op, after: set<Entry>, cap: nat)
    requires IsNewest(all, rows, cap) && Steps(rows, op, after, cap)
    ensures ComesBack(all, rows, op) ==> Returns(all, rows, op, after)
    ensures Returns(all, rows, op, after) ==> MayComeBack(all, rows, op)
  {
    if Reuses(all, rows, op) {
      SubsetOfSameSize(rows, all);
      assert |rows + {op.entry}| == |rows| + 1;
      if op.entry !in after {
        TrimmedAtOnce(rows, op.entry, after, cap);
      } else if rows <= after {
        SubsetOfSameSize(rows + {op.entry}, after);
      }
    }
  }

  ghost predicate NoneComesBack(tables: seq<set<Entry>>, ops: seq<Op>, n: nat)
    requires |tables| == |ops| + 1 && n <= |ops|
  {
    forall i :: 0 <= i < n ==> !ComesBack(Unbounded(ops[..i]), tables[i], ops[i])
  }

  ghost predicate NoneMayComeBack(tables: seq<set<Entry>>, ops: seq<Op>, n: nat)
    requires |tables| == |ops| + 1 && n <= |ops|
  {
    forall i :: 0 <= i < n ==> !MayComeBack(Unbounded(ops[..i]), tables[i], ops[i])
  }

  ghost predicate AllUntied(tables: seq<set<Entry>>, ops: seq<Op>, n: nat)
    requires |tables| == |ops| + 1 && n <= |ops|
  {
    forall i :: 0 <= i < n ==> Untied(tables[i], ops[i])
  }

  /** Any order of arrival, repeated and reused ids, failed writes and purges in between: the table is at every moment
  a newest `cap` of what an unbounded table would hold exactly as long as no write reuses the id of a trimmed entry
  while some row is older. Where a row is as old as the entry, the database's choice among them decides. */
  lemma TableIsNewestIff(tables: seq<set<Entry>>, ops: seq<Op>, cap: nat, n: nat)
    requires History(tables, ops, cap) && n <= |ops|
    ensures NewestUpTo(tables, ops, cap, n) ==> NoneComesBack(tables, ops, n)
    ensures NoneMayComeBack(tables, ops, n) ==> NewestUpTo(tables, ops, cap, n)
    ensures AllUntied(tables, ops, n) ==> (NewestUpTo(tables, ops, cap, n) <==> NoneComesBack(tables, ops, n))
  {
    NewestWithoutReuse(tables, ops, cap, n);
    if NewestUpTo(tables, ops, cap, n) {
      NewestIffNoneReturns(tables, ops, cap, n);
      forall i | 0 <= i < n
        ensures !ComesBack(Unbounded(ops[..i]), tables[i], ops[i])
      {
        ReturnsBounds(Unbounded(ops[..i]), tables[i], ops[i], tables[i + 1], cap);
      }
    }
    if AllUntied(tables, ops, n) && NoneComesBack(tables, ops, n) {
      assert NoneMayComeBack(tables, ops, n);
    }
  }

  lemma {:induction false} NewestWithoutReuse(tables: seq<set<Entry>>, ops: seq<Op>, cap: nat, n: nat)
    requires History(tables, ops, cap) && n <= |ops|
    ensures NoneMayComeBack(tables, ops, n) ==> NewestUpTo(tables, ops, cap, n)
  {
    if n == 0 {
      assert IsNewest({}, tables[0], cap);
    } else if NoneMayComeBack(tables, ops, n) {
      var m := n - 1;
      NewestWithoutReuse(tables, ops, cap, m);
      UnboundedStep(ops, m);
      StepKeepsNewestIff(Unbounded(ops[..m]), tables[m], ops[m], tables[n], cap);
      ReturnsBounds(Unbounded(ops[..m]), tables[m], ops[m], tables[n], cap);
    }
  }

  /** Where an id determines its entry, none is reused for another one. */
  lemma ConsistentNeverReturns(tables: seq<set<Entry>>, ops: seq<Op>, cap: nat)
    requires History(tables, ops, cap) && Consistent(ops)
    ensures NoneMayComeBack(tables, ops, |ops|)
  {
    forall i | 0 <= i < |ops| && ops[i].Write? && HasId(Unbounded(ops[..i]), ops[i].entry.id)
      ensures ops[i].entry in Unbounded(ops[..i])
    {
      var x :| x in Unbounded(ops[..i]) && x.id == ops[i].entry.id;
      UnboundedComesFromWrites(ops[..i], x);
      var op :| op in ops[..i] && op.Write? && op.entry == x;
      assert op in ops && ops[i] in ops;
    }
  }

  /** So the table is then always a newest `cap` of what an unbounded table would hold. */
  lemma TableIsNewest(tables: seq<set<Entry>>, ops: seq<Op>, cap: nat)
    requires History(tables, ops, cap) && Consistent(ops)
    ensures IsNewest(Unbounded(ops), tables[|ops|], cap)
  {
    ConsistentNeverReturns(tables, ops, cap);
    TableIsNewestIff(tables, ops, cap, |ops|);
    assert ops[..|ops|] == ops;
  }

  // ---------- Distinct timestamps ----------

  ghost predicate DistinctTimes(all: set<Entry>) {
    forall a, b :: a in all && b in all && a.ts == b.ts ==> a == b
  }

  function Newer(all: set<Entry>, e: Entry): set<Entry> {
    set f | f in all && f.ts > e.ts
  }

  /** With distinct timestamps an entry is kept exactly when fewer than `n` entries are newer. */
  lemma KeptIffFewerNewer(all: set<Entry>, kept: set<Entry>, n: nat, e: Entry)
    requires IsNewest(all, kept, n) && DistinctTimes(all) && e in all
    ensures e in kept <==> |Newer(all, e)| < n
  {
    SubsetOfSameSize(kept, all);
    if e in kept {
      assert Newer(all, e) <= kept - {e};
      SubsetOfSameSize(Newer(all, e), kept - {e});
    } else {
      assert |kept| == n;
      assert kept <= Newer(all, e);
      SubsetOfSameSize(kept, Newer(all, e));
    }
  }

  /** With distinct timestamps there is only one newest selection. */
  lemma NewestIsDetermined(all: set<Entry>, kept: set<Entry>, kept': set<Entry>, n: nat)
    requires IsNewest(all, kept, n) && IsNewest(all, kept', n) && DistinctTimes(all)
    ensures kept == kept'
  {
    forall e | e in all
      ensures e in kept <==> e in kept'
    {
      KeptIffFewerNewer(all, kept, n, e);
      KeptIffFewerNewer(all, kept', n, e);
    }
  }

  /** With distinct timestamps the final table depends only on what an unbounded table would hold: not on the
  order of arrival, and not on how often an entry arrives, as long as no write brings back a reused id. */
  lemma ArrivalOrderDoesNotMatter(tables: seq<set<Entry>>, ops: seq<Op>, tables': seq<set<Entry>>, ops': seq<Op>,
                                  cap: nat)
    requires History(tables, ops, cap) && NoneMayComeBack(tables, ops, |ops|)
    requires History(tables', ops', cap) && NoneMayComeBack(tables', ops', |ops'|)
    requires Unbounded(ops) == Unbounded(ops') && DistinctTimes(Unbounded(ops))
    ensures tables[|ops|] == tables'[|ops'|]
  {
    TableIsNewestIff(tables, ops, cap, |ops|);
    TableIsNewestIff(tables', ops', cap, |ops'|);
    assert ops[..|ops|] == ops && ops'[..|ops'|] == ops';
    NewestIsDetermined(Unbounded(ops), tables[|ops|], tables'[|ops'|], cap);
  }

  lemma UnboundedOfTwo(a: Entry, b: Entry)
    requires a.id != b.id
    ensures Unbounded([Write(a, false), Write(b, false)]) == {a, b}
  {
    var ops := [Write(a, false), Write(b, false)];
    assert ops[..1][..0] == [] && ops[..2] == ops;
    UnboundedStep(ops, 0);
    UnboundedStep(ops, 1);
    assert WithEntry({}, a) == {a} && WithEntry({a}, b) == {a, b};
  }

  lemma ReusedIdHistory(a: Entry, b: Entry, later: Entry)
    requires a.id == later.id != b.id && a.ts < b.ts < later.ts
    ensures History([{}, {a}, {b}, {later}], [Write(a, false), Write(b, false), Write(later, false)], 1)
  {
    assert WithEntry({}, a) == {a} && WithEntry({a}, b) == {a, b} && WithEntry({b}, later) == {b, later};
  }

  /** It does happen: an id that was trimmed away and is reused for a later event comes back. */
  lemma ReusedIdReturns(a: Entry, b: Entry, later: Entry)
    requires a.id == later.id != b.id && a.ts < b.ts < later.ts
    ensures var ops, tables := [Write(a, false), Write(b, false), Write(later, false)], [{}, {a}, {b}, {later}];
            History(tables, ops, 1) && AllUntied(tables, ops, 3) && !NoneComesBack(tables, ops, 3)
  {
    var ops, tables := [Write(a, false), Write(b, false), Write(later, false)], [{}, {a}, {b}, {later}];
    ReusedIdHistory(a, b, later);
    UnboundedOfTwo(a, b);
    assert ops[..2] == [Write(a, false), Write(b, false)];
    assert a in Unbounded(ops[..2]) && b in tables[2] && ComesBack(Unbounded(ops[..2]), tables[2], ops[2]);
  }
}
