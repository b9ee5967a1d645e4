/** The model cache of backend/ai/model_cache.py with its least-recently-used eviction. Sizes and times are
exact reals; the clock is passed in. */
module ModelCache {
  import opened Text

  /** A loaded model with its `ModelInfo`. The two dictionaries of the source always have the same keys in
  the same order, so they are one list here. */
  datatype Loaded = Loaded(id: string, model: int, memoryMb: real, lastUsed: real, useCount: nat)

  /** `memory` is the running counter `_current_memory`. */
  datatype Cache = Cache(entries: seq<Loaded>, memory: real)

  ghost predicate DistinctIds(entries: seq<Loaded>) {
    forall i, j :: 0 <= i < j < |entries| ==> entries[i].id != entries[j].id
  }

  /** The position of `id`, or the length of the list. */
  function Position(entries: seq<Loaded>, id: string): (k: nat)
    ensures k <= |entries|
    ensures k < |entries| ==> entries[k].id == id
    ensures forall i :: 0 <= i < k ==> entries[i].id != id
  {
    if entries == [] || entries[0].id == id then 0 else 1 + Position(entries[1..], id)
  }

  predicate Has(entries: seq<Loaded>, id: string) { Position(entries, id) < |entries| }

  function Without(entries: seq<Loaded>, k: nat): seq<Loaded>
    requires k < |entries|
  {
    entries[..k] + entries[k + 1..]
  }

  function Register(c: Cache, e: Loaded): Cache {
    var k := Position(c.entries, e.id);
    Cache(if k < |c.entries| then c.entries[k := e] else c.entries + [e], c.memory + e.memoryMb)
  }

  function Unload(c: Cache, id: string): Cache {
    var k := Position(c.entries, id);
    if k < |c.entries| then Cache(Without(c.entries, k), c.memory - c.entries[k].memoryMb) else c
  }

  function Touch(c: Cache, id: string, now: real): Cache {
    var k := Position(c.entries, id);
    if k < |c.entries| then
      var e := c.entries[k];
      c.(entries := c.entries[k := e.(lastUsed := now, useCount := e.useCount + 1)])
    else c
  }

  /** `k` is the first position with the least `lastUsed`. */
  ghost predicate IsOldest(entries: seq<Loaded>, k: nat) {
    && k < |entries|
    && (forall i :: 0 <= i < |entries| ==> entries[k].lastUsed <= entries[i].lastUsed)
    && (forall i :: 0 <= i < k ==> entries[k].lastUsed < entries[i].lastUsed)
  }

  lemma {:induction false} OldestExists(entries: seq<Loaded>)
    requires entries != []
    ensures exists k: nat :: IsOldest(entries, k)
  {
    var last := |entries| - 1;
    if last == 0 {
      assert IsOldest(entries, 0);
    } else {
      OldestExists(entries[..last]);
      var k: nat :| IsOldest(entries[..last], k);
      assert IsOldest(entries, if entries[last].lastUsed < entries[k].lastUsed then last else k);
    }
  }

  ghost function Oldest(entries: seq<Loaded>): (k: nat)
    requires entries != []
    ensures IsOldest(entries, k)
  {
    OldestExists(entries);
    var k: nat :| IsOldest(entries, k);
    k
  }

  /** `evict_lru`; an entry whose id is the empty string is never evicted. */
  ghost function Evict(c: Cache): Cache {
    if c.entries == [] then c
    else
      var id := c.entries[Oldest(c.entries)].id;
      if id == "" then c else Unload(c, id)
  }

  predicate NoEmptyId(entries: seq<Loaded>) {
    forall e :: e in entries ==> e.id != ""
  }

  lemma PositionOf(entries: seq<Loaded>, k: nat)
    requires DistinctIds(entries) && k < |entries|
    ensures Position(entries, entries[k].id) == k
  {
  }

  lemma WithoutKeepsDistinct(entries: seq<Loaded>, k: nat)
    requires DistinctIds(entries) && k < |entries|
    ensures DistinctIds(Without(entries, k))
    ensures forall e :: e in Without(entries, k) <==> e in entries && e != entries[k]
  {
    var rest := Without(entries, k);
    forall e | e in entries && e != entries[k]
      ensures e in rest
    {
      var i :| 0 <= i < |entries| && entries[i] == e;
      assert rest[if i < k then i else i - 1] == e;
    }
  }

  lemma EvictRemovesOldest(c: Cache)
    requires DistinctIds(c.entries) && NoEmptyId(c.entries) && c.entries != []
    ensures var k := Oldest(c.entries);
            Evict(c) == Cache(Without(c.entries, k), c.memory - c.entries[k].memoryMb)
    ensures DistinctIds(Evict(c).entries) && NoEmptyId(Evict(c).entries) && |Evict(c).entries| == |c.entries| - 1
  {
    var k := Oldest(c.entries);
    assert c.entries[k] in c.entries;
    PositionOf(c.entries, k);
    WithoutKeepsDistinct(c.entries, k);
  }

  /** `can_load`: evicts until the request fits or nothing is left. */
  ghost function MakeRoom(c: Cache, memoryMb: real, max: real): Cache
    requires DistinctIds(c.entries) && NoEmptyId(c.entries)
    decreases |c.entries|
  {
    if c.memory + memoryMb > max && c.entries != [] then
      EvictRemovesOldest(c);
      MakeRoom(Evict(c), memoryMb, max)
    else c
  }

  ghost function EvictMany(c: Cache, k: nat): Cache
    decreases k
  {
    if k == 0 then c else EvictMany(Evict(c), k - 1)
  }

  /** `k` evictions make room for the request, or leave nothing, and fewer would not do. */
  ghost predicate LeastEvictions(c: Cache, memoryMb: real, max: real, k: nat)
    decreases k
  {
    if k == 0 then c.memory + memoryMb <= max || c.entries == []
    else c.memory + memoryMb > max && c.entries != [] && LeastEvictions(Evict(c), memoryMb, max, k - 1)
  }

  /** The loop of `can_load` ends. */
  ghost predicate Ends(c: Cache, memoryMb: real, max: real) {
    exists k: nat :: LeastEvictions(c, memoryMb, max, k)
  }

  lemma {:induction false} LeastIsUnique(c: Cache, memoryMb: real, max: real, j: nat, k: nat)
    requires LeastEvictions(c, memoryMb, max, j) && LeastEvictions(c, memoryMb, max, k)
    ensures j == k
    decreases k
  {
    if j == 0 || k == 0 {
    } else {
      LeastIsUnique(Evict(c), memoryMb, max, j - 1, k - 1);
    }
  }

  /** `can_load` evicts, in order of last use, the least number of models that makes room, or all of them. */
  lemma {:induction false} MakeRoomEvictsLeast(c: Cache, memoryMb: real, max: real) returns (k: nat)
    requires DistinctIds(c.entries) && NoEmptyId(c.entries)
    ensures MakeRoom(c, memoryMb, max) == EvictMany(c, k) && LeastEvictions(c, memoryMb, max, k)
    ensures k + |EvictMany(c, k).entries| == |c.entries|
    decreases |c.entries|
  {
    if c.memory + memoryMb > max && c.entries != [] {
      EvictRemovesOldest(c);
      var m := MakeRoomEvictsLeast(Evict(c), memoryMb, max);
      k := m + 1;
    } else {
      k := 0;
    }
  }

  /** How often the loop evicts. */
  ghost function Evictions(c: Cache, memoryMb: real, max: real): (k: nat)
    requires Ends(c, memoryMb, max)
    ensures LeastEvictions(c, memoryMb, max, k)
  {
    var k: nat :| LeastEvictions(c, memoryMb, max, k);
    k
  }

  /** What the loop leaves. */
  ghost function Final(c: Cache, memoryMb: real, max: real): Cache
    requires Ends(c, memoryMb, max)
  {
    EvictMany(c, Evictions(c, memoryMb, max))
  }

  lemma FinalAfterOne(c: Cache, memoryMb: real, max: real)
    requires Ends(c, memoryMb, max)
    ensures if c.memory + memoryMb > max && c.entries != []
            then Ends(Evict(c), memoryMb, max) &&
                 Evictions(Evict(c), memoryMb, max) < Evictions(c, memoryMb, max) &&
                 Final(Evict(c), memoryMb, max) == Final(c, memoryMb, max)
            else Final(c, memoryMb, max) == c
  {
    var k := Evictions(c, memoryMb, max);
    if c.memory + memoryMb > max && c.entries != [] {
      assert LeastEvictions(Evict(c), memoryMb, max, k - 1);
      LeastIsUnique(Evict(c), memoryMb, max, k - 1, Evictions(Evict(c), memoryMb, max));
    }
  }

  /** Without an empty id the loop always ends, with what `MakeRoom` describes. */
  lemma FinalIsMakeRoom(c: Cache, memoryMb: real, max: real)
    requires DistinctIds(c.entries) && NoEmptyId(c.entries)
    ensures Ends(c, memoryMb, max) && Final(c, memoryMb, max) == MakeRoom(c, memoryMb, max)
  {
    var k := MakeRoomEvictsLeast(c, memoryMb, max);
    LeastIsUnique(c, memoryMb, max, k, Evictions(c, memoryMb, max));
  }

  class ModelCache {
    const maxMemoryMb: real
    var entries: seq<Loaded>
    var currentMemory: real

    function View(): Cache
      reads this
    {
      Cache(entries, currentMemory)
    }

    ghost predicate Valid()
      reads this
    {
      DistinctIds(entries)
    }

    constructor (maxMemoryMb: real)
      ensures Valid() && View() == Cache([], 0.0) && this.maxMemoryMb == maxMemoryMb
    {
      this.maxMemoryMb, entries, currentMemory := maxMemoryMb, [], 0.0;
    }

    method RegisterModel(id: string, model: int, memoryMb: real, now: real)
      requires Valid()
      modifies this
      ensures Valid() && View() == Register(old(View()), Loaded(id, model, memoryMb, now, 0))
    {
      var info := Loaded(id, model, memoryMb, now, 0);
      var k := Position(entries, id);
      entries := if k < |entries| then entries[k := info] else entries + [info];
      currentMemory := currentMemory + memoryMb;
    }

    method Get(id: string, now: real) returns (model: Option<int>)
      requires Valid()
      modifies this`entries
      ensures Valid() && View() == Touch(old(View()), id, now)
      ensures model == if Has(old(entries), id) then Some(old(entries)[Position(old(entries), id)].model) else None
    {
      var k := Position(entries, id);
      if k == |entries| {
        return None;
      }
      var e := entries[k];
      entries := entries[k := e.(lastUsed := now, useCount := e.useCount + 1)];
      return Some(entries[k].model);
    }

    method UnloadModel(id: string)
      requires Valid()
      modifies this
      ensures Valid() && View() == Unload(old(View()), id)
    {
      var k := Position(entries, id);
      if k < |entries| {
        WithoutKeepsDistinct(entries, k);
        currentMemory := currentMemory - entries[k].memoryMb;
        entries := Without(entries, k);
      }
    }

    method EvictLru()
      requires Valid()
      modifies this
      ensures Valid() && View() == Evict(old(View()))
    {
      if entries == [] {
        return;
      }
      var oldest := 0;
      for i := 1 to |entries|
        invariant IsOldest(entries[..i], oldest)
      {
        if entries[i].lastUsed < entries[oldest].lastUsed {
          oldest := i;
        }
      }
      assert entries[..|entries|] == entries;
      assert oldest == Oldest(entries);
      if entries[oldest].id != "" {
        UnloadModel(entries[oldest].id);
      }
    }

    method CanLoad(memoryMb: real) returns (fits: bool)
      requires Valid() && Ends(View(), memoryMb, maxMemoryMb)
      modifies this
      ensures Valid()
      ensures View() == Final(old(View()), memoryMb, maxMemoryMb)
      ensures NoEmptyId(old(entries)) ==> View() == MakeRoom(old(View()), memoryMb, maxMemoryMb)
      ensures fits <==> currentMemory + memoryMb <= maxMemoryMb
    {
      if NoEmptyId(entries) {
        FinalIsMakeRoom(View(), memoryMb, maxMemoryMb);
      }
      while currentMemory + memoryMb > maxMemoryMb && entries != []
        invariant Valid() && Ends(View(), memoryMb, maxMemoryMb)
        invariant Final(View(), memoryMb, maxMemoryMb) == Final(old(View()), memoryMb, maxMemoryMb)
        decreases Evictions(View(), memoryMb, maxMemoryMb)
      {
        FinalAfterOne(View(), memoryMb, maxMemoryMb);
        EvictLru();
      }
      FinalAfterOne(View(), memoryMb, maxMemoryMb);
      return currentMemory + memoryMb <= maxMemoryMb;
    }
  }

  // ---------- The memory counter ----------

  function Total(entries: seq<Loaded>): real {
    if entries == [] then 0.0 else entries[0].memoryMb + Total(entries[1..])
  }

  ghost predicate Accounted(c: Cache) { c.memory == Total(c.entries) }

  lemma {:induction false} TotalOfConcat(s: seq<Loaded>, t: seq<Loaded>)
    ensures Total(s + t) == Total(s) + Total(t)
  {
    if s == [] {
      assert s + t == t;
    } else {
      TotalOfConcat(s[1..], t);
      assert (s + t)[1..] == s[1..] + t;
    }
  }

  lemma TotalSplit(entries: seq<Loaded>, k: nat)
    requires k < |entries|
    ensures Total(entries) == Total(entries[..k]) + entries[k].memoryMb + Total(entries[k + 1..])
  {
    assert entries == entries[..k] + ([entries[k]] + entries[k + 1..]);
    TotalOfConcat(entries[..k], [entries[k]] + entries[k + 1..]);
    TotalOfConcat([entries[k]], entries[k + 1..]);
    assert Total([entries[k]]) == entries[k].memoryMb;
  }

  lemma TotalWithout(entries: seq<Loaded>, k: nat)
    requires k < |entries|
    ensures Total(Without(entries, k)) == Total(entries) - entries[k].memoryMb
  {
    TotalSplit(entries, k);
    TotalOfConcat(entries[..k], entries[k + 1..]);
  }

  lemma TotalUpdated(entries: seq<Loaded>, k: nat, e: Loaded)
    requires k < |entries|
    ensures Total(entries[k := e]) == Total(entries) - entries[k].memoryMb + e.memoryMb
  {
    TotalSplit(entries, k);
    TotalSplit(entries[k := e], k);
    assert entries[k := e][..k] == entries[..k] && entries[k := e][k + 1..] == entries[k + 1..];
  }

  /** Registering keeps the counter right exactly when the id is not loaded yet, or takes no memory so far:
  the source never subtracts what it overwrites. */
  lemma RegisterAccountsIff(c: Cache, e: Loaded)
    requires Accounted(c)
    ensures Accounted(Register(c, e)) <==>
            !Has(c.entries, e.id) || c.entries[Position(c.entries, e.id)].memoryMb == 0.0
  {
    var k := Position(c.entries, e.id);
    if k < |c.entries| {
      TotalUpdated(c.entries, k, e);
    } else {
      TotalOfConcat(c.entries, [e]);
    }
  }

  lemma OthersKeepAccount(c: Cache, id: string, now: real)
    requires Accounted(c)
    ensures Accounted(Touch(c, id, now)) && Accounted(Unload(c, id)) && Accounted(Evict(c))
  {
    UnloadAccounts(c, id);
    if c.entries != [] {
      UnloadAccounts(c, c.entries[Oldest(c.entries)].id);
    }
    var k := Position(c.entries, id);
    if k < |c.entries| {
      TotalUpdated(c.entries, k, Touch(c, id, now).entries[k]);
    }
  }

  lemma UnloadAccounts(c: Cache, id: string)
    requires Accounted(c)
    ensures Accounted(Unload(c, id))
  {
    var k := Position(c.entries, id);
    if k < |c.entries| {
      TotalWithout(c.entries, k);
    }
  }

  datatype Op =
    | Load(id: string, model: int, memoryMb: real, now: real)
    | Use(id: string, now: real)
    | Drop(id: string)
    | Request(memoryMb: real)

  /** Any operation but a second registration of a loaded id, and a request that never returns. */
  ghost predicate Permitted(c: Cache, op: Op, max: real) {
    match op
    case Load(id, _, _, _) => !Has(c.entries, id)
    case Request(memoryMb) => Ends(c, memoryMb, max)
    case _ => true
  }

  ghost function Next(c: Cache, op: Op, max: real): Cache
    requires Permitted(c, op, max)
  {
    match op
    case Load(id, model, memoryMb, now) => Register(c, Loaded(id, model, memoryMb, now, 0))
    case Use(id, now) => Touch(c, id, now)
    case Drop(id) => Unload(c, id)
    case Request(memoryMb) => Final(c, memoryMb, max)
  }

  ghost predicate Sound(c: Cache) { DistinctIds(c.entries) && Accounted(c) }

  lemma UnloadKeepsSound(c: Cache, id: string)
    requires Sound(c)
    ensures Sound(Unload(c, id)) && forall e :: e in Unload(c, id).entries ==> e in c.entries
  {
    UnloadAccounts(c, id);
    var k := Position(c.entries, id);
    if k < |c.entries| {
      WithoutKeepsDistinct(c.entries, k);
    }
  }

  lemma {:induction false} EvictManyKeepsSound(c: Cache, k: nat)
    requires Sound(c)
    ensures Sound(EvictMany(c, k)) && forall e :: e in EvictMany(c, k).entries ==> e in c.entries
    decreases k
  {
    if k == 0 {
    } else {
      if c.entries != [] {
        UnloadKeepsSound(c, c.entries[Oldest(c.entries)].id);
      }
      EvictManyKeepsSound(Evict(c), k - 1);
    }
  }

  lemma NextKeepsSound(c: Cache, op: Op, max: real)
    requires Sound(c) && Permitted(c, op, max)
    ensures Sound(Next(c, op, max))
  {
    match op
    case Load(id, model, memoryMb, now) => RegisterAccountsIff(c, Loaded(id, model, memoryMb, now, 0));
    case Use(id, now) => OthersKeepAccount(c, id, now);
    case Drop(id) => UnloadKeepsSound(c, id);
    case Request(memoryMb) => EvictManyKeepsSound(c, Evictions(c, memoryMb, max));
  }

  /** `states` is a run from the empty cache in which no loaded id is registered again. */
  ghost predicate Run(states: seq<Cache>, ops: seq<Op>, max: real) {
    && |states| == |ops| + 1 && states[0] == Cache([], 0.0)
    && forall i :: 0 <= i < |ops| ==> Permitted(states[i], ops[i], max) && states[i + 1] == Next(states[i], ops[i], max)
  }

  /** Over every such run the counter equals the sum over the loaded models. */
  lemma {:induction false} RunsAreAccounted(states: seq<Cache>, ops: seq<Op>, max: real, i: nat)
    requires Run(states, ops, max) && i <= |ops|
    ensures Sound(states[i])
  {
    if i == 0 {
    } else {
      RunsAreAccounted(states, ops, max, i - 1);
      NextKeepsSound(states[i - 1], ops[i - 1], max);
    }
  }

  // ---------- Eviction is minimal and least recently used ----------

  lemma {:induction false} FewerEvictionsDoNotDo(c: Cache, memoryMb: real, max: real, k: nat, j: nat)
    requires LeastEvictions(c, memoryMb, max, k) && j < k
    ensures EvictMany(c, j).memory + memoryMb > max && EvictMany(c, j).entries != []
    decreases k
  {
    if j == 0 {
    } else {
      FewerEvictionsDoNotDo(Evict(c), memoryMb, max, k - 1, j - 1);
    }
  }

  /** `some` is `all` without `gone`, and nothing in `all` was used earlier than `gone`. */
  ghost predicate OldestGone(all: seq<Loaded>, gone: Loaded, some: seq<Loaded>) {
    && gone in all
    && (forall e :: e in some <==> e in all && e != gone)
    && (forall e :: e in all ==> gone.lastUsed <= e.lastUsed)
  }

  lemma EvictKeepsDistinct(c: Cache)
    requires DistinctIds(c.entries)
    ensures DistinctIds(Evict(c).entries)
  {
    if c.entries != [] {
      PositionOf(c.entries, Oldest(c.entries));
      WithoutKeepsDistinct(c.entries, Oldest(c.entries));
    }
  }

  /** One eviction removes at most one model, and none was used earlier. */
  lemma OneEviction(c: Cache) returns (gone: Loaded)
    requires DistinctIds(c.entries) && Evict(c) != c
    ensures OldestGone(c.entries, gone, Evict(c).entries)
  {
    gone := c.entries[Oldest(c.entries)];
    PositionOf(c.entries, Oldest(c.entries));
    WithoutKeepsDistinct(c.entries, Oldest(c.entries));
  }

  ghost predicate OlderThanRest(all: seq<Loaded>, rest: seq<Loaded>) {
    && (forall e :: e in rest ==> e in all)
    && (forall gone, stays :: gone in all && gone !in rest && stays in rest ==> gone.lastUsed <= stays.lastUsed)
  }

  lemma OlderThanFewer(all: seq<Loaded>, gone: Loaded, some: seq<Loaded>, rest: seq<Loaded>)
    requires OldestGone(all, gone, some) && OlderThanRest(some, rest)
    ensures OlderThanRest(all, rest)
  {
  }

  lemma OlderBeforeEviction(c: Cache, rest: seq<Loaded>)
    requires DistinctIds(c.entries) && OlderThanRest(Evict(c).entries, rest)
    ensures OlderThanRest(c.entries, rest)
  {
    if Evict(c) != c {
      var gone := OneEviction(c);
      OlderThanFewer(c.entries, gone, Evict(c).entries, rest);
    }
  }

  /** Whatever is evicted was used no later than anything that stays, and what stays is untouched. */
  lemma {:induction false} EvictedIsOlder(c: Cache, k: nat)
    requires DistinctIds(c.entries)
    ensures OlderThanRest(c.entries, EvictMany(c, k).entries)
    decreases k
  {
    if k == 0 {
    } else {
      var rest := EvictMany(Evict(c), k - 1).entries;
      assert OlderThanRest(Evict(c).entries, rest) by {
        EvictKeepsDistinct(c);
        EvictedIsOlder(Evict(c), k - 1);
      }
      OlderBeforeEviction(c, rest);
    }
  }

  // ---------- Use, told from the operations alone ----------

  function Last(ops: seq<Op>): Op
    requires ops != []
  {
    ops[|ops| - 1]
  }

  function Front(ops: seq<Op>): seq<Op>
    requires ops != []
  {
    ops[..|ops| - 1]
  }

  /** When `id` was last loaded or used. */
  function LatestUse(ops: seq<Op>, id: string): Option<real> {
    if ops == [] then None
    else if (Last(ops).Load? || Last(ops).Use?) && Last(ops).id == id then Some(Last(ops).now)
    else LatestUse(Front(ops), id)
  }

  /** How often `id` was used since it was last loaded. */
  function UsesSinceLoad(ops: seq<Op>, id: string): nat {
    if ops == [] || (Last(ops).Load? && Last(ops).id == id) then 0
    else UsesSinceLoad(Front(ops), id) + if Last(ops).Use? && Last(ops).id == id then 1 else 0
  }

  /** The model and the size that `id` was last loaded with. */
  function LatestLoad(ops: seq<Op>, id: string): Option<(int, real)> {
    if ops == [] then None
    else if Last(ops).Load? && Last(ops).id == id then Some((Last(ops).model, Last(ops).memoryMb))
    else LatestLoad(Front(ops), id)
  }

  /** The entry is what the operations say. */
  predicate Recorded(ops: seq<Op>, e: Loaded) {
    && LatestUse(ops, e.id) == Some(e.lastUsed) && e.useCount == UsesSinceLoad(ops, e.id)
    && LatestLoad(ops, e.id) == Some((e.model, e.memoryMb))
  }

  ghost predicate AllRecorded(ops: seq<Op>, entries: seq<Loaded>) {
    forall e :: e in entries ==> Recorded(ops, e)
  }

  lemma OthersStayRecorded(ops: seq<Op>, op: Op, e: Loaded)
    requires Recorded(ops, e) && (op.Load? || op.Use? ==> op.id != e.id)
    ensures Recorded(ops + [op], e)
  {
    assert Front(ops + [op]) == ops && Last(ops + [op]) == op;
  }

  lemma LoadIsRecorded(c: Cache, ops: seq<Op>, op: Op, max: real)
    requires op.Load? && Permitted(c, op, max) && AllRecorded(ops, c.entries)
    ensures AllRecorded(ops + [op], Next(c, op, max).entries)
  {
    var loaded := Loaded(op.id, op.model, op.memoryMb, op.now, 0);
    assert Front(ops + [op]) == ops && Last(ops + [op]) == op;
    assert Next(c, op, max).entries == c.entries + [loaded];
    forall e | e in c.entries
      ensures Recorded(ops + [op], e)
    {
      OthersStayRecorded(ops, op, e);
    }
  }

  lemma UseIsRecorded(c: Cache, ops: seq<Op>, op: Op, max: real)
    requires op.Use? && DistinctIds(c.entries) && AllRecorded(ops, c.entries)
    ensures AllRecorded(ops + [op], Next(c, op, max).entries)
  {
    assert Front(ops + [op]) == ops && Last(ops + [op]) == op;
    var k := Position(c.entries, op.id);
    var entries := Next(c, op, max).entries;
    forall i | 0 <= i < |entries|
      ensures Recorded(ops + [op], entries[i])
    {
      assert c.entries[i] in c.entries;
      if i != k {
        assert c.entries[i].id != op.id;
        OthersStayRecorded(ops, op, c.entries[i]);
      }
    }
  }

  lemma NextIsRecorded(c: Cache, ops: seq<Op>, op: Op, max: real)
    requires Sound(c) && Permitted(c, op, max) && AllRecorded(ops, c.entries)
    ensures AllRecorded(ops + [op], Next(c, op, max).entries)
  {
    match op
    case Load(_, _, _, _) => LoadIsRecorded(c, ops, op, max);
    case Use(_, _) => UseIsRecorded(c, ops, op, max);
    case Drop(id) => UnloadKeepsSound(c, id);
    case Request(memoryMb) => EvictManyKeepsSound(c, Evictions(c, memoryMb, max));
    if op.Drop? || op.Request? {
      forall e | e in Next(c, op, max).entries
        ensures Recorded(ops + [op], e)
      {
        OthersStayRecorded(ops, op, e);
      }
    }
  }

  /** Over every run each loaded model has the model and size of its latest load, the time of its latest load or use,
  and the number of uses since. */
  lemma {:induction false} EntriesAreRecorded(states: seq<Cache>, ops: seq<Op>, max: real, i: nat)
    requires Run(states, ops, max) && i <= |ops|
    ensures AllRecorded(ops[..i], states[i].entries)
  {
    if i == 0 {
    } else {
      var m := i - 1;
      EntriesAreRecorded(states, ops, max, m);
      RunsAreAccounted(states, ops, max, m);
      NextIsRecorded(states[m], ops[..m], ops[m], max);
      assert ops[..m] + [ops[m]] == ops[..i];
    }
  }

  /** Over every run a request evicts only models whose latest load or use came no later than that of any model that
  stays. */
  lemma RunEvictsLeastRecent(states: seq<Cache>, ops: seq<Op>, max: real, i: nat, gone: Loaded, stays: Loaded)
    requires Run(states, ops, max) && i < |ops| && ops[i].Request?
    requires gone in states[i].entries && gone !in states[i + 1].entries && stays in states[i + 1].entries
    ensures var u, v := LatestUse(ops[..i], gone.id), LatestUse(ops[..i], stays.id);
            u.Some? && v.Some? && u.value <= v.value
  {
    var c := states[i];
    RunsAreAccounted(states, ops, max, i);
    EntriesAreRecorded(states, ops, max, i);
    EvictedIsOlder(c, Evictions(c, ops[i].memoryMb, max));
    assert stays in c.entries;
  }

  ghost predicate NonNegative(entries: seq<Loaded>) {
    forall e :: e in entries ==> e.memoryMb >= 0.0
  }

  lemma {:induction false} TotalNonNegative(entries: seq<Loaded>)
    requires NonNegative(entries)
    ensures Total(entries) >= 0.0
  {
    if entries == [] {
    } else {
      assert entries[0] in entries;
      TotalNonNegative(entries[1..]);
    }
  }

  lemma {:induction false} AfterLeast(c: Cache, memoryMb: real, max: real, k: nat)
    requires LeastEvictions(c, memoryMb, max, k)
    ensures EvictMany(c, k).memory + memoryMb <= max || EvictMany(c, k).entries == []
    decreases k
  {
    if k == 0 {
    } else {
      AfterLeast(Evict(c), memoryMb, max, k - 1);
    }
  }

  /** With the counter right and no negative size, `can_load`, wherever it ends, answers true exactly when the
  request on its own fits the maximum. */
  lemma CanLoadIff(c: Cache, memoryMb: real, max: real)
    requires Sound(c) && NonNegative(c.entries) && Ends(c, memoryMb, max)
    ensures Final(c, memoryMb, max).memory + memoryMb <= max <==> memoryMb <= max
  {
    var k := Evictions(c, memoryMb, max);
    EvictManyKeepsSound(c, k);
    TotalNonNegative(EvictMany(c, k).entries);
    AfterLeast(c, memoryMb, max, k);
  }

  // ---------- When the loop ends in spite of an empty id ----------

  /** If the least recently used model has the empty id, eviction changes nothing. */
  lemma {:induction false} EmptyIdIsNeverEvicted(c: Cache, k: nat)
    requires c.entries != [] && c.entries[Oldest(c.entries)].id == ""
    ensures EvictMany(c, k) == c
    decreases k
  {
    if k == 0 {
    } else {
      EmptyIdIsNeverEvicted(c, k - 1);
    }
  }

  /** The memory of all models used after time `t`, and of those used at `t` from position `z` on. */
  function Held(entries: seq<Loaded>, t: real, z: int): real {
    if entries == [] then 0.0
    else
      var e := entries[0];
      (if e.lastUsed > t || (e.lastUsed == t && z <= 0) then e.memoryMb else 0.0) + Held(entries[1..], t, z - 1)
  }

  lemma {:induction false} HeldOfConcat(a: seq<Loaded>, b: seq<Loaded>, t: real, z: int)
    ensures Held(a + b, t, z) == Held(a, t, z) + Held(b, t, z - |a|)
  {
    if a == [] {
      assert a + b == b;
    } else {
      HeldOfConcat(a[1..], b, t, z - 1);
      assert (a + b)[1..] == a[1..] + b;
    }
  }

  /** From the end on, `z` no longer matters. */
  lemma {:induction false} HeldFrom(entries: seq<Loaded>, t: real, z: int, z': int)
    requires z <= 0 && z' <= 0
    ensures Held(entries, t, z) == Held(entries, t, z')
  {
    if entries == [] {
    } else {
      HeldFrom(entries[1..], t, z - 1, z' - 1);
    }
  }

  /** Before a later position, `z` no longer matters. */
  lemma {:induction false} HeldBefore(entries: seq<Loaded>, t: real, z: int, z': int)
    requires z >= |entries| && z' >= |entries|
    ensures Held(entries, t, z) == Held(entries, t, z')
  {
    if entries == [] {
    } else {
      HeldBefore(entries[1..], t, z - 1, z' - 1);
    }
  }

  lemma {:induction false} HeldAtMostTotal(entries: seq<Loaded>, t: real, z: int)
    requires NonNegative(entries)
    ensures Held(entries, t, z) <= Total(entries)
  {
    if entries == [] {
    } else {
      assert entries[0] in entries;
      HeldAtMostTotal(entries[1..], t, z - 1);
    }
  }

  /** Of a list whose oldest entry is at `z`, all memory is held. */
  lemma {:induction false} AllHeld(entries: seq<Loaded>, t: real, z: int)
    requires forall i :: 0 <= i < |entries| ==>
               entries[i].lastUsed > t || (entries[i].lastUsed == t && z <= i)
    ensures Held(entries, t, z) == Total(entries)
  {
    if entries == [] {
    } else {
      assert forall i :: 0 < i < |entries| ==> entries[i] == entries[1..][i - 1];
      AllHeld(entries[1..], t, z - 1);
    }
  }

  /** Where an entry ends up when another one is taken out. */
  function Shifted(z: nat, o: nat): int { if o < z then z - 1 else z }

  /** An entry that is not held itself can be left out. */
  lemma HeldSkips(a: seq<Loaded>, e: Loaded, b: seq<Loaded>, t: real, z: int)
    requires z != |a| && e.lastUsed <= t && (e.lastUsed == t ==> |a| < z)
    ensures Held(a + b, t, if |a| < z then z - 1 else z) == Held(a + ([e] + b), t, z)
  {
    HeldOfConcat(a, [e] + b, t, z);
    assert ([e] + b)[1..] == b;
    assert Held([e] + b, t, z - |a|) == Held(b, t, z - |a| - 1);
    if |a| < z {
      HeldOfConcat(a, b, t, z - 1);
      HeldBefore(a, t, z, z - 1);
    } else {
      HeldOfConcat(a, b, t, z);
      HeldFrom(b, t, z - |a| - 1, z - |a|);
    }
  }

  lemma OldestGoesBefore(entries: seq<Loaded>, z: nat, o: nat)
    requires z < |entries| && o != z && IsOldest(entries, o)
    ensures entries[o].lastUsed <= entries[z].lastUsed && (entries[o].lastUsed == entries[z].lastUsed ==> o < z)
  {
  }

  lemma SplitAround(entries: seq<Loaded>, o: nat)
    requires o < |entries|
    ensures entries == entries[..o] + ([entries[o]] + entries[o + 1..]) && |entries[..o]| == o
  {
  }

  /** Taking out an entry that is evicted before `z` changes nothing in what is held. */
  lemma HeldWithout(entries: seq<Loaded>, z: nat, o: nat, t: real)
    requires z < |entries| && o < |entries| && o != z
    requires entries[o].lastUsed <= t && (entries[o].lastUsed == t ==> o < z)
    ensures Held(Without(entries, o), t, Shifted(z, o)) == Held(entries, t, z)
  {
    SplitAround(entries, o);
    HeldSkips(entries[..o], entries[o], entries[o + 1..], t, z);
  }

  /** One eviction takes out the oldest entry `o`; the one with the empty id stays. */
  lemma EvictAround(c: Cache, z: nat, o: nat)
    requires DistinctIds(c.entries) && Accounted(c) && NonNegative(c.entries)
    requires z < |c.entries| && c.entries[z].id == "" && o == Oldest(c.entries) && o != z
    ensures var d := Evict(c);
            && DistinctIds(d.entries) && Accounted(d) && NonNegative(d.entries) && |d.entries| == |c.entries| - 1
            && 0 <= Shifted(z, o) < |d.entries| && d.entries[Shifted(z, o)] == c.entries[z]
            && d.entries == Without(c.entries, o)
  {
    PositionOf(c.entries, o);
    WithoutKeepsDistinct(c.entries, o);
    TotalWithout(c.entries, o);
    assert c.entries[o].id != "" by {
      assert c.entries[z].id == "";
    }
  }

  lemma {:induction false} StuckNeverEnds(c: Cache, memoryMb: real, max: real, k: nat)
    requires c.entries != [] && Evict(c) == c && c.memory + memoryMb > max
    ensures !LeastEvictions(c, memoryMb, max, k)
    decreases k
  {
    if k == 0 {
    } else {
      StuckNeverEnds(c, memoryMb, max, k - 1);
    }
  }

  lemma EndsAfterOne(c: Cache, memoryMb: real, max: real)
    requires c.entries != [] && c.memory + memoryMb > max
    ensures Ends(c, memoryMb, max) <==> Ends(Evict(c), memoryMb, max)
  {
    if Ends(c, memoryMb, max) {
      var k: nat :| LeastEvictions(c, memoryMb, max, k);
      assert LeastEvictions(Evict(c), memoryMb, max, k - 1);
    }
    if Ends(Evict(c), memoryMb, max) {
      var k: nat :| LeastEvictions(Evict(c), memoryMb, max, k);
      assert LeastEvictions(c, memoryMb, max, k + 1);
    }
  }

  /** With a model whose id is empty the loop of `can_load` ends exactly when the request fits beside that model
  and all that would be evicted after it; otherwise it goes on for ever. */
  lemma {:induction false} EndsIff(c: Cache, memoryMb: real, max: real, z: nat)
    requires DistinctIds(c.entries) && Accounted(c) && NonNegative(c.entries)
    requires z < |c.entries| && c.entries[z].id == ""
    ensures Ends(c, memoryMb, max) <==> Held(c.entries, c.entries[z].lastUsed, z) + memoryMb <= max
    decreases |c.entries|
  {
    var t, o := c.entries[z].lastUsed, Oldest(c.entries);
    if c.memory + memoryMb <= max {
      assert LeastEvictions(c, memoryMb, max, 0);
      HeldAtMostTotal(c.entries, t, z);
    } else if o == z {
      AllHeld(c.entries, t, z);
      forall k: nat
        ensures !LeastEvictions(c, memoryMb, max, k)
      {
        StuckNeverEnds(c, memoryMb, max, k);
      }
    } else {
      EvictAround(c, z, o);
      OldestGoesBefore(c.entries, z, o);
      HeldWithout(c.entries, z, o, t);
      EndsIff(Evict(c), memoryMb, max, Shifted(z, o));
      EndsAfterOne(c, memoryMb, max);
    }
  }
}
