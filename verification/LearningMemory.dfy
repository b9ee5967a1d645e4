/** The learning memory of backend/ai/onnx_control_plane.py: feedback, forgetting, export, import and the
preview of an import.

Fields of an imported item are given by their JSON values as far as the source looks at them. A text field
that is missing, null or empty is `None`; a number field is missing, given, or something `float`/`int` cannot
read. Rounding to four places is half to even on exact reals. */
module LearningMemory {
  import opened Text

  datatype Override = Override(
    category: string,
    priority: string,
    confidence: real,
    predicted: string,
    scope: string,
    hits: int,
    updatedAt: real)

  datatype Correction = Correction(
    key: string,
    action: string,
    predicted: string,
    actual: string,
    priority: string,
    at: real)

  datatype Stats = Stats(corrected: int, forgotten: int, imported: int)

  datatype Memory = Memory(overrides: map<string, Override>, corrections: seq<Correction>, stats: Stats)

  const EMPTY: Memory := Memory(map[], [], Stats(0, 0, 0))

  datatype Number<T> = Missing | Given(value: T) | Unreadable

  datatype RawItem =
    | NotAnObject
    | Object(category: Option<string>, priority: Option<string>, confidence: Number<real>,
             predicted: Option<string>, scope: Option<string>, hits: Number<int>, updatedAt: Number<real>)

  /** One entry of the incoming `overrides` dictionary. */
  datatype Incoming = Incoming(rawKey: string, item: RawItem)

  // ---------- Fields and their defaults ----------

  /** `str(value or default).strip()`. */
  function TextOr(value: Option<string>, default: string): string {
    if value.Some? && value.value != "" then Strip(value.value) else Strip(default)
  }

  function DefaultPriority(category: string): string { if category == "Scam" then "Critical" else "Medium" }

  /** `float(value or default)` where the value can be read. */
  function RealOr(n: Number<real>, default: real): real {
    if n.Given? && n.value != 0.0 then n.value else default
  }

  function IntOr(n: Number<int>): int { if n.Given? then n.value else 0 }

  function Prefix(key: string): string { Split(key, ':')[0] }

  const DEFAULT_CONFIDENCE: real := 0.97

  // ---------- Import ----------

  /** The items that are neither skipped by the import nor reported as invalid by the preview. */
  predicate Usable(i: Incoming) {
    var key := Strip(i.rawKey);
    key != "" && ':' in key && i.item.Object? && TextOr(i.item.category, "") != ""
  }

  /** No number of the item makes `float` or `int` raise. */
  predicate Readable(i: Incoming) {
    i.item.Object? ==> !i.item.confidence.Unreadable? && !i.item.hits.Unreadable? && !i.item.updatedAt.Unreadable?
  }

  function Converted(i: Incoming, now: real): Override
    requires Usable(i)
  {
    var category := TextOr(i.item.category, "");
    Override(category,
             TextOr(i.item.priority, DefaultPriority(category)),
             RealOr(i.item.confidence, DEFAULT_CONFIDENCE),
             TextOr(i.item.predicted, ""),
             TextOr(i.item.scope, Prefix(Strip(i.rawKey))),
             IntOr(i.item.hits),
             RealOr(i.item.updatedAt, now))
  }

  function Imported(i: Incoming, now: real): Correction
    requires Usable(i)
  {
    var o := Converted(i, now);
    Correction(Strip(i.rawKey), "imported", o.predicted, o.category, o.priority, now)
  }

  /** The import loop: the overrides and corrections so far and the two counters. */
  datatype Progress = Progress(overrides: map<string, Override>, corrections: seq<Correction>, imported: nat,
                               skipped: nat, raised: bool)

  function Advance(p: Progress, i: Incoming, now: real): Progress {
    if !Usable(i) then p.(skipped := p.skipped + 1)
    else if !Readable(i) then p.(raised := true)
    else p.(overrides := p.overrides[Strip(i.rawKey) := Converted(i, now)],
            corrections := p.corrections + [Imported(i, now)],
            imported := p.imported + 1)
  }

  function AdvanceAll(p: Progress, items: seq<Incoming>, now: real): Progress
    decreases |items|
  {
    if items == [] || p.raised then p else AdvanceAll(Advance(p, items[0], now), items[1..], now)
  }

  function Recent(corrections: seq<Correction>): seq<Correction> {
    if |corrections| <= 500 then corrections else corrections[|corrections| - 500..]
  }

  function StartImport(m: Memory, replace: bool): Progress {
    Progress(if replace then map[] else m.overrides, m.corrections, 0, 0, false)
  }

  /** `import_learning_memory`. When a number cannot be read the call raises half-way: what it changed in place
  stays changed. */
  function Import(m: Memory, items: seq<Incoming>, replace: bool, now: real): (Memory, Progress) {
    var p := AdvanceAll(StartImport(m, replace), items, now);
    if p.raised then
      (m.(overrides := if replace then m.overrides else p.overrides, corrections := p.corrections), p)
    else
      (Memory(p.overrides, Recent(p.corrections), m.stats.(imported := m.stats.imported + p.imported)), p)
  }

  /** The loop of `import_learning_memory`. */
  method RunImport(m: Memory, items: seq<Incoming>, replace: bool, now: real) returns (p: Progress)
    ensures p == AdvanceAll(StartImport(m, replace), items, now)
  {
    p := StartImport(m, replace);
    for n := 0 to |items|
      invariant AdvanceAll(p, items[n..], now) == AdvanceAll(StartImport(m, replace), items, now)
      invariant !p.raised
    {
      assert items[n..][0] == items[n] && items[n..][1..] == items[n + 1..];
      if !Usable(items[n]) {
        p := p.(skipped := p.skipped + 1);
      } else if !Readable(items[n]) {
        return p.(raised := true);
      } else {
        p := p.(overrides := p.overrides[Strip(items[n].rawKey) := Converted(items[n], now)],
                corrections := p.corrections + [Imported(items[n], now)],
                imported := p.imported + 1);
      }
    }
  }

  // ---------- Preview ----------

  /** The nearest integer, the even one of two. */
  function HalfEven(y: real): int {
    var low := y.Floor;
    var d := y - low as real;
    if d < 0.5 || (d == 0.5 && low % 2 == 0) then low else low + 1
  }

  function Round4(x: real): real { HalfEven(x * 10000.0) as real / 10000.0 }

  /** The fields that decide whether two overrides conflict. */
  datatype CompareView = CompareView(category: string, priority: string, scope: string, predicted: string,
                                     confidence: real)

  function View(o: Override): CompareView {
    var category := Strip(o.category);
    CompareView(category,
                TextOr(Some(o.priority), DefaultPriority(category)),
                TextOr(Some(o.scope), "sender"),
                Strip(o.predicted),
                Round4(if o.confidence != 0.0 then o.confidence else DEFAULT_CONFIDENCE))
  }

  /** What the preview compares: unreadable numbers fall back to their defaults, and no time is set. */
  function Normalized(i: Incoming): Override
    requires Usable(i)
  {
    Converted(i, 0.0)
  }

  datatype Class = Invalid | New | Conflicting | Unchanged

  function Classify(overrides: map<string, Override>, i: Incoming): Class {
    var key := Strip(i.rawKey);
    if !Usable(i) then Invalid
    else if key !in overrides then New
    else if View(overrides[key]) != View(Normalized(i)) then Conflicting
    else Unchanged
  }

  datatype Preview = Preview(conflicting: seq<string>, added: seq<string>, same: seq<string>,
                             invalid: seq<string>, removed: set<string>)

  function KeyIf(overrides: map<string, Override>, i: Incoming, c: Class): seq<string> {
    if Classify(overrides, i) == c then [Strip(i.rawKey)] else []
  }

  function Gather(keys: Incoming -> seq<string>, items: seq<Incoming>): seq<string> {
    if items == [] then [] else keys(items[0]) + Gather(keys, items[1..])
  }

  lemma {:induction false} GatherAppend(keys: Incoming -> seq<string>, items: seq<Incoming>, i: Incoming)
    ensures Gather(keys, items + [i]) == Gather(keys, items) + keys(i)
    decreases |items|
  {
    if items == [] {
      assert items + [i] == [i];
    } else {
      GatherAppend(keys, items[1..], i);
      assert (items + [i])[1..] == items[1..] + [i];
    }
  }

  /** The keys, in order, of the items of one class. */
  function KeysOf(overrides: map<string, Override>, items: seq<Incoming>, c: Class): seq<string> {
    Gather(i => KeyIf(overrides, i, c), items)
  }

  function IncomingKeys(items: seq<Incoming>): set<string> {
    set i | 0 <= i < |items| && Usable(items[i]) :: Strip(items[i].rawKey)
  }

  /** The status of a preview is "review_required" and not "ready". */
  predicate ReviewRequired(p: Preview) { p.conflicting != [] || p.removed != {} }

  function PreviewOf(m: Memory, items: seq<Incoming>, replace: bool): Preview {
    Preview(KeysOf(m.overrides, items, Conflicting), KeysOf(m.overrides, items, New),
            KeysOf(m.overrides, items, Unchanged), KeysOf(m.overrides, items, Invalid),
            if replace then m.overrides.Keys - IncomingKeys(items) else {})
  }

  lemma KeysOfAppend(overrides: map<string, Override>, items: seq<Incoming>, i: Incoming, c: Class)
    ensures KeysOf(overrides, items + [i], c) == KeysOf(overrides, items, c) + KeyIf(overrides, i, c)
  {
    GatherAppend(i => KeyIf(overrides, i, c), items, i);
  }

  /** The lists that the preview has collected from `items`. */
  ghost predicate Collected(p: Preview, overrides: map<string, Override>, items: seq<Incoming>) {
    && p.conflicting == KeysOf(overrides, items, Conflicting) && p.added == KeysOf(overrides, items, New)
    && p.same == KeysOf(overrides, items, Unchanged) && p.invalid == KeysOf(overrides, items, Invalid)
  }

  /** One round of the loop of `preview_learning_import`. */
  function Sort(p: Preview, overrides: map<string, Override>, i: Incoming): Preview {
    var key := Strip(i.rawKey);
    match Classify(overrides, i)
    case Invalid => p.(invalid := p.invalid + [key])
    case New => p.(added := p.added + [key])
    case Conflicting => p.(conflicting := p.conflicting + [key])
    case Unchanged => p.(same := p.same + [key])
  }

  lemma CollectOne(p: Preview, overrides: map<string, Override>, items: seq<Incoming>, i: Incoming)
    requires Collected(p, overrides, items)
    ensures Collected(Sort(p, overrides, i), overrides, items + [i])
  {
    KeysOfAppend(overrides, items, i, Conflicting);
    KeysOfAppend(overrides, items, i, New);
    KeysOfAppend(overrides, items, i, Unchanged);
    KeysOfAppend(overrides, items, i, Invalid);
  }

  lemma IncomingKeysGrow(items: seq<Incoming>, n: nat)
    requires n < |items|
    ensures IncomingKeys(items[..n + 1]) ==
            IncomingKeys(items[..n]) + if Usable(items[n]) then {Strip(items[n].rawKey)} else {}
  {
    assert forall i :: 0 <= i < n ==> items[..n + 1][i] == items[..n][i];
  }

  method BuildPreview(m: Memory, items: seq<Incoming>, replace: bool) returns (p: Preview)
    ensures p == PreviewOf(m, items, replace)
  {
    p := Preview([], [], [], [], {});
    var incomingKeys: set<string> := {};
    for n := 0 to |items|
      invariant Collected(p, m.overrides, items[..n]) && p.removed == {}
      invariant incomingKeys == IncomingKeys(items[..n])
    {
      assert items[..n + 1] == items[..n] + [items[n]];
      CollectOne(p, m.overrides, items[..n], items[n]);
      IncomingKeysGrow(items, n);
      p := Sort(p, m.overrides, items[n]);
      if Usable(items[n]) {
        incomingKeys := incomingKeys + {Strip(items[n].rawKey)};
      }
    }
    assert items[..|items|] == items;
    if replace {
      p := p.(removed := m.overrides.Keys - incomingKeys);
    }
  }

  /** Into which list of the preview a key goes: an item that cannot be used is invalid, a key that is not there is new,
  and one that is there conflicts exactly if it looks different. */
  lemma PreviewSorts(m: Memory, items: seq<Incoming>, replace: bool, key: string)
    ensures var v := PreviewOf(m, items, replace);
            && (key in v.invalid <==> exists i :: i in items && Strip(i.rawKey) == key && !Usable(i))
            && (key in v.added <==>
                  key !in m.overrides && exists i :: i in items && Strip(i.rawKey) == key && Usable(i))
            && (key in v.conflicting <==>
                  key in m.overrides &&
                  exists i :: i in items && Strip(i.rawKey) == key && Usable(i) &&
                              View(Normalized(i)) != View(m.overrides[key]))
            && (key in v.same <==>
                  key in m.overrides &&
                  exists i :: i in items && Strip(i.rawKey) == key && Usable(i) &&
                              View(Normalized(i)) == View(m.overrides[key]))
            && (key in v.removed <==> replace && key in m.overrides && key !in IncomingKeys(items))
  {
    KeysOfMembers(m.overrides, items, Invalid, key);
    KeysOfMembers(m.overrides, items, New, key);
    KeysOfMembers(m.overrides, items, Conflicting, key);
    KeysOfMembers(m.overrides, items, Unchanged, key);
  }

  lemma HalfEvenIsNearest(y: real)
    ensures HalfEven(y) as real - 0.5 <= y <= HalfEven(y) as real + 0.5
  {
    var low := y.Floor;
    assert low as real <= y < low as real + 1.0;
    assert (low + 1) as real == low as real + 1.0;
  }

  /** Rounding to four places gives the nearest multiple of 0.0001, of two the even one. */
  lemma RoundsToNearest(x: real) returns (n: int)
    ensures Round4(x) == n as real / 10000.0
    ensures Round4(x) - 0.00005 <= x <= Round4(x) + 0.00005
    ensures x == Round4(x) - 0.00005 || x == Round4(x) + 0.00005 ==> n % 2 == 0
  {
    n := HalfEven(x * 10000.0);
    HalfEvenIsNearest(x * 10000.0);
  }

  /** The priority and the scope that count where an override has blank ones. */
  function PriorityShown(o: Override): string {
    if o.priority != "" then o.priority else if o.category == "Scam" then "Critical" else "Medium"
  }

  function ScopeShown(o: Override): string { if o.scope != "" then o.scope else "sender" }

  /** Two storable overrides look the same exactly if category, priority, scope and prediction are the same and the
  confidences round to the same four places; hits and time do not matter. */
  lemma LooksTheSameIff(key: string, o: Override, key': string, o': Override)
    requires Storable(key, o) && Storable(key', o')
    ensures View(o) == View(o') <==>
            o.category == o'.category && PriorityShown(o) == PriorityShown(o') && ScopeShown(o) == ScopeShown(o') &&
            o.predicted == o'.predicted && Round4(o.confidence) == Round4(o'.confidence)
  {
    StripTrims("Critical");
    StripTrims("Medium");
    StripTrims("sender");
    StripTrims(o.category);
    StripTrims(o'.category);
    StripTrims(o.predicted);
    StripTrims(o'.predicted);
    StripTrims(o.priority);
    StripTrims(o'.priority);
    StripTrims(o.scope);
    StripTrims(o'.scope);
  }

  // ---------- The preview predicts the import ----------

  /** Every usable item can be read. */
  predicate WellTyped(items: seq<Incoming>) {
    forall i :: i in items && Usable(i) ==> Readable(i)
  }

  /** What the import does to the overrides, given only which keys the usable items carry last. */
  lemma {:induction false} AdvanceAllOutcome(p: Progress, items: seq<Incoming>, now: real)
    requires WellTyped(items) && !p.raised
    ensures var q := AdvanceAll(p, items, now);
            && !q.raised
            && q.overrides.Keys == p.overrides.Keys + IncomingKeys(items)
            && (forall key :: key in p.overrides && key !in IncomingKeys(items) ==>
                  q.overrides[key] == p.overrides[key])
    decreases |items|
  {
    if items == [] {
    } else {
      var i, rest := items[0], items[1..];
      assert i in items;
      AdvanceAllOutcome(Advance(p, i, now), rest, now);
      IncomingKeysSplit(items);
    }
  }

  lemma IncomingKeysSplit(items: seq<Incoming>)
    requires items != []
    ensures IncomingKeys(items) ==
            (if Usable(items[0]) then {Strip(items[0].rawKey)} else {}) + IncomingKeys(items[1..])
  {
    assert forall i :: 0 < i < |items| ==> items[i] == items[1..][i - 1];
  }

  /** `o` was converted from a usable item with this key. */
  ghost predicate ComesFrom(items: seq<Incoming>, key: string, o: Override, now: real) {
    exists i :: i in items && Usable(i) && Strip(i.rawKey) == key && o == Converted(i, now)
  }

  lemma ComesFromOne(items: seq<Incoming>, i: Incoming, now: real)
    requires i in items && Usable(i)
    ensures ComesFrom(items, Strip(i.rawKey), Converted(i, now), now)
  {
  }

  lemma ComesFromMore(items: seq<Incoming>, key: string, o: Override, now: real)
    requires items != [] && ComesFrom(items[1..], key, o, now)
    ensures ComesFrom(items, key, o, now)
  {
    var i :| i in items[1..] && Usable(i) && Strip(i.rawKey) == key && o == Converted(i, now);
    assert i in items;
  }

  /** The value under an incoming key comes from one of the items with that key. */
  lemma {:induction false} AdvanceAllValue(p: Progress, items: seq<Incoming>, now: real, key: string)
    requires WellTyped(items) && !p.raised && key in IncomingKeys(items)
    ensures key in AdvanceAll(p, items, now).overrides
    ensures ComesFrom(items, key, AdvanceAll(p, items, now).overrides[key], now)
    decreases |items|
  {
    if items == [] {
    } else {
      var i, rest := items[0], items[1..];
      var q := Advance(p, i, now);
      assert i in items;
      AdvanceAllOutcome(q, rest, now);
      IncomingKeysSplit(items);
      if key in IncomingKeys(rest) {
        AdvanceAllValue(q, rest, now, key);
        ComesFromMore(items, key, AdvanceAll(q, rest, now).overrides[key], now);
      } else {
        ComesFromOne(items, i, now);
      }
    }
  }

  lemma {:induction false} AdvanceAllCounts(p: Progress, items: seq<Incoming>, now: real, overrides: map<string,
                                            Override>)
    requires WellTyped(items) && !p.raised
    ensures var q := AdvanceAll(p, items, now);
            && q.imported == p.imported + |KeysOf(overrides, items, New)| + |KeysOf(overrides, items, Conflicting)|
                             + |KeysOf(overrides, items, Unchanged)|
            && q.skipped == p.skipped + |KeysOf(overrides, items, Invalid)|
    decreases |items|
  {
    if items == [] {
    } else {
      assert items[0] in items;
      AdvanceAllCounts(Advance(p, items[0], now), items[1..], now, overrides);
    }
  }

  /** The import goes through exactly when every usable item can be read; the preview never raises. */
  lemma {:induction false} ImportRaisesIff(p: Progress, items: seq<Incoming>, now: real)
    requires !p.raised
    ensures AdvanceAll(p, items, now).raised <==> !WellTyped(items)
    decreases |items|
  {
    if items == [] {
    } else {
      var i, rest := items[0], items[1..];
      assert forall j :: j in items <==> j == i || j in rest;
      if !Usable(i) || Readable(i) {
        ImportRaisesIff(Advance(p, i, now), rest, now);
      }
    }
  }

  lemma {:induction false} AdvanceInParts(p: Progress, a: seq<Incoming>, b: seq<Incoming>, now: real)
    ensures AdvanceAll(p, a + b, now) == AdvanceAll(AdvanceAll(p, a, now), b, now)
    decreases |a|
  {
    if a == [] {
      assert a + b == b;
    } else if !p.raised {
      assert (a + b)[0] == a[0] && (a + b)[1..] == a[1..] + b;
      AdvanceInParts(Advance(p, a[0], now), a[1..], b, now);
    }
  }

  lemma {:induction false} AdvanceAddsCorrections(p: Progress, items: seq<Incoming>, now: real)
    ensures var q := AdvanceAll(p, items, now);
            |q.corrections| - |p.corrections| == q.imported - p.imported
    decreases |items|
  {
    if items == [] {
    } else if !p.raised {
      AdvanceAddsCorrections(Advance(p, items[0], now), items[1..], now);
    }
  }

  /** An import that raises at item `k` leaves the overrides an import of the items before it would leave, or the old
  ones if it was to replace them; the corrections of those items are added and nothing is cut or counted. */
  lemma RaisedImportIsPartial(m: Memory, items: seq<Incoming>, k: nat, replace: bool, now: real)
    requires k < |items| && WellTyped(items[..k]) && Usable(items[k]) && !Readable(items[k])
    ensures var (after, p) := Import(m, items, replace, now);
            var (before, q) := Import(m, items[..k], replace, now);
            && p.raised && !q.raised
            && after.overrides == (if replace then m.overrides else before.overrides)
            && Recent(after.corrections) == before.corrections
            && |after.corrections| == |m.corrections| + q.imported
            && after.stats == m.stats
  {
    var start := StartImport(m, replace);
    assert items == items[..k] + items[k..] && items[k..][0] == items[k];
    AdvanceInParts(start, items[..k], items[k..], now);
    AdvanceAllOutcome(start, items[..k], now);
    AdvanceAddsCorrections(start, items[..k], now);
    var q := AdvanceAll(start, items[..k], now);
    assert AdvanceAll(q, items[k..], now) == q.(raised := true);
  }

  /** Counters and dropped keys of an import are the ones its preview announced. */
  lemma PreviewPredictsImport(m: Memory, items: seq<Incoming>, replace: bool, now: real)
    requires WellTyped(items)
    ensures var v := PreviewOf(m, items, replace);
            var (after, p) := Import(m, items, replace, now);
            && !p.raised
            && p.imported == |v.added| + |v.conflicting| + |v.same|
            && p.skipped == |v.invalid|
            && m.overrides.Keys - after.overrides.Keys == v.removed
            && after.overrides.Keys == (m.overrides.Keys - v.removed) + IncomingKeys(items)
  {
    AdvanceAllOutcome(StartImport(m, replace), items, now);
    AdvanceAllCounts(StartImport(m, replace), items, now, m.overrides);
  }

  lemma {:induction false} KeysOfMembers(overrides: map<string, Override>, items: seq<Incoming>, c: Class, key: string)
    ensures key in KeysOf(overrides, items, c) <==>
            exists i :: i in items && Classify(overrides, i) == c && Strip(i.rawKey) == key
  {
    if items == [] {
    } else {
      KeysOfMembers(overrides, items[1..], c, key);
      assert forall j :: j in items <==> j == items[0] || j in items[1..];
    }
  }

  lemma ViewIgnoresTime(i: Incoming, now: real)
    requires Usable(i)
    ensures View(Converted(i, now)) == View(Normalized(i))
  {
    assert Converted(i, now) == Normalized(i).(updatedAt := Converted(i, now).updatedAt);
  }

  lemma ClassOfKey(overrides: map<string, Override>, i: Incoming)
    requires Usable(i) && Strip(i.rawKey) in overrides
    ensures Classify(overrides, i) == Conflicting || Classify(overrides, i) == Unchanged
    ensures Classify(overrides, i) == Unchanged ==> View(overrides[Strip(i.rawKey)]) == View(Normalized(i))
  {
  }

  lemma UnchangedIsIncoming(m: Memory, items: seq<Incoming>, key: string)
    requires key in KeysOf(m.overrides, items, Unchanged)
    ensures key in m.overrides && key in IncomingKeys(items)
  {
    KeysOfMembers(m.overrides, items, Unchanged, key);
    var i :| i in items && Classify(m.overrides, i) == Unchanged && Strip(i.rawKey) == key;
    var n :| 0 <= n < |items| && items[n] == i;
    assert Usable(items[n]);
  }

  /** A key reported as unchanged, and not also as conflicting, keeps what the preview compared. */
  lemma UnchangedKeysKeepTheirView(m: Memory, items: seq<Incoming>, replace: bool, now: real, key: string)
    requires WellTyped(items)
    requires var v := PreviewOf(m, items, replace); key in v.same && key !in v.conflicting
    ensures key in m.overrides && key in Import(m, items, replace, now).0.overrides
    ensures View(Import(m, items, replace, now).0.overrides[key]) == View(m.overrides[key])
  {
    UnchangedIsIncoming(m, items, key);
    AdvanceAllOutcome(StartImport(m, replace), items, now);
    AdvanceAllValue(StartImport(m, replace), items, now, key);
    var o := Import(m, items, replace, now).0.overrides[key];
    assert ComesFrom(items, key, o, now);
    SourceIsUnchanged(m, items, key, o, now);
  }

  lemma SourceIsUnchanged(m: Memory, items: seq<Incoming>, key: string, o: Override, now: real)
    requires key in m.overrides && key !in KeysOf(m.overrides, items, Conflicting) && ComesFrom(items, key, o, now)
    ensures View(o) == View(m.overrides[key])
  {
    var i :| i in items && Usable(i) && Strip(i.rawKey) == key && o == Converted(i, now);
    KeysOfMembers(m.overrides, items, Conflicting, key);
    ClassOfKey(m.overrides, i);
    ViewIgnoresTime(i, now);
  }

  lemma ReadyKeyIsUnchanged(m: Memory, items: seq<Incoming>, replace: bool, key: string)
    requires !ReviewRequired(PreviewOf(m, items, replace)) && key in m.overrides && key in IncomingKeys(items)
    ensures key in PreviewOf(m, items, replace).same
  {
    var n :| 0 <= n < |items| && Usable(items[n]) && Strip(items[n].rawKey) == key;
    ClassOfKey(m.overrides, items[n]);
    assert items[n] in items;
    KeysOfMembers(m.overrides, items, Conflicting, key);
    KeysOfMembers(m.overrides, items, Unchanged, key);
  }

  /** After a preview that says "ready" the import only adds keys: every override keeps what the preview compares,
  and those that are not in the import stay as they are. */
  lemma ReadyImportOnlyAdds(m: Memory, items: seq<Incoming>, replace: bool, now: real, key: string)
    requires WellTyped(items) && !ReviewRequired(PreviewOf(m, items, replace)) && key in m.overrides
    ensures var after := Import(m, items, replace, now).0.overrides;
            && key in after && View(after[key]) == View(m.overrides[key])
            && (key !in IncomingKeys(items) ==> after[key] == m.overrides[key])
  {
    if key in IncomingKeys(items) {
      ReadyKeyIsUnchanged(m, items, replace, key);
      UnchangedKeysKeepTheirView(m, items, replace, now, key);
    } else {
      AdvanceAllOutcome(StartImport(m, replace), items, now);
      assert replace ==> key in PreviewOf(m, items, replace).removed;
    }
  }

  // ---------- Export and import again ----------

  /** An override as it appears in an export. */
  function Exported(key: string, o: Override): Incoming {
    Incoming(key, Object(Some(o.category), Some(o.priority), Given(o.confidence), Some(o.predicted), Some(o.scope),
                         Given(o.hits), Given(o.updatedAt)))
  }

  /** `items` is the exported dictionary, in whatever order. */
  ghost predicate IsExport(items: seq<Incoming>, overrides: map<string, Override>) {
    && (forall i :: i in items ==> i.rawKey in overrides && i == Exported(i.rawKey, overrides[i.rawKey]))
    && (forall key :: key in overrides ==> Exported(key, overrides[key]) in items)
  }

  /** What can be seen of an override before exporting it: its texts are trimmed, nothing is empty but the
  prediction, and no number is the zero that an import takes for a missing one. */
  predicate Restorable(key: string, o: Override, now: real) {
    && key != "" && Trimmed(key) && ':' in key
    && o.category != "" && Trimmed(o.category)
    && o.priority != "" && Trimmed(o.priority)
    && Trimmed(o.scope) && (o.scope != "" || Strip(Prefix(key)) == "")
    && Trimmed(o.predicted)
    && o.confidence != 0.0
    && (o.updatedAt != 0.0 || now == 0.0)
  }

  /** Exported and converted back, the override is the same, under the same key. */
  predicate Survives(key: string, o: Override, now: real) {
    var i := Exported(key, o);
    Trimmed(key) && Usable(i) && Converted(i, now) == o
  }

  lemma TextOrIsIdentity(s: string, default: string)
    ensures TextOr(Some(s), default) == s <==> if s == "" then Strip(default) == "" else Trimmed(s)
  {
    StripTrims(s);
  }

  lemma DefaultPriorityStays(category: string)
    ensures Strip(DefaultPriority(category)) != ""
  {
    StripTrims("Critical");
    StripTrims("Medium");
  }

  lemma SurvivesIffRestorable(key: string, o: Override, now: real)
    ensures Survives(key, o, now) <==> Restorable(key, o, now)
  {
    StripTrims(key);
    StripTrims("");
    TextOrIsIdentity(o.category, "");
    TextOrIsIdentity(o.priority, DefaultPriority(o.category));
    DefaultPriorityStays(o.category);
    TextOrIsIdentity(o.predicted, "");
    TextOrIsIdentity(o.scope, Prefix(key));
    assert TextOr(Some(o.category), "") == "" ==> o.category == "" || !Trimmed(o.category);
  }

  ghost predicate AllSurvive(overrides: map<string, Override>, now: real) {
    forall key :: key in overrides ==> Survives(key, overrides[key], now)
  }

  /** Every value was converted from an item with its key. */
  ghost predicate AllComeFrom(items: seq<Incoming>, after: map<string, Override>, now: real) {
    forall key :: key in after ==> ComesFrom(items, key, after[key], now)
  }

  lemma ExportIsWellTyped(items: seq<Incoming>, overrides: map<string, Override>)
    requires IsExport(items, overrides)
    ensures WellTyped(items)
  {
  }

  /** If every override survives, every exported item is usable and brings back its own override. */
  lemma SurvivingItem(overrides: map<string, Override>, items: seq<Incoming>, i: Incoming, now: real)
    requires IsExport(items, overrides) && i in items && Survives(i.rawKey, overrides[i.rawKey], now)
    ensures Strip(i.rawKey) == i.rawKey && Usable(i) && Converted(i, now) == overrides[i.rawKey]
  {
    StripTrims(i.rawKey);
  }

  lemma ExportedKeyComesIn(overrides: map<string, Override>, items: seq<Incoming>, key: string, now: real)
    requires IsExport(items, overrides) && key in overrides && AllSurvive(overrides, now)
    ensures key in IncomingKeys(items)
  {
    var i := Exported(key, overrides[key]);
    assert Survives(key, overrides[key], now);
    SurvivingItem(overrides, items, i, now);
    var n :| 0 <= n < |items| && items[n] == i;
    assert Strip(items[n].rawKey) in IncomingKeys(items);
  }

  lemma SurvivingValue(overrides: map<string, Override>, items: seq<Incoming>, key: string, o: Override, now: real)
    requires IsExport(items, overrides) && AllSurvive(overrides, now) && ComesFrom(items, key, o, now)
    ensures key in overrides && o == overrides[key]
  {
    var i :| i in items && Usable(i) && Strip(i.rawKey) == key && o == Converted(i, now);
    assert Survives(i.rawKey, overrides[i.rawKey], now);
    SurvivingItem(overrides, items, i, now);
  }

  lemma NoKeyIsLost(overrides: map<string, Override>, items: seq<Incoming>, now: real)
    requires IsExport(items, overrides) && AllSurvive(overrides, now)
    ensures overrides.Keys <= IncomingKeys(items)
  {
    forall key | key in overrides.Keys
      ensures key in IncomingKeys(items)
    {
      ExportedKeyComesIn(overrides, items, key, now);
    }
  }

  ghost predicate Within(after: map<string, Override>, overrides: map<string, Override>) {
    forall key :: key in after ==> key in overrides && after[key] == overrides[key]
  }

  lemma NoValueChanges(overrides: map<string, Override>, items: seq<Incoming>, after: map<string, Override>, now: real)
    requires IsExport(items, overrides) && AllSurvive(overrides, now) && AllComeFrom(items, after, now)
    ensures Within(after, overrides)
  {
    forall key | key in after
      ensures key in overrides && after[key] == overrides[key]
    {
      assert ComesFrom(items, key, after[key], now);
      SurvivingValue(overrides, items, key, after[key], now);
    }
  }

  lemma SurvivorsAreRestored(overrides: map<string, Override>, items: seq<Incoming>, after: map<string, Override>,
                             now: real)
    requires IsExport(items, overrides) && AllSurvive(overrides, now)
    requires after.Keys == IncomingKeys(items) && AllComeFrom(items, after, now)
    ensures after == overrides
  {
    assert overrides.Keys <= after.Keys by { NoKeyIsLost(overrides, items, now); }
    assert Within(after, overrides) by { NoValueChanges(overrides, items, after, now); }
    SameMaps(after, overrides);
  }

  lemma SameMaps(after: map<string, Override>, overrides: map<string, Override>)
    requires overrides.Keys <= after.Keys && Within(after, overrides)
    ensures after == overrides
  {
  }

  lemma IncomingKeyIsTrimmed(items: seq<Incoming>, key: string, o: Override, now: real)
    requires ComesFrom(items, key, o, now)
    ensures Trimmed(key) && Strip(key) == key
  {
    var i :| i in items && Usable(i) && Strip(i.rawKey) == key && o == Converted(i, now);
    StripTrims(i.rawKey);
    StripTrims(key);
  }

  lemma RestoredSurvive(overrides: map<string, Override>, items: seq<Incoming>, now: real)
    requires IsExport(items, overrides)
    requires AllComeFrom(items, overrides, now)
    ensures AllSurvive(overrides, now)
  {
    forall key | key in overrides
      ensures Strip(key) == key && Trimmed(key)
    {
      IncomingKeyIsTrimmed(items, key, overrides[key], now);
    }
    forall key | key in overrides
      ensures Survives(key, overrides[key], now)
    {
      var i :| i in items && Usable(i) && Strip(i.rawKey) == key && overrides[key] == Converted(i, now);
      assert i.rawKey in overrides;
    }
  }

  lemma ImportOfExport(overrides: map<string, Override>, items: seq<Incoming>, m: Memory, now: real)
    requires IsExport(items, overrides)
    ensures var after := Import(m, items, true, now).0.overrides;
            after.Keys == IncomingKeys(items) && AllComeFrom(items, after, now)
  {
    ExportIsWellTyped(items, overrides);
    var p := StartImport(m, true);
    AdvanceAllOutcome(p, items, now);
    var after := AdvanceAll(p, items, now).overrides;
    forall key | key in after
      ensures ComesFrom(items, key, after[key], now)
    {
      AdvanceAllValue(p, items, now, key);
    }
  }

  lemma RestoredIffAllSurvive(overrides: map<string, Override>, items: seq<Incoming>, m: Memory, now: real)
    requires IsExport(items, overrides)
    ensures Import(m, items, true, now).0.overrides == overrides <==> AllSurvive(overrides, now)
  {
    var after := Import(m, items, true, now).0.overrides;
    assert after.Keys == IncomingKeys(items) && AllComeFrom(items, after, now) by {
      ImportOfExport(overrides, items, m, now);
    }
    if AllSurvive(overrides, now) {
      SurvivorsAreRestored(overrides, items, after, now);
    }
    if after == overrides {
      RestoredSurvive(overrides, items, now);
    }
  }

  lemma AllSurviveIff(overrides: map<string, Override>, now: real)
    ensures AllSurvive(overrides, now) <==> forall key :: key in overrides ==> Restorable(key, overrides[key], now)
  {
    forall key | key in overrides
      ensures Survives(key, overrides[key], now) <==> Restorable(key, overrides[key], now)
    {
      SurvivesIffRestorable(key, overrides[key], now);
    }
  }

  /** Importing an export with replace restores the overrides, whatever is in memory by then, exactly when
  every single override is restorable. */
  lemma ExportImportIff(overrides: map<string, Override>, items: seq<Incoming>, m: Memory, now: real)
    requires IsExport(items, overrides)
    ensures Import(m, items, true, now).0.overrides == overrides <==>
            forall key :: key in overrides ==> Restorable(key, overrides[key], now)
  {
    RestoredIffAllSurvive(overrides, items, m, now);
    AllSurviveIff(overrides, now);
  }

  // ---------- Feedback and forgetting ----------

  /** The fields of the feedback dictionary; `None` for one that is missing or null, 0 for a missing confidence. */
  datatype RawFeedback = RawFeedback(email: Option<string>, sender: Option<string>, actual: Option<string>,
                                     category: Option<string>, predicted: Option<string>, priority: Option<string>,
                                     confidence: real, scope: Option<string>)

  /** The feedback after trimming and lower-casing; `domain` is the part of the address behind the last `@`, or
  empty. */
  datatype Feedback = Feedback(email: string, domain: string, sender: string, actual: string, predicted: string,
                               priority: string, confidence: real, scope: string)

  /** `_domain`. */
  function Domain(email: string): string { if '@' in email then AfterLast(email, '@') else "" }

  function Cleaned(raw: RawFeedback): Feedback {
    var email := Lower(TextOr(raw.email, ""));
    var actual := if raw.actual.Some? && raw.actual.value != "" then Strip(raw.actual.value)
                  else TextOr(raw.category, "");
    Feedback(email, Domain(email), Lower(TextOr(raw.sender, "")), actual, TextOr(raw.predicted, ""),
             TextOr(raw.priority, DefaultPriority(actual)), raw.confidence, Lower(TextOr(raw.scope, "sender")))
  }

  function KeyOf(f: Feedback): string {
    if f.scope == "domain" && f.domain != "" then "domain:" + f.domain
    else "sender:" + (if f.email != "" then f.email else f.sender)
  }

  /** Feedback without a category or without any sender. */
  predicate Ignored(f: Feedback) { f.actual == "" || (f.email == "" && f.sender == "") }

  predicate Knows(m: Memory, rawKey: string) { Strip(rawKey) != "" && Strip(rawKey) in m.overrides }

  function Learn(m: Memory, f: Feedback, now: real): Memory {
    if Ignored(f) then m
    else
      var key := KeyOf(f);
      var known := if key in m.overrides then Some(m.overrides[key]) else None;
      var confidence := if f.confidence != 0.0 then f.confidence
                        else if known.Some? && known.value.confidence != 0.0 then known.value.confidence
                        else DEFAULT_CONFIDENCE;
      var hits := if known.Some? then known.value.hits else 0;
      Memory(m.overrides[key := Override(f.actual, f.priority, confidence, f.predicted, f.scope, hits, now)],
             Recent(m.corrections + [Correction(key, "learned", f.predicted, f.actual, f.priority, now)]),
             m.stats.(corrected := m.stats.corrected + 1))
  }

  function Forget(m: Memory, rawKey: string, now: real): Memory {
    var key := Strip(rawKey);
    if !Knows(m, rawKey) then m
    else
      var o := m.overrides[key];
      Memory(m.overrides - {key},
             Recent(m.corrections + [Correction(key, "forgotten", o.predicted, o.category, o.priority, now)]),
             m.stats.(forgotten := m.stats.forgotten + 1))
  }

  /** A learned override counts a hit each time it decides a classification. */
  function Hit(m: Memory, key: string): Memory
    requires key in m.overrides
  {
    m.(overrides := m.overrides[key := m.overrides[key].(hits := m.overrides[key].hits + 1)])
  }

  /** Forgetting undoes learning, unless the key was known before. */
  lemma ForgetUndoesLearning(m: Memory, f: Feedback, now: real, later: real)
    requires !Ignored(f) && Trimmed(KeyOf(f))
    ensures Forget(Learn(m, f, now), KeyOf(f), later).overrides == m.overrides - {KeyOf(f)}
  {
    StripTrims(KeyOf(f));
    assert KeyOf(f) in Learn(m, f, now).overrides;
  }

  /** What feedback means that leaves fields out, and which key it goes under. */
  lemma FeedbackDefaults(raw: RawFeedback)
    ensures var f := Cleaned(raw);
            && (raw.scope == None ==> f.scope == "sender")
            && (raw.priority == None ==> f.priority == if f.actual == "Scam" then "Critical" else "Medium")
            && (raw.actual == None || raw.actual == Some("") ==>
                  f.actual == Cleaned(raw.(actual := raw.category)).actual)
            && (raw.email == None ==> f.email == "") && (raw.sender == None ==> f.sender == "")
            && (raw.predicted == None ==> f.predicted == "")
            && (f.domain == if '@' in f.email then AfterLast(f.email, '@') else "")
            && KeyOf(f) == (if f.scope == "domain" && f.domain != "" then "domain:" + f.domain
                            else if f.email != "" then "sender:" + f.email else "sender:" + f.sender)
  {
    StripTrims("Critical");
    StripTrims("Medium");
    StripTrims("sender");
    StripTrims("");
    assert Lower("sender") == "sender";
  }

  /** What an import makes of an item that leaves everything out but its category. */
  lemma ImportDefaults(i: Incoming, now: real)
    requires Usable(i) && i.item == Object(i.item.category, None, Missing, None, None, Missing, Missing)
    ensures var o := Converted(i, now);
            && (o.priority == if o.category == "Scam" then "Critical" else "Medium")
            && (o.confidence, o.hits, o.updatedAt) == (0.97, 0, now)
            && (o.predicted, o.scope) == ("", Strip(Prefix(Strip(i.rawKey))))
  {
    StripTrims("Critical");
    StripTrims("Medium");
    StripTrims("");
  }

  /** What feedback stores under its key, and what it keeps of an override that was there: the hits, and the confidence
  if it names none itself. */
  lemma LearnStores(m: Memory, f: Feedback, now: real)
    requires !Ignored(f)
    ensures var key := KeyOf(f);
            var o := Learn(m, f, now).overrides[key];
            && Learn(m, f, now).overrides - {key} == m.overrides - {key}
            && (o.category, o.priority, o.predicted, o.scope, o.updatedAt) ==
               (f.actual, f.priority, f.predicted, f.scope, now)
            && o.hits == (if key in m.overrides then m.overrides[key].hits else 0)
            && (f.confidence != 0.0 ==> o.confidence == f.confidence)
            && (f.confidence == 0.0 && key in m.overrides && m.overrides[key].confidence != 0.0 ==>
                  o.confidence == m.overrides[key].confidence)
            && (f.confidence == 0.0 && key !in m.overrides ==> o.confidence == 0.97)
  {
  }

  /** The corrections that are kept are the last 500, and cutting now and then comes to cutting once. */
  lemma RecentLaws(a: seq<Correction>, b: seq<Correction>)
    ensures |Recent(a)| == (if |a| < 500 then |a| else 500) && Recent(a) == a[|a| - |Recent(a)|..]
    ensures Recent(Recent(a) + b) == Recent(a + b)
  {
  }

  /** The corrections that the items of an import lead to, up to one that cannot be read. */
  function EntriesOf(items: seq<Incoming>, now: real): seq<Correction> {
    if items == [] then []
    else if !Usable(items[0]) then EntriesOf(items[1..], now)
    else if !Readable(items[0]) then []
    else
      var o := Converted(items[0], now);
      [Correction(Strip(items[0].rawKey), "imported", o.predicted, o.category, o.priority, now)] +
      EntriesOf(items[1..], now)
  }

  lemma {:induction false} ImportAppends(p: Progress, items: seq<Incoming>, now: real)
    requires !p.raised
    ensures AdvanceAll(p, items, now).corrections == p.corrections + EntriesOf(items, now)
    decreases |items|
  {
    if items == [] {
    } else if !Usable(items[0]) || Readable(items[0]) {
      ImportAppends(Advance(p, items[0], now), items[1..], now);
    } else {
      assert AdvanceAll(p, items, now) == AdvanceAll(p.(raised := true), items[1..], now);
    }
  }

  // ---------- What the memory can hold ----------

  /** Everything `Restorable` asks for, but for a blank priority or scope. */
  predicate Storable(key: string, o: Override) {
    && key != "" && Trimmed(key) && ':' in key
    && o.category != "" && Trimmed(o.category)
    && Trimmed(o.priority) && Trimmed(o.scope) && Trimmed(o.predicted)
    && o.confidence != 0.0 && o.updatedAt != 0.0
  }

  ghost predicate AllStorable(overrides: map<string, Override>) {
    forall key :: key in overrides ==> Storable(key, overrides[key])
  }

  /** What is storable is restorable unless its priority is blank, or its scope is and the key has a prefix. */
  lemma RestorableIffNotBlank(key: string, o: Override, now: real)
    requires Storable(key, o)
    ensures Restorable(key, o, now) <==> o.priority != "" && (o.scope != "" || Strip(Prefix(key)) == "")
  {
  }

  lemma TextOrIsTrimmed(value: Option<string>, default: string)
    ensures Trimmed(TextOr(value, default))
  {
    StripTrims(default);
    if value.Some? {
      StripTrims(value.value);
    }
  }

  lemma KeyIsTrimmed(f: Feedback)
    requires !Ignored(f) && Trimmed(f.email) && Trimmed(f.sender) && f.domain == Domain(f.email)
    ensures Trimmed(KeyOf(f)) && ':' in KeyOf(f)
  {
    AfterLastIsEnd(f.email, '@');
    var rest := if f.scope == "domain" && f.domain != "" then f.domain else if f.email != "" then f.email else f.sender;
    var prefix := if f.scope == "domain" && f.domain != "" then "domain:" else "sender:";
    assert KeyOf(f) == prefix + rest && !IsSpace(rest[|rest| - 1]);
    assert KeyOf(f)[6] == ':';
  }

  lemma LearnKeepsStorable(m: Memory, raw: RawFeedback, now: real)
    requires AllStorable(m.overrides) && now != 0.0
    ensures AllStorable(Learn(m, Cleaned(raw), now).overrides)
  {
    var f := Cleaned(raw);
    if !Ignored(f) {
      TextOrIsTrimmed(raw.email, "");
      TextOrIsTrimmed(raw.sender, "");
      TextOrIsTrimmed(raw.scope, "sender");
      TextOrIsTrimmed(raw.predicted, "");
      TextOrIsTrimmed(raw.priority, DefaultPriority(f.actual));
      CategoryIsTrimmed(raw);
      LowerStaysTrimmed(TextOr(raw.email, ""));
      LowerStaysTrimmed(TextOr(raw.sender, ""));
      LowerStaysTrimmed(TextOr(raw.scope, "sender"));
      KeyIsTrimmed(f);
    }
  }

  lemma CategoryIsTrimmed(raw: RawFeedback)
    ensures Trimmed(Cleaned(raw).actual)
  {
    TextOrIsTrimmed(raw.actual, "");
    TextOrIsTrimmed(raw.category, "");
  }

  lemma ConvertedIsStorable(i: Incoming, now: real)
    requires Usable(i) && now != 0.0
    ensures Storable(Strip(i.rawKey), Converted(i, now))
  {
    var category := TextOr(i.item.category, "");
    StripTrims(i.rawKey);
    TextOrIsTrimmed(i.item.category, "");
    TextOrIsTrimmed(i.item.priority, DefaultPriority(category));
    TextOrIsTrimmed(i.item.predicted, "");
    TextOrIsTrimmed(i.item.scope, Prefix(Strip(i.rawKey)));
  }

  lemma {:induction false} AdvanceKeepsStorable(p: Progress, items: seq<Incoming>, now: real)
    requires AllStorable(p.overrides) && now != 0.0
    ensures AllStorable(AdvanceAll(p, items, now).overrides)
    decreases |items|
  {
    if items == [] || p.raised {
    } else {
      if Usable(items[0]) {
        ConvertedIsStorable(items[0], now);
      }
      AdvanceKeepsStorable(Advance(p, items[0], now), items[1..], now);
    }
  }

  lemma ImportKeepsStorable(m: Memory, items: seq<Incoming>, replace: bool, now: real)
    requires AllStorable(m.overrides) && now != 0.0
    ensures AllStorable(Import(m, items, replace, now).0.overrides)
  {
    AdvanceKeepsStorable(StartImport(m, replace), items, now);
  }

  /** Feedback with a blank scope is learned, but no export of the memory brings it back. */
  lemma BlankScopeIsNotRestored(m: Memory, raw: RawFeedback, now: real, items: seq<Incoming>, later: Memory, at: real)
    requires !Ignored(Cleaned(raw)) && raw.scope.Some? && raw.scope.value != "" && Strip(raw.scope.value) == ""
    requires IsExport(items, Learn(m, Cleaned(raw), now).overrides)
    ensures Import(later, items, true, at).0.overrides != Learn(m, Cleaned(raw), now).overrides
  {
    var overrides, key := Learn(m, Cleaned(raw), now).overrides, KeyOf(Cleaned(raw));
    ExportImportIff(overrides, items, later, at);
    assert key in overrides && overrides[key].scope == "";
    SenderPrefix(Cleaned(raw));
  }

  lemma SenderPrefix(f: Feedback)
    requires f.scope == ""
    ensures Strip(Prefix(KeyOf(f))) == "sender"
  {
    var rest := if f.email != "" then f.email else f.sender;
    SplitPiece("sender", ':', rest);
    assert KeyOf(f) == "sender" + [':'] + rest;
    StripTrims("sender");
  }
}
