/** Backups of the AI state in backend/ai/onnx_control_plane.py: the index, the folders with the copied
files, pruning to the retention limit and the restore. */
module StateBackups {
  import opened Text
  import LearningMemory
  import ModelRegistry

  /** The three state files: registry, learning memory and self-healing events. */
  datatype AiState = AiState(
    registry: ModelRegistry.Registry,
    learning: LearningMemory.Memory,
    events: seq<ModelRegistry.Event>)

  datatype Manifest = Manifest(id: string, reason: string, createdAt: real)

  datatype Schedule = Schedule(enabled: bool, interval: int, retention: int, lastBackupAt: real)

  /** `index`: the manifests in the index file, `folders`: the copied files by backup id. */
  datatype Vault = Vault(index: seq<Manifest>, folders: map<string, AiState>, schedule: Schedule)

  const NEW_VAULT: Vault := Vault([], map[], Schedule(true, 86400, 7, 0.0))

  // ---------- Identifiers ----------

  function FormatId(millis: nat, n: nat): string {
    "ai_state_" + OfNat(millis) + "_" + OfNat(n)
  }

  predicate IdChar(c: char) {
    'a' <= c <= 'z' || 'A' <= c <= 'Z' || IsDigit(c) || c == '_' || c == '-'
  }

  /** The regular expression that `restore_ai_state_backup` insists on. */
  predicate ValidId(id: string) {
    id != "" && forall i :: 0 <= i < |id| ==> IdChar(id[i])
  }

  /** Valid identifiers can be put together and taken apart. */
  lemma ValidIdOfParts(a: string, b: string)
    requires a != "" && b != ""
    ensures ValidId(a + b) <==> ValidId(a) && ValidId(b)
    ensures ValidId("azAZ09_-")
  {
    if ValidId(a + b) {
      assert forall i :: 0 <= i < |a| ==> a[i] == (a + b)[i];
      assert forall i :: 0 <= i < |b| ==> b[i] == (a + b)[|a| + i];
    }
  }

  lemma SplitFour(a: string, b: string, c: string, d: string)
    requires '_' !in a && '_' !in b && '_' !in c && '_' !in d
    ensures Split(a + ['_'] + (b + ['_'] + (c + ['_'] + d)), '_') == [a, b, c, d]
  {
    SplitPiece(a, '_', b + ['_'] + (c + ['_'] + d));
    SplitPiece(b, '_', c + ['_'] + d);
    SplitPiece(c, '_', d);
    SplitPiece(d, '_', "");
  }

  lemma FormatIdParts(millis: nat, n: nat)
    ensures Split(FormatId(millis, n), '_') == ["ai", "state", OfNat(millis), OfNat(n)]
  {
    var c, d := OfNat(millis), OfNat(n);
    assert '_' !in c && '_' !in d by {
      OfNatRoundTrip(millis);
      OfNatRoundTrip(n);
    }
    SplitFour("ai", "state", c, d);
    IdInParts(c, d);
  }

  lemma IdInParts(c: string, d: string)
    ensures "ai_state_" + c + "_" + d == "ai" + ['_'] + ("state" + ['_'] + (c + ['_'] + d))
  {
    assert "ai_state_" == "ai" + ['_'] + "state" + ['_'];
  }

  /** Backups taken in different milliseconds have different identifiers. */
  lemma FormatIdInjective(millis: nat, n: nat, millis': nat, n': nat)
    requires FormatId(millis, n) == FormatId(millis', n')
    ensures millis == millis' && n == n'
  {
    FormatIdParts(millis, n);
    FormatIdParts(millis', n');
    var p, p' := Split(FormatId(millis, n), '_'), Split(FormatId(millis', n'), '_');
    assert p[2] == p'[2] && p[3] == p'[3];
    OfNatRoundTrip(millis);
    OfNatRoundTrip(millis');
    OfNatRoundTrip(n);
    OfNatRoundTrip(n');
  }

  lemma FormatIdIsValid(millis: nat, n: nat)
    ensures ValidId(FormatId(millis, n)) && Strip(FormatId(millis, n)) == FormatId(millis, n)
  {
    OfNatRoundTrip(millis);
    OfNatRoundTrip(n);
    StripTrims(FormatId(millis, n));
    var id := FormatId(millis, n);
    assert id[0] == 'a' && id[|id| - 1] == OfNat(n)[|OfNat(n)| - 1];
    forall i | 0 <= i < |id|
      ensures IdChar(id[i])
    {
      assert i < 9 ==> id[i] == "ai_state_"[i];
    }
  }

  // ---------- Newest first ----------

  /** `sorted(..., key=created_at, reverse=True)`, which keeps the order of equal entries. */
  function NewestFirst(index: seq<Manifest>): seq<Manifest> {
    if index == [] then [] else Place(index[0], NewestFirst(index[1..]))
  }

  function Place(m: Manifest, rest: seq<Manifest>): seq<Manifest> {
    if rest == [] || m.createdAt >= rest[0].createdAt then [m] + rest else [rest[0]] + Place(m, rest[1..])
  }

  ghost predicate Descending(index: seq<Manifest>) {
    forall i, j :: 0 <= i < j < |index| ==> index[i].createdAt >= index[j].createdAt
  }

  /** How many entries were created strictly later than `m`. */
  function Later(index: seq<Manifest>, m: Manifest): nat {
    if index == [] then 0 else (if index[0].createdAt > m.createdAt then 1 else 0) + Later(index[1..], m)
  }

  lemma {:induction false} PlaceKeepsElements(m: Manifest, rest: seq<Manifest>)
    ensures multiset(Place(m, rest)) == multiset(rest) + multiset{m} && |Place(m, rest)| == |rest| + 1
    ensures forall x :: x in Place(m, rest) <==> x == m || x in rest
  {
    if rest == [] {
    } else if m.createdAt < rest[0].createdAt {
      PlaceKeepsElements(m, rest[1..]);
      assert rest == [rest[0]] + rest[1..];
    }
  }

  lemma {:induction false} PlaceKeepsOrder(m: Manifest, rest: seq<Manifest>)
    requires Descending(rest)
    ensures Descending(Place(m, rest))
  {
    if rest == [] {
    } else if m.createdAt < rest[0].createdAt {
      PlaceKeepsOrder(m, rest[1..]);
      PlaceKeepsElements(m, rest[1..]);
      assert forall x :: x in Place(m, rest[1..]) ==> x.createdAt <= rest[0].createdAt;
    }
  }

  /** A new entry is placed behind those that are strictly later. */
  lemma {:induction false} PlacePosition(m: Manifest, rest: seq<Manifest>)
    requires Descending(rest)
    ensures Later(rest, m) < |Place(m, rest)| && Place(m, rest)[Later(rest, m)] == m
  {
    if rest == [] {
    } else {
      if m.createdAt >= rest[0].createdAt {
        NoneLater(rest, m);
      } else {
        PlacePosition(m, rest[1..]);
      }
    }
  }

  lemma {:induction false} NoneLater(index: seq<Manifest>, m: Manifest)
    requires Descending(index) && (index != [] ==> m.createdAt >= index[0].createdAt)
    ensures Later(index, m) == 0
  {
    if index == [] {
    } else {
      assert forall i :: 0 < i < |index| ==> index[i].createdAt <= index[0].createdAt;
      NoneLater(index[1..], m);
    }
  }

  lemma {:induction false} NewestFirstSorts(index: seq<Manifest>)
    ensures Descending(NewestFirst(index)) && multiset(NewestFirst(index)) == multiset(index)
    ensures |NewestFirst(index)| == |index|
  {
    if index == [] {
    } else {
      var first, sorted := index[0], NewestFirst(index[1..]);
      NewestFirstSorts(index[1..]);
      PlaceKeepsOrder(first, sorted);
      assert multiset(Place(first, sorted)) == multiset(sorted) + multiset{first} by {
        PlaceKeepsElements(first, sorted);
      }
      assert |Place(first, sorted)| == |sorted| + 1 by {
        PlaceKeepsElements(first, sorted);
      }
      assert index == [first] + index[1..];
    }
  }

  lemma {:induction false} LaterOfPermutation(a: seq<Manifest>, m: Manifest)
    ensures Later(NewestFirst(a), m) == Later(a, m)
  {
    if a == [] {
    } else {
      LaterOfPermutation(a[1..], m);
      NewestFirstSorts(a[1..]);
      LaterOfPlace(a[0], NewestFirst(a[1..]), m);
    }
  }

  lemma {:induction false} LaterOfPlace(x: Manifest, rest: seq<Manifest>, m: Manifest)
    ensures Later(Place(x, rest), m) == Later([x] + rest, m)
  {
    assert ([x] + rest)[1..] == rest;
    if rest == [] {
    } else if x.createdAt < rest[0].createdAt {
      LaterOfPlace(x, rest[1..], m);
      assert ([x] + rest[1..])[1..] == rest[1..];
      assert ([rest[0]] + Place(x, rest[1..]))[1..] == Place(x, rest[1..]);
    }
  }

  // ---------- Pruning ----------

  /** `max(1, min(int(retention or 7), 100))`. */
  function Limit(retention: int): nat {
    var r := if retention == 0 then 7 else retention;
    if r < 1 then 1 else if r > 100 then 100 else r
  }

  /** The limit lies from 1 to 100, is what was asked for if that does, and 7 if nothing was. */
  lemma LimitLaws(retention: int)
    ensures 1 <= Limit(retention) <= 100 && Limit(0) == 7 && Limit(Limit(retention)) == Limit(retention)
    ensures 1 <= retention <= 100 ==> Limit(retention) == retention
    ensures retention > 100 ==> Limit(retention) == 100
    ensures retention < 0 ==> Limit(retention) == 1
  {
  }

  function Kept(index: seq<Manifest>, limit: nat): seq<Manifest> {
    if |NewestFirst(index)| <= limit then NewestFirst(index) else NewestFirst(index)[..limit]
  }

  function Dropped(index: seq<Manifest>, limit: nat): seq<Manifest> {
    if |NewestFirst(index)| <= limit then [] else NewestFirst(index)[limit..]
  }

  function Ids(index: seq<Manifest>): set<string> {
    set i | 0 <= i < |index| :: index[i].id
  }

  function Prune(v: Vault): Vault {
    var limit := Limit(v.schedule.retention);
    v.(index := Kept(v.index, limit), folders := v.folders - Ids(Dropped(v.index, limit)))
  }

  /** Pruning keeps the newest `limit` backups and nothing else: none dropped is newer than one kept. */
  lemma PruneKeepsNewest(index: seq<Manifest>, limit: nat)
    ensures multiset(Kept(index, limit)) + multiset(Dropped(index, limit)) == multiset(index)
    ensures |Kept(index, limit)| == if |index| <= limit then |index| else limit
    ensures forall k, d :: k in Kept(index, limit) && d in Dropped(index, limit) ==> d.createdAt <= k.createdAt
    ensures Descending(Kept(index, limit))
  {
    NewestFirstSorts(index);
    CutInOrder(NewestFirst(index), if |NewestFirst(index)| <= limit then |index| else limit);
  }

  /** Cutting a list in order leaves two parts in order, with the newer entries in the first. */
  lemma CutInOrder(index: seq<Manifest>, n: nat)
    requires Descending(index) && n <= |index|
    ensures multiset(index[..n]) + multiset(index[n..]) == multiset(index)
    ensures forall k, d :: k in index[..n] && d in index[n..] ==> d.createdAt <= k.createdAt
    ensures Descending(index[..n])
  {
    assert index == index[..n] + index[n..];
    forall k, d | k in index[..n] && d in index[n..]
      ensures d.createdAt <= k.createdAt
    {
      var i :| 0 <= i < n && index[i] == k;
      var j :| n <= j < |index| && index[j] == d;
    }
  }

  ghost predicate DistinctIds(index: seq<Manifest>) {
    forall i, j :: 0 <= i < j < |index| ==> index[i].id != index[j].id
  }

  lemma {:induction false} PlaceIds(m: Manifest, rest: seq<Manifest>)
    requires DistinctIds(rest) && m.id !in Ids(rest)
    ensures DistinctIds(Place(m, rest)) && Ids(Place(m, rest)) == Ids(rest) + {m.id}
  {
    if rest == [] || m.createdAt >= rest[0].createdAt {
      IdsOfCons(m, rest);
    } else {
      IdsOfCons(rest[0], rest[1..]);
      assert [rest[0]] + rest[1..] == rest;
      PlaceIds(m, rest[1..]);
      IdsOfCons(rest[0], Place(m, rest[1..]));
    }
  }

  lemma IdsOfConcat(a: seq<Manifest>, b: seq<Manifest>)
    ensures Ids(a + b) == Ids(a) + Ids(b)
    ensures DistinctIds(a + b) <==> DistinctIds(a) && DistinctIds(b) && Ids(a) !! Ids(b)
  {
    var all := a + b;
    assert forall i :: 0 <= i < |a| ==> all[i] == a[i];
    assert forall i :: 0 <= i < |b| ==> all[|a| + i] == b[i];
    forall i | 0 <= i < |b|
      ensures b[i].id in Ids(all)
    {
      assert all[|a| + i].id in Ids(all);
    }
    forall i | 0 <= i < |a|
      ensures a[i].id in Ids(all)
    {
      assert all[i].id in Ids(all);
    }
    DistinctInConcat(a, b);
  }

  lemma DistinctInConcat(a: seq<Manifest>, b: seq<Manifest>)
    ensures DistinctIds(a + b) <==> DistinctIds(a) && DistinctIds(b) && Ids(a) !! Ids(b)
  {
    var all := a + b;
    if DistinctIds(all) {
      forall i, j | 0 <= i < j < |b|
        ensures b[i].id != b[j].id
      {
        assert all[|a| + i].id != all[|a| + j].id;
      }
      forall i, j | 0 <= i < j < |a|
        ensures a[i].id != a[j].id
      {
        assert all[i].id != all[j].id;
      }
      forall id | id in Ids(a)
        ensures id !in Ids(b)
      {
        var i :| 0 <= i < |a| && a[i].id == id;
        forall j | 0 <= j < |b|
          ensures b[j].id != id
        {
          assert all[i].id != all[|a| + j].id;
        }
      }
    }
    if DistinctIds(a) && DistinctIds(b) && Ids(a) !! Ids(b) {
      forall i, j | 0 <= i < j < |all|
        ensures all[i].id != all[j].id
      {
        if i < |a| <= j {
          assert a[i].id in Ids(a) && b[j - |a|].id in Ids(b);
        }
      }
    }
  }

  lemma IdsGrow(index: seq<Manifest>, i: nat)
    requires i < |index|
    ensures Ids(index[..i + 1]) == Ids(index[..i]) + {index[i].id}
  {
    IdsOfConcat(index[..i], [index[i]]);
    assert index[..i + 1] == index[..i] + [index[i]];
    assert [index[i]][0].id in Ids([index[i]]) && Ids([index[i]]) == {index[i].id};
  }

  lemma IdsOfCons(m: Manifest, rest: seq<Manifest>)
    ensures Ids([m] + rest) == {m.id} + Ids(rest)
    ensures DistinctIds([m] + rest) <==> DistinctIds(rest) && m.id !in Ids(rest)
  {
    IdsOfConcat([m], rest);
    assert [m][0].id in Ids([m]) && Ids([m]) == {m.id};
  }

  lemma {:induction false} NewestFirstIds(index: seq<Manifest>)
    requires DistinctIds(index)
    ensures DistinctIds(NewestFirst(index)) && Ids(NewestFirst(index)) == Ids(index)
  {
    if index == [] {
    } else {
      assert index == [index[0]] + index[1..];
      IdsOfCons(index[0], index[1..]);
      NewestFirstIds(index[1..]);
      PlaceIds(index[0], NewestFirst(index[1..]));
    }
  }

  /** With distinct identifiers, the folders that remain are those of the backups kept. */
  lemma PruneSplitsIds(index: seq<Manifest>, limit: nat)
    requires DistinctIds(index)
    ensures DistinctIds(Kept(index, limit))
    ensures Ids(Kept(index, limit)) == Ids(index) - Ids(Dropped(index, limit))
  {
    NewestFirstIds(index);
    IdsOfConcat(Kept(index, limit), Dropped(index, limit));
    assert NewestFirst(index) == Kept(index, limit) + Dropped(index, limit);
  }

  /** Sorting leaves alone what is in order already. */
  lemma {:induction false} SortedStays(index: seq<Manifest>)
    requires Descending(index)
    ensures NewestFirst(index) == index
  {
    if index == [] {
    } else {
      assert forall i :: 0 < i < |index| ==> index[i] == index[1..][i - 1];
      SortedStays(index[1..]);
      assert index == [index[0]] + index[1..];
    }
  }

  lemma SortedIsKept(index: seq<Manifest>, limit: nat)
    requires Descending(index)
    ensures Kept(index, limit) == if |index| <= limit then index else index[..limit]
  {
    SortedStays(index);
  }

  // ---------- Creating and restoring ----------

  /** `create_ai_state_backup`, with the state files as they are after saving. */
  function Create(v: Vault, files: AiState, reason: string, millis: nat, createdAt: real): Vault {
    var why := if reason == "" then "manual" else reason;
    var id := FormatId(millis, |v.index| + 1);
    var schedule := if why == "scheduled" then v.schedule.(lastBackupAt := createdAt) else v.schedule;
    Prune(Vault([Manifest(id, why, createdAt)] + v.index, v.folders[id := files], schedule))
  }

  function Configure(v: Vault, enabled: bool, interval: int, retention: int): Vault {
    var seconds := if interval == 0 then 86400 else interval;
    Prune(v.(schedule := v.schedule.(enabled := enabled, interval := if seconds < 60 then 60 else seconds,
                                     retention := Limit(retention))))
  }

  /** Whether `run_scheduled_ai_state_backup` takes a backup now. */
  predicate Due(s: Schedule, now: real) {
    var seconds := if s.interval == 0 then 86400 else s.interval;
    s.enabled && (s.lastBackupAt == 0.0 || now - s.lastBackupAt >= (if seconds < 60 then 60 else seconds) as real)
  }

  /** Whether `_find_ai_state_backup` finds the backup: in the index, or by the manifest in its folder. */
  predicate Finds(v: Vault, id: string) {
    id in Ids(v.index) || id in v.folders
  }

  /** The state files after `restore_ai_state_backup`. */
  function Restored(v: Vault, id: string, disk: AiState): AiState {
    if id in v.folders then v.folders[id] else disk
  }

  /** The backup just created survives its own pruning exactly when fewer backups than the limit are strictly
  newer; with a clock that does not run backwards none is. */
  lemma JustCreatedSurvivesIff(index: seq<Manifest>, m: Manifest, limit: nat)
    requires DistinctIds([m] + index)
    ensures m in Kept([m] + index, limit) <==> Later(index, m) < limit
  {
    var all := [m] + index;
    var s, k := NewestFirst(all), Later(index, m);
    NewPosition(index, m);
    NewestFirstIds(all);
    assert k < |Kept(all, limit)| ==> Kept(all, limit)[k] == m;
    if m in Kept(all, limit) {
      var i :| 0 <= i < |Kept(all, limit)| && s[i] == m;
      assert s[i].id == s[k].id;
    }
  }

  lemma NewPosition(index: seq<Manifest>, m: Manifest)
    ensures var s := NewestFirst([m] + index); Later(index, m) < |s| && s[Later(index, m)] == m
  {
    assert ([m] + index)[0] == m && ([m] + index)[1..] == index;
    NewestFirstSorts(index);
    LaterOfPermutation(index, m);
    PlacePosition(m, NewestFirst(index));
  }

  /** If nothing in the index is newer than the new backup, it survives. */
  lemma NewestAlwaysSurvives(v: Vault, files: AiState, reason: string, millis: nat, createdAt: real)
    requires var id := FormatId(millis, |v.index| + 1); id !in Ids(v.index)
    requires DistinctIds(v.index) && forall m :: m in v.index ==> m.createdAt <= createdAt
    ensures var id, after := FormatId(millis, |v.index| + 1), Create(v, files, reason, millis, createdAt);
            id in Ids(after.index) && id in after.folders && after.folders[id] == files
  {
    var id := FormatId(millis, |v.index| + 1);
    var m := Manifest(id, if reason == "" then "manual" else reason, createdAt);
    var all := [m] + v.index;
    var limit := Limit(v.schedule.retention);
    IdsOfCons(m, v.index);
    NothingLater(v.index, m);
    JustCreatedSurvivesIff(v.index, m, limit);
    var kept := Kept(all, limit);
    var i :| 0 <= i < |kept| && kept[i] == m;
    assert kept[i].id in Ids(kept);
    PruneSplitsIds(all, limit);
  }

  lemma {:induction false} NothingLater(index: seq<Manifest>, m: Manifest)
    requires forall x :: x in index ==> x.createdAt <= m.createdAt
    ensures Later(index, m) == 0
  {
    if index == [] {
    } else {
      assert index[0] in index;
      NothingLater(index[1..], m);
    }
  }

  /** With room for one backup, the new one replaces the one before it, and its folder goes last: if both have the
  same identifier, it is the new folder that goes. */
  lemma CreateWithRoomForOne(v: Vault, files: AiState, reason: string, millis: nat, createdAt: real)
    requires Limit(v.schedule.retention) == 1 && |v.index| <= 1
    requires forall m :: m in v.index ==> m.createdAt <= createdAt
    ensures var id, after := FormatId(millis, |v.index| + 1), Create(v, files, reason, millis, createdAt);
            && |after.index| == 1 && after.index[0].id == id && after.index[0].createdAt == createdAt
            && after.folders == v.folders[id := files] - Ids(v.index)
            && after.schedule.retention == v.schedule.retention
  {
    var why := if reason == "" then "manual" else reason;
    var grown := [Manifest(FormatId(millis, |v.index| + 1), why, createdAt)] + v.index;
    assert v.index != [] ==> v.index[0] in v.index;
    assert Descending(grown);
    SortedStays(grown);
    assert Dropped(grown, 1) == v.index;
  }

  // ---------- Index and folders belong together ----------

  /** No two entries share an identifier, and exactly the entries of the index have a folder. */
  ghost predicate Tidy(v: Vault) {
    DistinctIds(v.index) && v.folders.Keys == Ids(v.index)
  }

  lemma PruneKeepsTidy(v: Vault)
    requires Tidy(v)
    ensures Tidy(Prune(v))
    ensures forall id :: id in Prune(v).folders ==> id in v.folders && Prune(v).folders[id] == v.folders[id]
  {
    PruneSplitsIds(v.index, Limit(v.schedule.retention));
  }

  lemma CreateKeepsTidy(v: Vault, files: AiState, reason: string, millis: nat, createdAt: real)
    requires Tidy(v) && FormatId(millis, |v.index| + 1) !in v.folders
    ensures Tidy(Create(v, files, reason, millis, createdAt))
    ensures var id, after := FormatId(millis, |v.index| + 1), Create(v, files, reason, millis, createdAt);
            forall x :: x in after.folders ==>
              if x == id then after.folders[x] == files else x in v.folders && after.folders[x] == v.folders[x]
  {
    var id := FormatId(millis, |v.index| + 1);
    var why := if reason == "" then "manual" else reason;
    var m := Manifest(id, why, createdAt);
    var schedule := if why == "scheduled" then v.schedule.(lastBackupAt := createdAt) else v.schedule;
    var grown := Vault([m] + v.index, v.folders[id := files], schedule);
    IdsOfCons(m, v.index);
    PruneKeepsTidy(grown);
    assert Create(v, files, reason, millis, createdAt) == Prune(grown);
  }

  lemma ConfigureKeepsTidy(v: Vault, enabled: bool, interval: int, retention: int)
    requires Tidy(v)
    ensures Tidy(Configure(v, enabled, interval, retention))
    ensures var after := Configure(v, enabled, interval, retention);
            forall id :: id in after.folders ==> id in v.folders && after.folders[id] == v.folders[id]
  {
    var seconds := if interval == 0 then 86400 else interval;
    PruneKeepsTidy(v.(schedule := v.schedule.(enabled := enabled, interval := if seconds < 60 then 60 else seconds,
                                              retention := Limit(retention))));
  }
}
