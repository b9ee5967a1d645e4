/** `OnnxAIControlPlane` of backend/ai/onnx_control_plane.py: the object with its registry, learning memory,
self-healing events, cached sessions and backups, and what every run of its operations keeps. */
module ControlPlane {
  import opened Text
  import opened ModelRegistry
  import opened StateBackups
  import LearningMemory

  /** The whole state: in memory, in the three state files (`disk`) and in the backups. */
  datatype Whole = Whole(plane: Plane, learning: LearningMemory.Memory, disk: AiState, vault: Vault)

  function InMemory(s: Whole): AiState {
    AiState(s.plane.registry, s.learning, s.plane.events)
  }

  /** `_save_all`. */
  function Saved(s: Whole): Whole { s.(disk := InMemory(s)) }

  const NO_STATE: AiState := AiState(Registry(map[], None), LearningMemory.EMPTY, [])
  const START: Whole := Whole(Plane(Registry(map[], None), [], map[]), LearningMemory.EMPTY, NO_STATE, NEW_VAULT)

  // ---------- Operations ----------

  datatype Op =
    | Discovery(w: World)
    | Validation(w: World, name: string)
    | Evaluation(w: World, name: string, cases: Option<seq<bool>>, minAccuracy: real, activate: bool)
    | FailureReport(w: World, name: string, reason: string)
    | Recovery(w: World, name: string)
    | Classification(w: World, keys: seq<string>, error: Option<string>)
    | Feedback(raw: LearningMemory.RawFeedback, now: real)
    | Forgetting(key: string, now: real)
    | Importing(items: seq<LearningMemory.Incoming>, replace: bool, now: real)
    | BackUp(reason: string, millis: nat, createdAt: real)
    | ScheduledBackUp(now: real, millis: nat, createdAt: real)
    | Scheduling(enabled: bool, interval: int, retention: int)
    | Restoring(id: string)

  function WithPlane(s: Whole, p: Plane): Whole { Saved(s.(plane := p)) }
  function WithLearning(s: Whole, m: LearningMemory.Memory): Whole { Saved(s.(learning := m)) }

  /** The first of the candidate keys that has an override. */
  function Matching(overrides: map<string, LearningMemory.Override>, keys: seq<string>): Option<string> {
    if keys == [] then None
    else if keys[0] in overrides then Some(keys[0])
    else Matching(overrides, keys[1..])
  }

  lemma {:induction false} MatchingIsKnown(overrides: map<string, LearningMemory.Override>, keys: seq<string>)
    ensures Matching(overrides, keys).Some? ==> Matching(overrides, keys).value in overrides
  {
    if keys == [] {
    } else {
      MatchingIsKnown(overrides, keys[1..]);
    }
  }

  ghost function Classify(s: Whole, w: World, keys: seq<string>, error: Option<string>): Whole {
    var found := WithPlane(s, Discover(s.plane, w));
    var key := Matching(found.learning.overrides, keys);
    MatchingIsKnown(found.learning.overrides, keys);
    if key.Some? then WithLearning(found, LearningMemory.Hit(found.learning, key.value))
    else WithPlane(found, Infer(found.plane, w, error))
  }

  /** Who answers a classification: a learned override, the active model with the checksum on record, or the
  rules. */
  datatype Answer = Learned(key: string, category: string) | FromModel(name: string, checksum: string) | Rules

  function ByOverride(o: LearningMemory.Override, key: string): Answer {
    Learned(key, if o.category == "" then "Personal" else o.category)
  }

  /** The answer where no override applies; `error` is what the prediction itself raises. */
  ghost function Asked(p: Plane, w: World, error: Option<string>): Answer {
    if p.registry.active.None? || p.registry.active.value == "" || p.registry.active.value !in p.registry.models ||
       !w.runtime || error.Some? || (p.registry.active.value !in p.sessions && w.loadError.Some?) then Rules
    else FromModel(p.registry.active.value, p.registry.models[p.registry.active.value].checksum)
  }

  ghost function Answered(s: Whole, w: World, keys: seq<string>, error: Option<string>): Answer {
    var key := Matching(s.learning.overrides, keys);
    MatchingIsKnown(s.learning.overrides, keys);
    if key.Some? then ByOverride(s.learning.overrides[key.value], key.value)
    else Asked(Discover(s.plane, w), w, error)
  }

  function Import(s: Whole, items: seq<LearningMemory.Incoming>, replace: bool, now: real): Whole {
    var (m, p) := LearningMemory.Import(s.learning, items, replace, now);
    if p.raised then s.(learning := m) else WithLearning(s, m)
  }

  function MakeBackup(s: Whole, reason: string, millis: nat, createdAt: real): Whole {
    var saved := Saved(s);
    saved.(vault := Create(saved.vault, saved.disk, reason, millis, createdAt))
  }

  function Restore(s: Whole, rawId: string): Whole {
    var id := Strip(rawId);
    if !ValidId(id) || !Finds(s.vault, id) then s
    else
      var files := Restored(s.vault, id, s.disk);
      Whole(Plane(files.registry, files.events, map[]), files.learning, files, s.vault)
  }

  ghost function Step(s: Whole, op: Op): Whole {
    match op
    case Discovery(w) => WithPlane(s, Discover(s.plane, w))
    case Validation(w, name) => WithPlane(s, Validate(s.plane, w, name).0)
    case Evaluation(w, name, cases, minAccuracy, activate) =>
      WithPlane(s, Evaluate(s.plane, w, Strip(name), cases, minAccuracy, activate).0)
    case FailureReport(w, name, reason) => WithPlane(s, Report(s.plane, name, reason, w.runtime, w.now))
    case Recovery(w, name) => WithPlane(s, Recover(s.plane, w, name))
    case Classification(w, keys, error) => Classify(s, w, keys, error)
    case Feedback(raw, now) =>
      var f := LearningMemory.Cleaned(raw);
      if LearningMemory.Ignored(f) then s else WithLearning(s, LearningMemory.Learn(s.learning, f, now))
    case Forgetting(key, now) =>
      if !LearningMemory.Knows(s.learning, key) then s else WithLearning(s, LearningMemory.Forget(s.learning, key, now))
    case Importing(items, replace, now) => Import(s, items, replace, now)
    case BackUp(reason, millis, createdAt) => MakeBackup(s, reason, millis, createdAt)
    case ScheduledBackUp(now, millis, createdAt) =>
      if Due(s.vault.schedule, now) then MakeBackup(s, "scheduled", millis, createdAt) else s
    case Scheduling(enabled, interval, retention) => s.(vault := Configure(s.vault, enabled, interval, retention))
    case Restoring(id) => Restore(s, id)
  }

  /** The millisecond in which an operation takes a backup, if it takes one. */
  function BacksUp(s: Whole, op: Op): Option<nat> {
    match op
    case BackUp(_, millis, _) => Some(millis)
    case ScheduledBackUp(now, millis, _) => if Due(s.vault.schedule, now) then Some(millis) else None
    case _ => None
  }

  // ---------- The object ----------

  class OnnxAIControlPlane {
    var registry: Registry
    var events: seq<Event>
    var sessions: map<string, string>
    var learning: LearningMemory.Memory
    var disk: AiState
    var index: seq<Manifest>
    var folders: map<string, AiState>
    var schedule: Schedule

    function PlaneView(): Plane
      reads this
    {
      Plane(registry, events, sessions)
    }

    function View(): Whole
      reads this
    {
      Whole(PlaneView(), learning, disk, Vault(index, folders, schedule))
    }

    constructor ()
      ensures View() == START
    {
      registry, events, sessions := Registry(map[], None), [], map[];
      learning, disk := LearningMemory.EMPTY, NO_STATE;
      index, folders, schedule := NEW_VAULT.index, NEW_VAULT.folders, NEW_VAULT.schedule;
    }

    method SaveAll()
      modifies this`disk
      ensures View() == Saved(old(View()))
    {
      disk := AiState(registry, learning, events);
    }

    method SetRecord(name: string, r: Record)
      modifies this`registry
      ensures PlaneView() == Update(old(PlaneView()), name, r)
    {
      registry := registry.(models := registry.models[name := r]);
    }

    method AppendEvent(action: string, model: string, reason: string, now: real)
      modifies this`events
      ensures events == Append(old(events), ModelRegistry.Event(action, model, reason, now))
    {
      var e := ModelRegistry.Event(action, model, reason, now);
      if e !in Tail(events, 3) {
        events := events + [e];
      }
      events := Tail(events, 200);
    }

    method SelectActiveModel(runtime: bool)
      modifies this`registry
      ensures PlaneView() == Reselect(old(PlaneView()), runtime)
    {
      if ActiveStands(registry) {
        return;
      }
      registry := registry.(active := None);
      if !runtime {
        return;
      }
      var names := SortedNames(registry.models.Keys);
      for i := 0 to |names|
        invariant registry == old(registry).(active := None)
        invariant forall j :: 0 <= j < i ==> !EligibleName(registry.models, names[j])
      {
        if EligibleName(registry.models, names[i]) {
          forall other | other in EligibleNames(registry.models)
            ensures other == names[i] || Less(names[i], other)
          {
            var j :| 0 <= j < |names| && names[j] == other;
          }
          ChooseIsLeast(registry.models, names[i]);
          registry := registry.(active := Some(names[i]));
          return;
        }
      }
      assert EligibleNames(registry.models) == {};
    }

    method DiscoverModels(w: World)
      modifies this
      ensures View() == Step(old(View()), Discovery(w))
    {
      ghost var goal := FindAll(PlaneView(), w.files, w.runtime, w.now);
      for i := 0 to |w.files|
        invariant FindAll(PlaneView(), w.files[i..], w.runtime, w.now) == goal
        invariant View() == old(View()).(plane := PlaneView())
      {
        var f := w.files[i];
        assert w.files[i..][0] == f && w.files[i..][1..] == w.files[i + 1..];
        var changed := ChecksumChanged(registry.models, f);
        var r := Found(registry.models, f, w.runtime);
        if changed {
          AppendEvent(QUARANTINE, f.stem, CHANGED, w.now);
        }
        SetRecord(f.stem, r);
      }
      SelectActiveModel(w.runtime);
      SaveAll();
    }

    method ReportModelFailure(name: string, reason: string, w: World)
      modifies this
      ensures View() == Step(old(View()), FailureReport(w, name, reason))
    {
      if name in registry.models {
        var r := registry.models[name];
        SetRecord(name, r.(healthy := false, quarantined := true, quarantineReason := Some(reason),
                           failureCount := r.failureCount + 1));
      }
      sessions := sessions - {name};
      if registry.active == Some(name) {
        registry := registry.(active := None);
      }
      AppendEvent(QUARANTINE, name, reason, w.now);
      SelectActiveModel(w.runtime);
      SaveAll();
    }

    method ValidateModel(w: World, name: string) returns (verdict: Verdict)
      modifies this
      ensures View() == Step(old(View()), Validation(w, name))
      ensures verdict == Validate(old(PlaneView()), w, name).1
    {
      DiscoverModels(w);
      if name !in registry.models {
        return NotRegistered;
      }
      var path := registry.models[name].path;
      if !Exists(w.files, path) {
        ReportModelFailure(name, "model_file_missing", w);
        return Failed("model_file_missing");
      }
      if !w.onnxSuffix {
        ReportModelFailure(name, "unsupported_model_format", w);
        return Failed("unsupported_model_format");
      }
      if !w.runtime {
        SetRecord(name, registry.models[name].(runtimeAvailable := false, healthy := true));
        SaveAll();
        return NotLoadable;
      }
      if name !in sessions {
        if w.loadError.Some? {
          ReportModelFailure(name, "load_error:" + w.loadError.value, w);
          return Failed("load_error:" + w.loadError.value);
        }
        sessions := sessions[name := registry.models[name].checksum];
      }
      SetRecord(name, registry.models[name].(healthy := true, quarantined := false, quarantineReason := None));
      SelectActiveModel(w.runtime);
      SaveAll();
      return Loadable;
    }

    method CountCorrect(passed: seq<bool>) returns (correct: nat)
      ensures correct == Correct(passed)
    {
      correct := 0;
      for i := 0 to |passed|
        invariant correct + Correct(passed[i..]) == Correct(passed)
      {
        if passed[i] {
          correct := correct + 1;
        }
      }
    }

    method EvaluateModel(w: World, rawName: string, cases: Option<seq<bool>>, minAccuracy: real, activate: bool)
      returns (outcome: Outcome)
      modifies this
      ensures View() == Step(old(View()), Evaluation(w, rawName, cases, minAccuracy, activate))
      ensures outcome == Evaluate(old(PlaneView()), w, Strip(rawName), cases, minAccuracy, activate).1
    {
      var name := Strip(rawName);
      DiscoverModels(w);
      var verdict := ValidateModel(w, name);
      if verdict != Loadable {
        return Blocked;
      }
      outcome := GradeModel(w, name, cases, minAccuracy, activate);
      SaveAll();
    }

    /** The part of `evaluate_model` that runs the cases and acts on the accuracy. */
    method GradeModel(w: World, name: string, cases: Option<seq<bool>>, minAccuracy: real, activate: bool)
      returns (outcome: Outcome)
      requires name in registry.models
      modifies this`registry, this`events
      ensures (PlaneView(), outcome) == Grade(old(PlaneView()), w, name, cases, minAccuracy, activate)
    {
      if cases.None? {
        return Raised;
      }
      if cases.value == [] {
        return Blocked;
      }
      var correct := CountCorrect(cases.value);
      var accuracy := correct as real / |cases.value| as real;
      var r := registry.models[name];
      if accuracy >= Clamp01(minAccuracy) {
        SetRecord(name, Accept(r));
        if activate {
          registry := registry.(active := Some(name));
          AppendEvent("activate_model", name, "accuracy", w.now);
        }
        return Accepted(activate);
      }
      SetRecord(name, Reject(r));
      if registry.active == Some(name) {
        registry := registry.(active := None);
      }
      SelectActiveModel(w.runtime);
      return Rejected;
    }

    method RecoverModel(w: World, name: string)
      modifies this
      ensures View() == Step(old(View()), Recovery(w, name))
    {
      var verdict := ValidateModel(w, name);
      if verdict.NotRegistered? || verdict.Failed? {
        return;
      }
      JudgedIsRegistered(old(PlaneView()), w, name);
      var r := registry.models[name];
      SetRecord(name, r.(healthy := true, quarantined := false, quarantineReason := None));
      if verdict == Loadable && r.accepted {
        registry := registry.(active := Some(name));
      } else {
        SelectActiveModel(w.runtime);
      }
      AppendEvent("recover_model", name, "manual_recovery", w.now);
      SaveAll();
    }

    method ClassifyMail(w: World, keys: seq<string>, error: Option<string>) returns (answer: Answer)
      modifies this
      ensures View() == Step(old(View()), Classification(w, keys, error))
      ensures answer == Answered(old(View()), w, keys, error)
    {
      DiscoverModels(w);
      ghost var key := Matching(learning.overrides, keys);
      for i := 0 to |keys|
        invariant View() == WithPlane(old(View()), Discover(old(PlaneView()), w))
        invariant Matching(learning.overrides, keys[i..]) == key
      {
        if keys[i] in learning.overrides {
          learning := LearningMemory.Hit(learning, keys[i]);
          SaveAll();
          return ByOverride(learning.overrides[keys[i]], keys[i]);
        }
      }
      answer := AskActiveModel(w, error);
    }

    method AskActiveModel(w: World, error: Option<string>) returns (answer: Answer)
      requires disk == InMemory(View())
      modifies this
      ensures View() == WithPlane(old(View()), Infer(old(PlaneView()), w, error))
      ensures answer == Asked(old(PlaneView()), w, error)
    {
      if registry.active.None? || registry.active.value == "" || registry.active.value !in registry.models ||
         !w.runtime {
        return Rules;
      }
      var name := registry.active.value;
      var checksum := registry.models[name].checksum;
      if name !in sessions {
        if w.loadError.Some? {
          ReportModelFailure(name, "inference_error:" + w.loadError.value, w);
          return Rules;
        }
        sessions := sessions[name := checksum];
      }
      if error.Some? {
        ReportModelFailure(name, "inference_error:" + error.value, w);
        return Rules;
      }
      return FromModel(name, checksum);
    }

    method RecordFeedback(raw: LearningMemory.RawFeedback, now: real)
      modifies this
      ensures View() == Step(old(View()), Feedback(raw, now))
    {
      var f := LearningMemory.Cleaned(raw);
      if LearningMemory.Ignored(f) {
        return;
      }
      learning := LearningMemory.Learn(learning, f, now);
      SaveAll();
    }

    method ForgetLearningOverride(key: string, now: real)
      modifies this
      ensures View() == Step(old(View()), Forgetting(key, now))
    {
      if !LearningMemory.Knows(learning, key) {
        return;
      }
      learning := LearningMemory.Forget(learning, key, now);
      SaveAll();
    }

    /** `import_learning_memory`; `ok` is false when a number cannot be read and the call raises. */
    method ImportLearningMemory(items: seq<LearningMemory.Incoming>, replace: bool, now: real)
      returns (ok: bool, imported: nat, skipped: nat)
      modifies this
      ensures View() == Step(old(View()), Importing(items, replace, now))
      ensures var p := LearningMemory.Import(old(learning), items, replace, now).1;
              ok == !p.raised && imported == p.imported && skipped == p.skipped
    {
      var p := LearningMemory.RunImport(learning, items, replace, now);
      ok, imported, skipped := !p.raised, p.imported, p.skipped;
      if p.raised {
        learning := learning.(overrides := if replace then learning.overrides else p.overrides,
                              corrections := p.corrections);
        return;
      }
      learning := LearningMemory.Memory(p.overrides, LearningMemory.Recent(p.corrections),
                                        learning.stats.(imported := learning.stats.imported + imported));
      SaveAll();
    }

    /** `preview_learning_import` changes nothing; its status is "ready" or "review_required". */
    method PreviewLearningImport(items: seq<LearningMemory.Incoming>, replace: bool)
      returns (preview: LearningMemory.Preview, ready: bool)
      ensures preview == LearningMemory.PreviewOf(learning, items, replace)
      ensures ready == !LearningMemory.ReviewRequired(preview)
    {
      preview := LearningMemory.BuildPreview(learning, items, replace);
      ready := preview.conflicting == [] && preview.removed == {};
    }

    method PruneBackups()
      modifies this`index, this`folders
      ensures Vault(index, folders, schedule) == Prune(old(Vault(index, folders, schedule)))
    {
      var limit := Limit(schedule.retention);
      var backups := NewestFirst(index);
      var keep := if |backups| <= limit then backups else backups[..limit];
      var drop := if |backups| <= limit then [] else backups[limit..];
      RemoveFolders(drop);
      index := keep;
    }

    method RemoveFolders(drop: seq<Manifest>)
      modifies this`folders
      ensures folders == old(folders) - Ids(drop)
    {
      for i := 0 to |drop|
        invariant folders == old(folders) - Ids(drop[..i])
      {
        IdsGrow(drop, i);
        folders := folders - {drop[i].id};
      }
      assert drop[..|drop|] == drop;
    }

    method CreateBackup(reason: string, millis: nat, createdAt: real) returns (id: string)
      modifies this
      ensures View() == Step(old(View()), BackUp(reason, millis, createdAt))
      ensures id == FormatId(millis, |old(index)| + 1)
    {
      SaveAll();
      id := FormatId(millis, |index| + 1);
      folders := folders[id := disk];
      var why := if reason == "" then "manual" else reason;
      index := [Manifest(id, why, createdAt)] + index;
      if why == "scheduled" {
        schedule := schedule.(lastBackupAt := createdAt);
      }
      PruneBackups();
    }

    method RunScheduledBackup(now: real, millis: nat, createdAt: real)
      modifies this
      ensures View() == Step(old(View()), ScheduledBackUp(now, millis, createdAt))
    {
      if Due(schedule, now) {
        var id := CreateBackup("scheduled", millis, createdAt);
      }
    }

    method ConfigureSchedule(enabled: bool, interval: int, retention: int)
      modifies this
      ensures View() == Step(old(View()), Scheduling(enabled, interval, retention))
    {
      var seconds := if interval == 0 then 86400 else interval;
      schedule := schedule.(enabled := enabled, interval := if seconds < 60 then 60 else seconds,
                            retention := Limit(retention));
      PruneBackups();
    }

    method RestoreBackup(rawId: string)
      modifies this
      ensures View() == Step(old(View()), Restoring(rawId))
    {
      var id := Strip(rawId);
      if !ValidId(id) || !Finds(Vault(index, folders, schedule), id) {
        return;
      }
      if id in folders {
        disk := folders[id];
      }
      registry, learning, events := disk.registry, disk.learning, disk.events;
      sessions := map[];
    }
  }

  /** What validation finds registered stays registered. */
  lemma JudgedIsRegistered(p: Plane, w: World, name: string)
    requires !Validate(p, w, name).1.NotRegistered? && !Validate(p, w, name).1.Failed?
    ensures name in Validate(p, w, name).0.registry.models
  {
  }

  // ---------- Every run keeps the active model safe ----------

  /** What an operation adds to the accepted pairs of model name and checksum. */
  ghost function Gains(s: Whole, op: Op): Approvals {
    if op.Evaluation? then Approves(s.plane, op.w, Strip(op.name), op.cases, op.minAccuracy, op.activate) else {}
  }

  /** Safe in memory, in the state files and in every backup. */
  ghost predicate AllSafe(s: Whole, approved: Approvals) {
    && Safe(s.plane.registry, approved)
    && Safe(s.disk.registry, approved)
    && forall id :: id in s.vault.folders ==> Safe(s.vault.folders[id].registry, approved)
  }

  lemma MoreApprovals(s: Whole, approved: Approvals, more: Approvals)
    requires AllSafe(s, approved)
    ensures AllSafe(s, approved + more)
  {
  }

  lemma WithPlaneIsSafe(s: Whole, p: Plane, approved: Approvals)
    requires AllSafe(s, approved) && Safe(p.registry, approved)
    ensures AllSafe(WithPlane(s, p), approved)
  {
  }

  lemma ClassifyIsSafe(s: Whole, w: World, keys: seq<string>, error: Option<string>, approved: Approvals)
    requires AllSafe(s, approved)
    ensures AllSafe(Classify(s, w, keys, error), approved)
  {
    var p := Discover(s.plane, w);
    DiscoverIsSafe(s.plane, w, approved);
    WithPlaneIsSafe(s, p, approved);
    InferIsSafe(p, w, error, approved);
    WithPlaneIsSafe(WithPlane(s, p), Infer(p, w, error), approved);
  }

  lemma MakeBackupIsSafe(s: Whole, reason: string, millis: nat, createdAt: real, approved: Approvals)
    requires AllSafe(s, approved)
    ensures AllSafe(MakeBackup(s, reason, millis, createdAt), approved)
  {
    var id := FormatId(millis, |s.vault.index| + 1);
    var folders := s.vault.folders[id := InMemory(s)];
    assert forall x :: x in folders ==> Safe(folders[x].registry, approved);
  }

  lemma PlaneStepIsSafe(s: Whole, op: Op, approved: Approvals)
    requires AllSafe(s, approved)
    requires op.Discovery? || op.Validation? || op.FailureReport? || op.Recovery?
    ensures AllSafe(Step(s, op), approved)
  {
    match op
    case Discovery(w) => DiscoverIsSafe(s.plane, w, approved);
    case Validation(w, name) => ValidateIsSafe(s.plane, w, name, approved);
    case FailureReport(w, name, reason) => ReportIsSafe(s.plane, name, reason, w.runtime, w.now, approved);
    case Recovery(w, name) => RecoverIsSafe(s.plane, w, name, approved);
  }

  lemma EvaluationStepIsSafe(s: Whole, op: Op, approved: Approvals)
    requires AllSafe(s, approved) && op.Evaluation?
    ensures AllSafe(Step(s, op), approved + Gains(s, op))
  {
    EvaluateIsSafe(s.plane, op.w, Strip(op.name), op.cases, op.minAccuracy, op.activate, approved);
    MoreApprovals(s, approved, Gains(s, op));
    WithPlaneIsSafe(s, Evaluate(s.plane, op.w, Strip(op.name), op.cases, op.minAccuracy, op.activate).0,
                    approved + Gains(s, op));
  }

  lemma StepIsSafe(s: Whole, op: Op, approved: Approvals)
    requires AllSafe(s, approved)
    ensures AllSafe(Step(s, op), approved + Gains(s, op))
  {
    if op.Evaluation? {
      EvaluationStepIsSafe(s, op, approved);
    } else {
      assert approved + Gains(s, op) == approved;
      match op
      case Classification(w, keys, error) => ClassifyIsSafe(s, w, keys, error, approved);
      case Feedback(_, _) =>
      case Forgetting(_, _) =>
      case Importing(_, _, _) =>
      case BackUp(reason, millis, createdAt) => MakeBackupIsSafe(s, reason, millis, createdAt, approved);
      case ScheduledBackUp(_, millis, createdAt) => MakeBackupIsSafe(s, "scheduled", millis, createdAt, approved);
      case Scheduling(_, _, _) =>
      case Restoring(_) =>
      case _ => PlaneStepIsSafe(s, op, approved);
    }
  }

  /** `states` is a run from the empty registry. */
  ghost predicate History(states: seq<Whole>, ops: seq<Op>) {
    && |states| == |ops| + 1 && states[0] == START
    && forall i :: 0 <= i < |ops| ==> states[i + 1] == Step(states[i], ops[i])
  }

  /** Everything that evaluations accepted before the `i`-th state. */
  ghost function Approved(states: seq<Whole>, ops: seq<Op>, i: nat): Approvals
    requires |states| == |ops| + 1 && i <= |ops|
  {
    if i == 0 then {} else Approved(states, ops, i - 1) + Gains(states[i - 1], ops[i - 1])
  }

  lemma {:induction false} HistoryIsSafe(states: seq<Whole>, ops: seq<Op>, i: nat)
    requires History(states, ops) && i <= |ops|
    ensures AllSafe(states[i], Approved(states, ops, i))
  {
    if i == 0 {
      StartIsSafe();
    } else {
      HistoryIsSafe(states, ops, i - 1);
      StepIsSafe(states[i - 1], ops[i - 1], Approved(states, ops, i - 1));
      assert states[i - 1 + 1] == Step(states[i - 1], ops[i - 1]);
    }
  }

  lemma StartIsSafe()
    ensures AllSafe(START, {})
  {
  }

  /** After every operation of every run, restores included, the active model, if any, is registered, healthy,
  not quarantined and accepted, and the checksum on record is one that an evaluation accepted. */
  lemma ActiveModelIsSafe(states: seq<Whole>, ops: seq<Op>, i: nat)
    requires History(states, ops) && i <= |ops|
    ensures var r := states[i].plane.registry;
            r.active.Some? ==>
              r.active.value in r.models &&
              var m := r.models[r.active.value];
              m.healthy && !m.quarantined && m.accepted &&
              (r.active.value, m.checksum) in Approved(states, ops, i)
  {
    assert Safe(states[i].plane.registry, Approved(states, ops, i)) by {
      HistoryIsSafe(states, ops, i);
    }
  }

  /** Whenever a model answers, it is eligible after the discovery before it, and the checksum that the answer
  names is one that an evaluation accepted. */
  lemma AnswersAreApproved(states: seq<Whole>, ops: seq<Op>, i: nat, w: World, keys: seq<string>, error: Option<string>)
    requires History(states, ops) && i <= |ops|
    ensures var answer := Answered(states[i], w, keys, error);
            answer.FromModel? ==>
              EligibleName(Discover(states[i].plane, w).registry.models, answer.name) &&
              (answer.name, answer.checksum) in Approved(states, ops, i)
  {
    var approved := Approved(states, ops, i);
    assert Safe(states[i].plane.registry, approved) by {
      HistoryIsSafe(states, ops, i);
    }
    DiscoverIsSafe(states[i].plane, w, approved);
  }

  // ---------- The active model stays active ----------

  /** The model files an operation looks at, if it does. */
  function Looks(op: Op): Option<World> {
    match op
    case Discovery(w) => Some(w)
    case Validation(w, _) => Some(w)
    case Evaluation(w, _, _, _, _) => Some(w)
    case Recovery(w, _) => Some(w)
    case Classification(w, _, _) => Some(w)
    case _ => None
  }

  /** The operation does not concern the active model `name`: its file is unchanged, no failure of it is found or
  reported, it is not rejected, and nothing else is activated, recovered or restored. */
  ghost predicate Undisturbed(s: Whole, op: Op, name: string)
    requires name in s.plane.registry.models
  {
    && (Looks(op).Some? ==> SameFile(s.plane, Looks(op).value.files, name))
    && match op
       case Validation(w, other) => other == name ==> Passing(s.plane, w, name)
       case Evaluation(w, raw, cases, minAccuracy, activate) =>
         var outcome := Evaluate(s.plane, w, Strip(raw), cases, minAccuracy, activate).1;
         if Strip(raw) == name then Passing(Discover(s.plane, w), w, name) && !outcome.Rejected?
         else outcome != Accepted(true)
       case FailureReport(_, other, _) => other != name
       case Recovery(w, other) =>
         if other == name then Passing(s.plane, w, name)
         else Validate(s.plane, w, other).1.Loadable? ==> !Validate(s.plane, w, other).0.registry.models[other].accepted
       case Classification(w, keys, error) =>
         Matching(s.learning.overrides, keys).None? && w.runtime ==>
           error.None? && (name in s.plane.sessions || w.loadError.None?)
       case Restoring(_) => false
       case _ => true
  }

  lemma ClassifyLeavesStanding(s: Whole, w: World, keys: seq<string>, error: Option<string>, name: string)
    requires Stands(s.plane, name) && Undisturbed(s, Classification(w, keys, error), name)
    ensures Stands(Classify(s, w, keys, error).plane, name)
  {
    var found := Discover(s.plane, w);
    DiscoverLeavesStanding(s.plane, w, name);
    FindAllKeepsSessions(s.plane, w.files, w.runtime, w.now);
    if Matching(s.learning.overrides, keys).None? {
      InferLeavesStanding(found, w, error, name);
    }
  }

  lemma StepLeavesStanding(s: Whole, op: Op, name: string)
    requires Stands(s.plane, name) && Undisturbed(s, op, name)
    ensures Stands(Step(s, op).plane, name)
  {
    match op
    case Discovery(w) => DiscoverLeavesStanding(s.plane, w, name);
    case Validation(w, other) => ValidateLeavesStanding(s.plane, w, other, name);
    case Evaluation(w, raw, cases, minAccuracy, activate) =>
      EvaluateLeavesStanding(s.plane, w, Strip(raw), cases, minAccuracy, activate, name);
    case FailureReport(w, other, reason) =>
      ReportLeavesStanding(s.plane, other, reason, w.runtime, w.now, name);
    case Recovery(w, other) => RecoverLeavesStanding(s.plane, w, other, name);
    case Classification(w, keys, error) => ClassifyLeavesStanding(s, w, keys, error, name);
    case _ =>
  }

  /** Over every run: a model that is active stays active through all operations that do not disturb it. */
  lemma {:induction false} ActiveModelStays(states: seq<Whole>, ops: seq<Op>, from: nat, i: nat, name: string)
    requires History(states, ops) && from <= i <= |ops| && Stands(states[from].plane, name)
    requires forall k :: from <= k < i ==>
               name in states[k].plane.registry.models ==> Undisturbed(states[k], ops[k], name)
    ensures Stands(states[i].plane, name)
  {
    if i == from {
    } else {
      var m := i - 1;
      ActiveModelStays(states, ops, from, m, name);
      assert states[m + 1] == Step(states[m], ops[m]);
      StepLeavesStanding(states[m], ops[m], name);
    }
  }

  // ---------- Answers and failures ----------

  /** Where no override applies: if the active model answers, nothing about it changes; if there is one and a runtime,
  and the rules answer instead, its failure is on record and it is out. */
  lemma AnswerOrFailure(p: Plane, w: World, error: Option<string>)
    requires p.registry.active.Some? && p.registry.active.value != "" && p.registry.active.value in p.registry.models
    ensures var name, after := p.registry.active.value, Infer(p, w, error);
            && (Asked(p, w, error) ==
                if w.runtime && error.None? && (name in p.sessions || w.loadError.None?)
                then FromModel(name, p.registry.models[name].checksum) else Rules)
            && (Asked(p, w, error).FromModel? || !w.runtime ==> after.registry == p.registry)
            && (Asked(p, w, error).Rules? && w.runtime ==>
                  name in after.registry.models && after.registry.models[name].quarantined &&
                  after.registry.active != Some(name) && name !in after.sessions)
  {
    var name := p.registry.active.value;
    forall reason
      ensures var after := Report(p, name, reason, w.runtime, w.now);
              name in after.registry.models && after.registry.models[name].quarantined &&
              after.registry.active != Some(name) && name !in after.sessions
      ensures var after := Report(WithSession(p, name), name, reason, w.runtime, w.now);
              name in after.registry.models && after.registry.models[name].quarantined &&
              after.registry.active != Some(name) && name !in after.sessions
    {
      ReportedModelIsOut(p, name, reason, w.runtime, w.now);
      ReportedModelIsOut(WithSession(p, name), name, reason, w.runtime, w.now);
    }
  }

  // ---------- Learned overrides decide ----------

  /** The keys under which `_learned_override` looks, in order. */
  function MailKeys(email: string, sender: string, domain: string): seq<string> {
    (if email == "" then [] else ["sender:" + email]) +
    (if sender == "" then [] else ["sender:" + sender]) +
    (if domain == "" then [] else ["domain:" + domain])
  }

  predicate ForDomain(f: LearningMemory.Feedback) { f.scope == "domain" && f.domain != "" }

  /** There is an override for the sender itself, by address or by name. */
  predicate SenderKnown(overrides: map<string, LearningMemory.Override>, f: LearningMemory.Feedback) {
    (f.email != "" && "sender:" + f.email in overrides) || (f.sender != "" && "sender:" + f.sender in overrides)
  }

  lemma {:induction false} MatchingIsFirst(overrides: map<string, LearningMemory.Override>, keys: seq<string>, k: nat)
    requires k < |keys| && keys[k] in overrides && forall i :: 0 <= i < k ==> keys[i] !in overrides
    ensures Matching(overrides, keys) == Some(keys[k])
  {
    if k == 0 {
    } else {
      assert keys[0] !in overrides;
      assert forall i :: 0 < i < |keys| ==> keys[i] == keys[1..][i - 1];
      MatchingIsFirst(overrides, keys[1..], k - 1);
    }
  }

  lemma {:induction false} MatchingComesEarlier(overrides: map<string, LearningMemory.Override>, keys: seq<string>,
                                                k: nat)
    requires k < |keys| && keys[k] in overrides
    ensures exists i :: 0 <= i <= k && Matching(overrides, keys) == Some(keys[i])
  {
    if keys[0] in overrides {
    } else {
      assert k > 0 && keys[k] == keys[1..][k - 1];
      MatchingComesEarlier(overrides, keys[1..], k - 1);
      var i :| 0 <= i <= k - 1 && Matching(overrides, keys[1..]) == Some(keys[1..][i]);
      assert keys[i + 1] == keys[1..][i];
    }
  }

  lemma AnsweredIffMatching(s: Whole, w: World, keys: seq<string>, error: Option<string>, key: string)
    requires key in s.learning.overrides
    ensures var category := s.learning.overrides[key].category;
            Answered(s, w, keys, error) == Learned(key, if category == "" then "Personal" else category) <==>
            Matching(s.learning.overrides, keys) == Some(key)
  {
  }

  lemma LearnedOverrides(s: Whole, raw: LearningMemory.RawFeedback, now: real)
    requires !LearningMemory.Ignored(LearningMemory.Cleaned(raw))
    ensures var f := LearningMemory.Cleaned(raw);
            var before, after := s.learning.overrides, Step(s, Feedback(raw, now)).learning.overrides;
            && LearningMemory.KeyOf(f) in after && after[LearningMemory.KeyOf(f)].category == f.actual != ""
            && forall key :: key != LearningMemory.KeyOf(f) ==> (key in before <==> key in after)
  {
  }

  lemma MatchingIffNotShadowed(before: map<string, LearningMemory.Override>,
                               overrides: map<string, LearningMemory.Override>, f: LearningMemory.Feedback)
    requires !LearningMemory.Ignored(f) && LearningMemory.KeyOf(f) in overrides
    requires forall key :: key != LearningMemory.KeyOf(f) ==> (key in before <==> key in overrides)
    ensures Matching(overrides, MailKeys(f.email, f.sender, f.domain)) == Some(LearningMemory.KeyOf(f)) <==>
            !(ForDomain(f) && SenderKnown(before, f))
  {
    if !ForDomain(f) {
      MatchingIsFirst(overrides, MailKeys(f.email, f.sender, f.domain), 0);
    } else {
      DomainFeedbackIsFollowedIff(before, overrides, f);
    }
  }

  /** Feedback decides the next mail of its sender, with the category it gave, exactly unless it was given for the
  whole domain and an override for the sender itself stands in its way. */
  lemma FeedbackIsFollowedIff(s: Whole, raw: LearningMemory.RawFeedback, now: real, w: World, error: Option<string>)
    requires !LearningMemory.Ignored(LearningMemory.Cleaned(raw))
    ensures var f := LearningMemory.Cleaned(raw);
            var answer := Answered(Step(s, Feedback(raw, now)), w, MailKeys(f.email, f.sender, f.domain), error);
            answer == Learned(LearningMemory.KeyOf(f), f.actual) <==>
            !(ForDomain(f) && SenderKnown(s.learning.overrides, f))
  {
    var f, after := LearningMemory.Cleaned(raw), Step(s, Feedback(raw, now));
    LearnedOverrides(s, raw, now);
    MatchingIffNotShadowed(s.learning.overrides, after.learning.overrides, f);
    AnsweredIffMatching(after, w, MailKeys(f.email, f.sender, f.domain), error, LearningMemory.KeyOf(f));
  }

  lemma DomainFeedbackIsFollowedIff(before: map<string, LearningMemory.Override>,
                                    overrides: map<string, LearningMemory.Override>, f: LearningMemory.Feedback)
    requires ForDomain(f) && "domain:" + f.domain in overrides
    requires forall key :: key != "domain:" + f.domain ==> (key in before <==> key in overrides)
    ensures Matching(overrides, MailKeys(f.email, f.sender, f.domain)) == Some("domain:" + f.domain) <==>
            !SenderKnown(before, f)
  {
    var keys := MailKeys(f.email, f.sender, f.domain);
    var last := |keys| - 1;
    assert forall i :: 0 <= i < last ==> keys[i][0] == 's';
    if !SenderKnown(before, f) {
      MatchingIsFirst(overrides, keys, last);
    } else {
      var k := if f.email != "" && "sender:" + f.email in before then 0 else last - 1;
      MatchingComesEarlier(overrides, keys, k);
    }
  }

  // ---------- Hits and counters ----------

  /** The operation leaves it to feedback and mails what happens to the override of `key`. */
  predicate KeepsKey(op: Op, key: string) {
    !op.Restoring? && !op.Importing? && (op.Forgetting? ==> Strip(op.key) != key)
  }

  /** How many mails the override of `key` decides. */
  function HitCount(states: seq<Whole>, ops: seq<Op>, from: nat, i: nat, key: string): nat
    requires |states| == |ops| + 1 && from <= i <= |ops|
  {
    if i == from then 0
    else
      HitCount(states, ops, from, i - 1, key) +
      if ops[i - 1].Classification? && Matching(states[i - 1].learning.overrides, ops[i - 1].keys) == Some(key) then 1
      else 0
  }

  lemma HitsAfter(s: Whole, op: Op, key: string)
    requires key in s.learning.overrides && KeepsKey(op, key)
    ensures key in Step(s, op).learning.overrides
    ensures Step(s, op).learning.overrides[key].hits == s.learning.overrides[key].hits +
            if op.Classification? && Matching(s.learning.overrides, op.keys) == Some(key) then 1 else 0
  {
  }

  /** One step of the hits. */
  ghost predicate HitsStep(states: seq<Whole>, ops: seq<Op>, from: nat, i: nat, key: string)
    requires |states| == |ops| + 1 && from <= i < |ops|
  {
    key in states[i].learning.overrides ==>
      && key in states[i + 1].learning.overrides
      && states[i + 1].learning.overrides[key].hits - states[i].learning.overrides[key].hits ==
         HitCount(states, ops, from, i + 1, key) - HitCount(states, ops, from, i, key)
  }

  lemma {:induction false} HitsAddUp(states: seq<Whole>, ops: seq<Op>, from: nat, i: nat, key: string)
    requires |states| == |ops| + 1 && from <= i <= |ops| && key in states[from].learning.overrides
    requires forall k :: from <= k < i ==> HitsStep(states, ops, from, k, key)
    ensures key in states[i].learning.overrides
    ensures states[i].learning.overrides[key].hits ==
            states[from].learning.overrides[key].hits + HitCount(states, ops, from, i, key)
  {
    if i == from {
    } else {
      var m := i - 1;
      HitsAddUp(states, ops, from, m, key);
      assert HitsStep(states, ops, from, m, key);
    }
  }

  /** Between imports and restores the hits of an override are the mails it has decided, whatever feedback changes about
  it, until it is forgotten. */
  lemma HitsAreCounted(states: seq<Whole>, ops: seq<Op>, from: nat, i: nat, key: string)
    requires History(states, ops) && from <= i <= |ops| && key in states[from].learning.overrides
    requires forall k :: from <= k < i ==> KeepsKey(ops[k], key)
    ensures key in states[i].learning.overrides
    ensures states[i].learning.overrides[key].hits ==
            states[from].learning.overrides[key].hits + HitCount(states, ops, from, i, key)
  {
    forall k | from <= k < i
      ensures HitsStep(states, ops, from, k, key)
    {
      if key in states[k].learning.overrides {
        HitsAfter(states[k], ops[k], key);
      }
    }
    HitsAddUp(states, ops, from, i, key);
  }

  /** What an operation adds to the counters of the learning memory. */
  function Counted(s: Whole, op: Op): LearningMemory.Stats {
    LearningMemory.Stats(
      if op.Feedback? && !LearningMemory.Ignored(LearningMemory.Cleaned(op.raw)) then 1 else 0,
      if op.Forgetting? && Strip(op.key) != "" && Strip(op.key) in s.learning.overrides then 1 else 0,
      if op.Importing? && !LearningMemory.Import(s.learning, op.items, op.replace, op.now).1.raised
      then LearningMemory.Import(s.learning, op.items, op.replace, op.now).1.imported else 0)
  }

  function CountedUpTo(states: seq<Whole>, ops: seq<Op>, from: nat, i: nat): LearningMemory.Stats
    requires |states| == |ops| + 1 && from <= i <= |ops|
  {
    if i == from then LearningMemory.Stats(0, 0, 0)
    else Plus(CountedUpTo(states, ops, from, i - 1), Counted(states[i - 1], ops[i - 1]))
  }

  function Plus(x: LearningMemory.Stats, y: LearningMemory.Stats): LearningMemory.Stats {
    LearningMemory.Stats(x.corrected + y.corrected, x.forgotten + y.forgotten, x.imported + y.imported)
  }

  lemma LearningStatsAfter(s: Whole, op: Op)
    requires op.Feedback? || op.Forgetting? || op.Importing?
    ensures Step(s, op).learning.stats == Plus(s.learning.stats, Counted(s, op))
  {
    match op
    case Feedback(raw, now) =>
    case Forgetting(key, now) =>
    case Importing(items, replace, now) => ImportCounts(s, items, replace, now);
  }

  lemma ImportCounts(s: Whole, items: seq<LearningMemory.Incoming>, replace: bool, now: real)
    ensures var t, p := Import(s, items, replace, now).learning.stats,
                        LearningMemory.Import(s.learning, items, replace, now).1;
            t == s.learning.stats.(imported := s.learning.stats.imported + if p.raised then 0 else p.imported)
  {
  }

  /** An import that raises changes the learning memory only, and what is on disk stays as it was. */
  lemma RaisedImportIsNotSaved(s: Whole, items: seq<LearningMemory.Incoming>, replace: bool, now: real)
    requires !LearningMemory.WellTyped(items)
    ensures var (m, p) := LearningMemory.Import(s.learning, items, replace, now);
            && p.raised
            && Import(s, items, replace, now) == Whole(s.plane, m, s.disk, s.vault)
  {
    LearningMemory.ImportRaisesIff(LearningMemory.StartImport(s.learning, replace), items, now);
  }

  lemma OtherStatsAfter(s: Whole, op: Op)
    requires !op.Restoring? && !op.Feedback? && !op.Forgetting? && !op.Importing?
    ensures Step(s, op).learning.stats == s.learning.stats && Counted(s, op) == LearningMemory.Stats(0, 0, 0)
  {
  }

  ghost predicate StatsStep(states: seq<Whole>, ops: seq<Op>, i: nat)
    requires |states| == |ops| + 1 && i < |ops|
  {
    states[i + 1].learning.stats == Plus(states[i].learning.stats, Counted(states[i], ops[i]))
  }

  lemma {:induction false} StatsAddUp(states: seq<Whole>, ops: seq<Op>, from: nat, i: nat)
    requires |states| == |ops| + 1 && from <= i <= |ops| && forall k :: from <= k < i ==> StatsStep(states, ops, k)
    ensures states[i].learning.stats == Plus(states[from].learning.stats, CountedUpTo(states, ops, from, i))
  {
    if i == from {
    } else {
      StatsAddUp(states, ops, from, i - 1);
      assert StatsStep(states, ops, i - 1);
    }
  }

  /** Between restores the counters count feedback that is learned, keys that are forgotten and items of imports that
  go through. */
  lemma StatsAreCounted(states: seq<Whole>, ops: seq<Op>, from: nat, i: nat)
    requires History(states, ops) && from <= i <= |ops| && forall k :: from <= k < i ==> !ops[k].Restoring?
    ensures states[i].learning.stats == Plus(states[from].learning.stats, CountedUpTo(states, ops, from, i))
  {
    forall k | from <= k < i
      ensures StatsStep(states, ops, k)
    {
      if ops[k].Feedback? || ops[k].Forgetting? || ops[k].Importing? {
        LearningStatsAfter(states[k], ops[k]);
      } else {
        OtherStatsAfter(states[k], ops[k]);
      }
    }
    StatsAddUp(states, ops, from, i);
  }

  // ---------- The journal of corrections ----------

  /** What an operation adds to the list of corrections. */
  function Journaled(s: Whole, op: Op): seq<LearningMemory.Correction> {
    match op
    case Feedback(raw, now) =>
      var f := LearningMemory.Cleaned(raw);
      if LearningMemory.Ignored(f) then []
      else [LearningMemory.Correction(LearningMemory.KeyOf(f), "learned", f.predicted, f.actual, f.priority, now)]
    case Forgetting(key, now) =>
      if Strip(key) == "" || Strip(key) !in s.learning.overrides then []
      else
        var o := s.learning.overrides[Strip(key)];
        [LearningMemory.Correction(Strip(key), "forgotten", o.predicted, o.category, o.priority, now)]
    case Importing(items, replace, now) => LearningMemory.EntriesOf(items, now)
    case _ => []
  }

  function Journal(states: seq<Whole>, ops: seq<Op>, from: nat, i: nat): seq<LearningMemory.Correction>
    requires |states| == |ops| + 1 && from <= i <= |ops|
  {
    if i == from then [] else Journal(states, ops, from, i - 1) + Journaled(states[i - 1], ops[i - 1])
  }

  /** `entries` have been appended to `before`, whether or not the list has been cut since. */
  ghost predicate Appended(before: seq<LearningMemory.Correction>, entries: seq<LearningMemory.Correction>,
                           after: seq<LearningMemory.Correction>) {
    LearningMemory.Recent(after) == LearningMemory.Recent(before + entries)
  }

  lemma AppendedNow(before: seq<LearningMemory.Correction>, entries: seq<LearningMemory.Correction>)
    ensures Appended(before, entries, before + entries)
    ensures Appended(before, entries, LearningMemory.Recent(before + entries))
    ensures Appended(before, [], before)
  {
    LearningMemory.RecentLaws(before + entries, []);
    assert before + [] == before;
    assert LearningMemory.Recent(before + entries) + [] == LearningMemory.Recent(before + entries);
  }

  lemma ImportIsJournaled(s: Whole, items: seq<LearningMemory.Incoming>, replace: bool, now: real)
    ensures Appended(s.learning.corrections, LearningMemory.EntriesOf(items, now),
                     Import(s, items, replace, now).learning.corrections)
  {
    LearningMemory.ImportAppends(LearningMemory.StartImport(s.learning, replace), items, now);
    AppendedNow(s.learning.corrections, LearningMemory.EntriesOf(items, now));
  }

  ghost predicate IsJournaled(s: Whole, op: Op) {
    Appended(s.learning.corrections, Journaled(s, op), Step(s, op).learning.corrections)
  }

  lemma FeedbackIsJournaled(s: Whole, raw: LearningMemory.RawFeedback, now: real)
    ensures IsJournaled(s, Feedback(raw, now))
  {
    AppendedNow(s.learning.corrections, Journaled(s, Feedback(raw, now)));
  }

  lemma ForgettingIsJournaled(s: Whole, key: string, now: real)
    ensures IsJournaled(s, Forgetting(key, now))
  {
    AppendedNow(s.learning.corrections, Journaled(s, Forgetting(key, now)));
  }

  lemma OthersAreJournaled(s: Whole, op: Op)
    requires !op.Restoring? && !op.Feedback? && !op.Forgetting? && !op.Importing?
    ensures IsJournaled(s, op)
  {
    AppendedNow(s.learning.corrections, []);
    assert Step(s, op).learning.corrections == s.learning.corrections && Journaled(s, op) == [];
  }

  lemma StepIsJournaled(s: Whole, op: Op)
    requires !op.Restoring?
    ensures IsJournaled(s, op)
  {
    if op.Importing? {
      ImportIsJournaled(s, op.items, op.replace, op.now);
    } else if op.Feedback? {
      FeedbackIsJournaled(s, op.raw, op.now);
    } else if op.Forgetting? {
      ForgettingIsJournaled(s, op.key, op.now);
    } else {
      OthersAreJournaled(s, op);
    }
  }

  ghost predicate JournalStep(states: seq<Whole>, ops: seq<Op>, i: nat)
    requires |states| == |ops| + 1 && i < |ops|
  {
    Appended(states[i].learning.corrections, Journaled(states[i], ops[i]), states[i + 1].learning.corrections)
  }

  lemma AppendAgain(start: seq<LearningMemory.Correction>, now: seq<LearningMemory.Correction>,
                    before: seq<LearningMemory.Correction>, entries: seq<LearningMemory.Correction>)
    requires LearningMemory.Recent(now) == LearningMemory.Recent(start + before)
    ensures LearningMemory.Recent(now + entries) == LearningMemory.Recent(start + (before + entries))
  {
    LearningMemory.RecentLaws(now, entries);
    LearningMemory.RecentLaws(start + before, entries);
    assert start + (before + entries) == start + before + entries;
  }

  lemma {:induction false} JournalAddsUp(states: seq<Whole>, ops: seq<Op>, from: nat, i: nat)
    requires |states| == |ops| + 1 && from <= i <= |ops| && forall k :: from <= k < i ==> JournalStep(states, ops, k)
    ensures LearningMemory.Recent(states[i].learning.corrections) ==
            LearningMemory.Recent(states[from].learning.corrections + Journal(states, ops, from, i))
  {
    var start := states[from].learning.corrections;
    if i == from {
      assert start + Journal(states, ops, from, i) == start;
    } else {
      JournalAddsUp(states, ops, from, i - 1);
      assert JournalStep(states, ops, i - 1);
      AppendAgain(start, states[i - 1].learning.corrections, Journal(states, ops, from, i - 1),
                  Journaled(states[i - 1], ops[i - 1]));
    }
  }

  /** Between restores the last 500 corrections are the last 500 of all that was ever learned, forgotten and imported,
  imports that raise half-way included. */
  lemma CorrectionsAreNewest(states: seq<Whole>, ops: seq<Op>, from: nat, i: nat)
    requires History(states, ops) && from <= i <= |ops| && forall k :: from <= k < i ==> !ops[k].Restoring?
    ensures LearningMemory.Recent(states[i].learning.corrections) ==
            LearningMemory.Recent(states[from].learning.corrections + Journal(states, ops, from, i))
  {
    forall k | from <= k < i
      ensures JournalStep(states, ops, k)
    {
      StepIsJournaled(states[k], ops[k]);
    }
    JournalAddsUp(states, ops, from, i);
  }

  // ---------- When a scheduled backup is taken ----------

  /** Whether the schedule is on and how many seconds lie between its backups, by the latest call that set it. */
  function LatestSchedule(ops: seq<Op>): (bool, int) {
    if ops == [] then (true, 86400)
    else
      match ops[|ops| - 1]
      case Scheduling(enabled, interval, _) =>
        (enabled, if interval == 0 then 86400 else if interval < 60 then 60 else interval)
      case _ => LatestSchedule(ops[..|ops| - 1])
  }

  /** When the latest backup for the reason "scheduled" was taken, 0 if there is none. */
  function LatestScheduled(states: seq<Whole>, ops: seq<Op>, i: nat): real
    requires |states| == |ops| + 1 && i <= |ops|
  {
    if i == 0 then 0.0
    else if BacksUp(states[i - 1], ops[i - 1]).Some? && (ops[i - 1].BackUp? ==> ops[i - 1].reason == "scheduled") then
      ops[i - 1].createdAt
    else LatestScheduled(states, ops, i - 1)
  }

  /** What an operation does to the schedule, given whether it takes a backup. */
  predicate Reschedules(before: Schedule, op: Op, backsUp: bool, after: Schedule) {
    if op.Scheduling? then
      && after.enabled == op.enabled && after.lastBackupAt == before.lastBackupAt
      && after.interval == if op.interval == 0 then 86400 else if op.interval < 60 then 60 else op.interval
    else
      && after.enabled == before.enabled && after.interval == before.interval
      && after.lastBackupAt == if backsUp && (op.ScheduledBackUp? || (op.BackUp? && op.reason == "scheduled"))
                               then op.createdAt else before.lastBackupAt
  }

  lemma ScheduleAfter(s: Whole, op: Op)
    ensures Reschedules(s.vault.schedule, op, BacksUp(s, op).Some?, Step(s, op).vault.schedule)
  {
  }

  ghost predicate ScheduleStep(states: seq<Whole>, ops: seq<Op>, i: nat)
    requires |states| == |ops| + 1 && i < |ops|
  {
    Reschedules(states[i].vault.schedule, ops[i], BacksUp(states[i], ops[i]).Some?, states[i + 1].vault.schedule)
  }

  lemma {:induction false} ScheduleIsLatest(states: seq<Whole>, ops: seq<Op>, i: nat)
    requires |states| == |ops| + 1 && states[0] == START && i <= |ops|
    requires forall k :: 0 <= k < i ==> ScheduleStep(states, ops, k)
    ensures var v := states[i].vault.schedule;
            (v.enabled, v.interval) == LatestSchedule(ops[..i]) && v.lastBackupAt == LatestScheduled(states, ops, i)
  {
    if i == 0 {
    } else {
      ScheduleIsLatest(states, ops, i - 1);
      assert ScheduleStep(states, ops, i - 1);
      assert ops[..i][..i - 1] == ops[..i - 1];
    }
  }

  /** Over every run: the scheduler takes a backup exactly if the schedule is on and, since the latest scheduled backup,
  if there is one, as much time has passed as the schedule says. */
  lemma ScheduledBackupIff(states: seq<Whole>, ops: seq<Op>, i: nat)
    requires History(states, ops) && i < |ops| && ops[i].ScheduledBackUp?
    ensures var (enabled, seconds) := LatestSchedule(ops[..i]);
            var latest := LatestScheduled(states, ops, i);
            BacksUp(states[i], ops[i]).Some? <==>
            enabled && (latest == 0.0 || ops[i].now - latest >= seconds as real)
    ensures LatestSchedule(ops[..i]).1 >= 60
  {
    forall k | 0 <= k < i
      ensures ScheduleStep(states, ops, k)
    {
      ScheduleAfter(states[k], ops[k]);
    }
    ScheduleIsLatest(states, ops, i);
    AtLeastAMinute(ops[..i]);
  }

  lemma {:induction false} AtLeastAMinute(ops: seq<Op>)
    ensures LatestSchedule(ops).1 >= 60
  {
    if ops == [] || ops[|ops| - 1].Scheduling? {
    } else {
      AtLeastAMinute(ops[..|ops| - 1]);
    }
  }

  // ---------- Which overrides an export cannot bring back ----------

  /** Times of day are never zero. */
  predicate Ticking(op: Op) { op.Feedback? || op.Importing? ==> op.now != 0.0 }

  /** In memory, in the state files and in every backup. */
  ghost predicate StorableEverywhere(s: Whole) {
    && LearningMemory.AllStorable(s.learning.overrides)
    && LearningMemory.AllStorable(s.disk.learning.overrides)
    && forall id :: id in s.vault.folders ==> LearningMemory.AllStorable(s.vault.folders[id].learning.overrides)
  }

  lemma WithLearningIsStorable(s: Whole, m: LearningMemory.Memory)
    requires StorableEverywhere(s) && LearningMemory.AllStorable(m.overrides)
    ensures StorableEverywhere(WithLearning(s, m))
  {
  }

  lemma VaultStepIsStorable(s: Whole, op: Op)
    requires StorableEverywhere(s) && (BacksUp(s, op).Some? || op.Scheduling?)
    ensures StorableEverywhere(Step(s, op))
  {
    if BacksUp(s, op).Some? {
      var id := FormatId(BacksUp(s, op).value, |s.vault.index| + 1);
      var folders := s.vault.folders[id := InMemory(s)];
      assert forall x :: x in folders ==> LearningMemory.AllStorable(folders[x].learning.overrides);
      assert forall x :: x in Step(s, op).vault.folders ==> x in folders && Step(s, op).vault.folders[x] == folders[x];
    }
  }

  lemma LearningStepIsStorable(s: Whole, op: Op)
    requires StorableEverywhere(s) && Ticking(op) && (op.Feedback? || op.Forgetting? || op.Importing?)
    ensures StorableEverywhere(Step(s, op))
  {
    match op
    case Feedback(raw, now) =>
      LearningMemory.LearnKeepsStorable(s.learning, raw, now);
      WithLearningIsStorable(s, LearningMemory.Learn(s.learning, LearningMemory.Cleaned(raw), now));
    case Forgetting(key, now) =>
      WithLearningIsStorable(s, LearningMemory.Forget(s.learning, key, now));
    case Importing(items, replace, now) =>
      LearningMemory.ImportKeepsStorable(s.learning, items, replace, now);
      WithLearningIsStorable(s, LearningMemory.Import(s.learning, items, replace, now).0);
  }

  lemma StepIsStorable(s: Whole, op: Op)
    requires StorableEverywhere(s) && Ticking(op)
    ensures StorableEverywhere(Step(s, op))
  {
    if BacksUp(s, op).Some? || op.Scheduling? {
      VaultStepIsStorable(s, op);
    } else if op.Feedback? || op.Forgetting? || op.Importing? {
      LearningStepIsStorable(s, op);
    } else if op.Classification? {
      var key := Matching(s.learning.overrides, op.keys);
      MatchingIsKnown(s.learning.overrides, op.keys);
      if key.Some? {
        WithLearningIsStorable(WithPlane(s, Discover(s.plane, op.w)), LearningMemory.Hit(s.learning, key.value));
      }
    }
  }

  lemma {:induction false} HistoryIsStorable(states: seq<Whole>, ops: seq<Op>, i: nat)
    requires History(states, ops) && i <= |ops| && forall op :: op in ops ==> Ticking(op)
    ensures StorableEverywhere(states[i])
  {
    if i == 0 {
    } else {
      var m := i - 1;
      HistoryIsStorable(states, ops, m);
      assert ops[m] in ops && states[m + 1] == Step(states[m], ops[m]);
      StepIsStorable(states[m], ops[m]);
    }
  }

  /** Over every run, restores and imports included: an override cannot be brought back by an export exactly if its
  priority is blank, or its scope is and its key has a prefix. Nothing else ever goes wrong with one. */
  lemma OnlyBlankFieldsAreLost(states: seq<Whole>, ops: seq<Op>, i: nat, key: string, at: real)
    requires History(states, ops) && i <= |ops| && forall op :: op in ops ==> Ticking(op)
    requires key in states[i].learning.overrides
    ensures var o := states[i].learning.overrides[key];
            LearningMemory.Restorable(key, o, at) <==>
            o.priority != "" && (o.scope != "" || Strip(LearningMemory.Prefix(key)) == "")
  {
    HistoryIsStorable(states, ops, i);
    LearningMemory.RestorableIffNotBlank(key, states[i].learning.overrides[key], at);
  }

  // ---------- Restoring a backup ----------

  /** The `k`-th operation takes the backup `id`. */
  predicate Takes(states: seq<Whole>, ops: seq<Op>, k: nat, id: string)
    requires |states| == |ops| + 1
  {
    k < |ops| && BacksUp(states[k], ops[k]).Some? &&
    id == FormatId(BacksUp(states[k], ops[k]).value, |states[k].vault.index| + 1)
  }

  /** No two backups of the run have the same identifier. */
  ghost predicate IdsDiffer(states: seq<Whole>, ops: seq<Op>)
    requires |states| == |ops| + 1
  {
    forall i, j, id :: 0 <= i < j < |ops| && Takes(states, ops, i, id) ==> !Takes(states, ops, j, id)
  }

  /** Two operations that take backups in the same millisecond with the same number of backups in the index. */
  predicate Collide(states: seq<Whole>, ops: seq<Op>, i: nat, j: nat)
    requires |states| == |ops| + 1 && i < |ops| && j < |ops|
  {
    && BacksUp(states[i], ops[i]).Some?
    && BacksUp(states[i], ops[i]) == BacksUp(states[j], ops[j])
    && |states[i].vault.index| == |states[j].vault.index|
  }

  /** The identifiers of a run differ exactly when no two backups collide, in whatever order the milliseconds
  come. */
  lemma IdsDifferIff(states: seq<Whole>, ops: seq<Op>)
    requires |states| == |ops| + 1
    ensures IdsDiffer(states, ops) <==> forall i, j :: 0 <= i < j < |ops| ==> !Collide(states, ops, i, j)
  {
    forall i, j | 0 <= i < j < |ops| && Collide(states, ops, i, j)
      ensures !IdsDiffer(states, ops)
    {
      var id := FormatId(BacksUp(states[i], ops[i]).value, |states[i].vault.index| + 1);
      assert Takes(states, ops, i, id) && Takes(states, ops, j, id);
    }
    if !IdsDiffer(states, ops) {
      var i, j, id :| 0 <= i < j < |ops| && Takes(states, ops, i, id) && Takes(states, ops, j, id);
      FormatIdInjective(BacksUp(states[i], ops[i]).value, |states[i].vault.index| + 1,
                        BacksUp(states[j], ops[j]).value, |states[j].vault.index| + 1);
      assert Collide(states, ops, i, j);
    }
  }

  /** Every folder holds what was in memory when it was taken. */
  ghost predicate Faithful(states: seq<Whole>, ops: seq<Op>, i: nat)
    requires |states| == |ops| + 1 && i <= |ops|
  {
    forall id :: id in states[i].vault.folders ==>
      exists k :: 0 <= k < i && Takes(states, ops, k, id) && states[i].vault.folders[id] == InMemory(states[k])
  }

  lemma TakenOnce(states: seq<Whole>, ops: seq<Op>, k: nat, k': nat, id: string)
    requires |states| == |ops| + 1 && IdsDiffer(states, ops)
    requires Takes(states, ops, k, id) && Takes(states, ops, k', id)
    ensures k == k'
  {
  }

  /** An operation that takes no backup adds and changes no folder. */
  lemma OthersAddNoFolder(s: Whole, op: Op)
    requires Tidy(s.vault) && BacksUp(s, op).None?
    ensures Tidy(Step(s, op).vault)
    ensures forall id :: id in Step(s, op).vault.folders ==>
              id in s.vault.folders && Step(s, op).vault.folders[id] == s.vault.folders[id]
  {
    if op.Scheduling? {
      ConfigureKeepsTidy(s.vault, op.enabled, op.interval, op.retention);
    }
  }

  lemma BackUpAddsOneFolder(s: Whole, op: Op)
    requires Tidy(s.vault) && BacksUp(s, op).Some?
    requires FormatId(BacksUp(s, op).value, |s.vault.index| + 1) !in s.vault.folders
    ensures Tidy(Step(s, op).vault)
    ensures forall id :: id in Step(s, op).vault.folders ==>
              if id == FormatId(BacksUp(s, op).value, |s.vault.index| + 1)
              then Step(s, op).vault.folders[id] == InMemory(s)
              else id in s.vault.folders && Step(s, op).vault.folders[id] == s.vault.folders[id]
  {
    var reason := if op.BackUp? then op.reason else "scheduled";
    CreateKeepsTidy(Saved(s).vault, InMemory(s), reason, op.millis, op.createdAt);
  }

  lemma NewIdIsFresh(states: seq<Whole>, ops: seq<Op>, i: nat, id: string)
    requires |states| == |ops| + 1 && IdsDiffer(states, ops) && i < |ops|
    requires Faithful(states, ops, i) && Takes(states, ops, i, id)
    ensures id !in states[i].vault.folders
  {
  }

  lemma OneMoreStep(states: seq<Whole>, ops: seq<Op>, i: nat)
    requires |states| == |ops| + 1 && IdsDiffer(states, ops) && i < |ops|
    requires states[i + 1] == Step(states[i], ops[i])
    requires Tidy(states[i].vault) && Faithful(states, ops, i)
    ensures Tidy(states[i + 1].vault) && Faithful(states, ops, i + 1)
  {
    var s, op := states[i], ops[i];
    if BacksUp(s, op).None? {
      OthersAddNoFolder(s, op);
      StillFaithful(states, ops, i + 1, "");
    } else {
      var id := FormatId(BacksUp(s, op).value, |s.vault.index| + 1);
      NewIdIsFresh(states, ops, i, id);
      BackUpAddsOneFolder(s, op);
      StillFaithful(states, ops, i + 1, id);
    }
  }

  lemma StartIsTidy(states: seq<Whole>, ops: seq<Op>)
    requires |states| == |ops| + 1 && states[0] == START
    ensures Tidy(states[0].vault) && Faithful(states, ops, 0)
  {
  }

  lemma {:induction false} FoldersAreFaithful(states: seq<Whole>, ops: seq<Op>, i: nat)
    requires History(states, ops) && IdsDiffer(states, ops) && i <= |ops|
    ensures Tidy(states[i].vault) && Faithful(states, ops, i)
  {
    if i == 0 {
      StartIsTidy(states, ops);
    } else {
      var m := i - 1;
      FoldersAreFaithful(states, ops, m);
      assert states[m + 1] == Step(states[m], ops[m]);
      OneMoreStep(states, ops, m);
    }
  }

  /** Folders that stay as they were stay faithful; `id` is the new one, if there is one. */
  lemma StillFaithful(states: seq<Whole>, ops: seq<Op>, i: nat, id: string)
    requires |states| == |ops| + 1 && 0 < i <= |ops| && Faithful(states, ops, i - 1)
    requires forall x :: x in states[i].vault.folders ==>
               || (x in states[i - 1].vault.folders && states[i].vault.folders[x] == states[i - 1].vault.folders[x])
               || (x == id && Takes(states, ops, i - 1, x) && states[i].vault.folders[x] == InMemory(states[i - 1]))
    ensures Faithful(states, ops, i)
  {
    forall x | x in states[i].vault.folders
      ensures exists k :: 0 <= k < i && Takes(states, ops, k, x) && states[i].vault.folders[x] == InMemory(states[k])
    {
      if x in states[i - 1].vault.folders && states[i].vault.folders[x] == states[i - 1].vault.folders[x] {
        var k :| 0 <= k < i - 1 && Takes(states, ops, k, x) && states[i - 1].vault.folders[x] == InMemory(states[k]);
      }
    }
  }

  lemma FolderHolds(states: seq<Whole>, ops: seq<Op>, k: nat, i: nat, id: string)
    requires |states| == |ops| + 1 && IdsDiffer(states, ops) && i <= |ops|
    requires Faithful(states, ops, i) && Takes(states, ops, k, id) && id in states[i].vault.folders
    ensures states[i].vault.folders[id] == InMemory(states[k])
  {
    var taken :| 0 <= taken < i && Takes(states, ops, taken, id) &&
                 states[i].vault.folders[id] == InMemory(states[taken]);
    TakenOnce(states, ops, k, taken, id);
  }

  lemma RestoreReads(s: Whole, id: string)
    requires ValidId(id) && Strip(id) == id && id in s.vault.folders
    ensures var after := Restore(s, id);
            InMemory(after) == after.disk == s.vault.folders[id] && after.plane.sessions == map[] &&
            after.vault == s.vault
  {
  }

  /** A restore finds a backup by the index or by its folder. Without a folder it reads the files on disk again, and
  what was not saved is gone. An empty identifier, or one with a dot or a separator in it, restores nothing. */
  lemma RestoreDecides(s: Whole, rawId: string)
    ensures var id, after := Strip(rawId), Restore(s, rawId);
            && (id !in Ids(s.vault.index) && id !in s.vault.folders ==> after == s)
            && (id == "" || '/' in id || '\\' in id || '.' in id ==> after == s)
            && (ValidId(id) && (id in Ids(s.vault.index) || id in s.vault.folders) ==>
                  var files := if id in s.vault.folders then s.vault.folders[id] else s.disk;
                  after == Whole(Plane(files.registry, files.events, map[]), files.learning, files, s.vault))
  {
  }

  /** Whatever ran in between, restoring a backup that is still in the index brings back exactly the registry,
  the learning memory and the events that were in memory when it was taken, and drops all sessions. */
  lemma RestoreYieldsCreation(states: seq<Whole>, ops: seq<Op>, k: nat, i: nat, id: string)
    requires History(states, ops) && IdsDiffer(states, ops) && i <= |ops|
    requires Takes(states, ops, k, id) && id in Ids(states[i].vault.index)
    ensures var after := Restore(states[i], id);
            InMemory(after) == InMemory(states[k]) && after.disk == InMemory(states[k]) &&
            after.plane.sessions == map[] && after.vault == states[i].vault
  {
    FormatIdIsValid(BacksUp(states[k], ops[k]).value, |states[k].vault.index| + 1);
    assert Faithful(states, ops, i) && id in states[i].vault.folders by {
      FoldersAreFaithful(states, ops, i);
    }
    FolderHolds(states, ops, k, i, id);
    RestoreReads(states[i], id);
  }

  // ---------- What a collision does ----------

  /** The schedule is set to keep one backup, three backups are taken in one millisecond, something is learned, and
  the last of the three, the only one in the index, is restored. */
  ghost predicate CollidingRun(states: seq<Whole>, ops: seq<Op>, millis: nat, t: real) {
    && History(states, ops) && |ops| == 6
    && ops[0] == Scheduling(true, 86400, 1)
    && ops[1] == ops[2] == ops[3] == BackUp("", millis, t)
    && ops[4].Feedback? && !LearningMemory.Ignored(LearningMemory.Cleaned(ops[4].raw))
    && ops[5] == Restoring(FormatId(millis, 2))
  }

  /** What the first `k` backups of such a run leave in the vault. */
  ghost predicate OneBackup(v: Vault, id: string, t: real) {
    && |v.index| == 1 && v.index[0].id == id && v.index[0].createdAt == t && Limit(v.schedule.retention) == 1
  }

  lemma BackUpWithRoomForOne(s: Whole, millis: nat, t: real)
    requires Limit(s.vault.schedule.retention) == 1 && |s.vault.index| <= 1
    requires forall m :: m in s.vault.index ==> m.createdAt <= t
    ensures var id, v := FormatId(millis, |s.vault.index| + 1), Step(s, BackUp("", millis, t)).vault;
            OneBackup(v, id, t) && v.folders == s.vault.folders[id := InMemory(s)] - Ids(s.vault.index)
  {
    CreateWithRoomForOne(Saved(s).vault, InMemory(s), "", millis, t);
  }

  lemma BackUpAfterOne(s: Whole, id: string, millis: nat, t: real)
    requires OneBackup(s.vault, id, t)
    ensures var v := Step(s, BackUp("", millis, t)).vault;
            OneBackup(v, FormatId(millis, 2), t) && (id == FormatId(millis, 2) ==> id !in v.folders)
  {
    assert s.vault.index[0].id in Ids(s.vault.index);
    assert forall m :: m in s.vault.index ==> m == s.vault.index[0];
    BackUpWithRoomForOne(s, millis, t);
  }

  lemma ThreeBackups(s: Whole, s1: Whole, s2: Whole, s3: Whole, millis: nat, t: real)
    requires s.vault.index == [] && Limit(s.vault.schedule.retention) == 1
    requires var op := BackUp("", millis, t); s1 == Step(s, op) && s2 == Step(s1, op) && s3 == Step(s2, op)
    ensures |s1.vault.index| == |s2.vault.index| == 1 && OneBackup(s3.vault, FormatId(millis, 2), t)
    ensures FormatId(millis, 2) !in s3.vault.folders && s3.learning == s2.learning
  {
    BackUpWithRoomForOne(s, millis, t);
    BackUpAfterOne(s1, FormatId(millis, 1), millis, t);
    BackUpAfterOne(s2, FormatId(millis, 2), millis, t);
  }

  lemma ThenLearnAndRestore(s: Whole, s1: Whole, s2: Whole, op: Op, id: string)
    requires op.Feedback? && !LearningMemory.Ignored(LearningMemory.Cleaned(op.raw))
    requires |s.vault.index| == 1 && s.vault.index[0].id == id && id !in s.vault.folders
    requires ValidId(id) && Strip(id) == id && s1 == Step(s, op) && s2 == Step(s1, Restoring(id))
    ensures s1.vault == s.vault && id in Ids(s1.vault.index)
    ensures InMemory(s2) == InMemory(s1) && s1.learning.stats.corrected == s.learning.stats.corrected + 1
  {
    FeedbackAfterCollision(s, op, id);
    RestoreWithoutFolder(s1, id);
  }

  /** The folder that both share goes with the older of two colliding backups. The restore of the one in the index then
  finds no files and keeps what was learned in between: it does not bring back what was in memory. */
  lemma CollisionLosesBackup(states: seq<Whole>, ops: seq<Op>, millis: nat, t: real)
    requires CollidingRun(states, ops, millis, t)
    ensures var id := FormatId(millis, 2);
            && Collide(states, ops, 2, 3) && Takes(states, ops, 3, id)
            && id in Ids(states[5].vault.index) && id !in states[5].vault.folders
            && InMemory(states[6]) == InMemory(states[5]) != InMemory(states[3])
  {
    var id := FormatId(millis, 2);
    var s0, s1, s2, s3, s4, s5, s6 := states[0], states[1], states[2], states[3], states[4], states[5], states[6];
    assert Chain(s0, s1, s2, s3, s4, s5, s6, ops) by {
      assert states[0 + 1] == Step(s0, ops[0]) && states[1 + 1] == Step(s1, ops[1]);
      assert states[2 + 1] == Step(s2, ops[2]) && states[3 + 1] == Step(s3, ops[3]);
      assert states[4 + 1] == Step(s4, ops[4]) && states[5 + 1] == Step(s5, ops[5]);
    }
    EmptyVaultForOne(s0);
    ThreeBackups(s1, s2, s3, s4, millis, t);
    FormatIdIsValid(millis, 2);
    ThenLearnAndRestore(s4, s5, s6, ops[4], id);
  }

  ghost predicate Chain(s0: Whole, s1: Whole, s2: Whole, s3: Whole, s4: Whole, s5: Whole, s6: Whole, ops: seq<Op>)
    requires |ops| == 6
  {
    && s1 == Step(s0, ops[0]) && s2 == Step(s1, ops[1]) && s3 == Step(s2, ops[2])
    && s4 == Step(s3, ops[3]) && s5 == Step(s4, ops[4]) && s6 == Step(s5, ops[5])
  }

  lemma EmptyVaultForOne(s: Whole)
    requires s.vault == NEW_VAULT
    ensures var v := Step(s, Scheduling(true, 86400, 1)).vault; v.index == [] && Limit(v.schedule.retention) == 1
  {
  }

  lemma FeedbackAfterCollision(s: Whole, op: Op, id: string)
    requires op.Feedback? && !LearningMemory.Ignored(LearningMemory.Cleaned(op.raw))
    requires |s.vault.index| == 1 && s.vault.index[0].id == id
    ensures var t := Step(s, op);
            && t.vault == s.vault && id in Ids(t.vault.index)
            && t.learning.stats.corrected == s.learning.stats.corrected + 1 && t.disk == InMemory(t)
  {
    assert s.vault.index[0].id in Ids(s.vault.index);
  }

  lemma RestoreWithoutFolder(s: Whole, id: string)
    requires id in Ids(s.vault.index) && id !in s.vault.folders && ValidId(id) && Strip(id) == id
    requires s.disk == InMemory(s)
    ensures InMemory(Step(s, Restoring(id))) == InMemory(s)
  {
  }

  // ---------- Which backups are in the index ----------

  /** The entry that an operation adds to the index. */
  function Entry(s: Whole, op: Op): Manifest
    requires BacksUp(s, op).Some?
  {
    var reason := if op.ScheduledBackUp? then "scheduled" else if op.reason == "" then "manual" else op.reason;
    Manifest(FormatId(BacksUp(s, op).value, |s.vault.index| + 1), reason, op.createdAt)
  }

  /** What an operation puts in front of the index. */
  function NewEntry(s: Whole, op: Op): seq<Manifest> {
    if BacksUp(s, op).Some? then [Entry(s, op)] else []
  }

  /** All backups taken before the `i`-th state, the latest first. */
  function AllTaken(states: seq<Whole>, ops: seq<Op>, i: nat): seq<Manifest>
    requires |states| == |ops| + 1 && i <= |ops|
  {
    if i == 0 then [] else NewEntry(states[i - 1], ops[i - 1]) + AllTaken(states, ops, i - 1)
  }

  /** The clock does not run backwards from one backup to a later one. */
  ghost predicate ClockGoesOn(states: seq<Whole>, ops: seq<Op>)
    requires |states| == |ops| + 1
  {
    forall i, j :: 0 <= i < j < |ops| && BacksUp(states[i], ops[i]).Some? && BacksUp(states[j], ops[j]).Some? ==>
      ops[i].createdAt <= ops[j].createdAt
  }

  lemma {:induction false} TakenBefore(states: seq<Whole>, ops: seq<Op>, i: nat, k: nat, m: Manifest)
    requires |states| == |ops| + 1 && ClockGoesOn(states, ops) && i <= k < |ops|
    requires BacksUp(states[k], ops[k]).Some? && m in AllTaken(states, ops, i)
    ensures m.createdAt <= ops[k].createdAt
  {
    if i == 0 {
    } else if m in NewEntry(states[i - 1], ops[i - 1]) {
    } else {
      TakenBefore(states, ops, i - 1, k, m);
    }
  }

  lemma {:induction false} TakenDescends(states: seq<Whole>, ops: seq<Op>, i: nat)
    requires |states| == |ops| + 1 && ClockGoesOn(states, ops) && i <= |ops|
    ensures Descending(AllTaken(states, ops, i))
  {
    if i == 0 {
    } else {
      TakenDescends(states, ops, i - 1);
      forall m | m in AllTaken(states, ops, i - 1) && BacksUp(states[i - 1], ops[i - 1]).Some?
        ensures m.createdAt <= ops[i - 1].createdAt
      {
        TakenBefore(states, ops, i - 1, i - 1, m);
      }
    }
  }

  function AtMost(n: nat, limit: nat): nat { if n <= limit then n else limit }

  /** The limit to which an operation prunes. */
  function LimitAfter(s: Whole, op: Op): nat {
    Limit(if op.Scheduling? then Limit(op.retention) else s.vault.schedule.retention)
  }

  /** How many of `n` entries an operation keeps. */
  function Keeps(s: Whole, op: Op, n: nat): nat {
    if BacksUp(s, op).Some? || op.Scheduling? then AtMost(n, LimitAfter(s, op)) else n
  }

  lemma OthersKeepVault(s: Whole, op: Op)
    requires BacksUp(s, op).None? && !op.Scheduling?
    ensures Step(s, op).vault == s.vault
  {
  }

  lemma BackUpPrunes(s: Whole, op: Op)
    requires BacksUp(s, op).Some?
    ensures Step(s, op).vault.index == Kept([Entry(s, op)] + s.vault.index, LimitAfter(s, op))
    ensures Step(s, op).vault.schedule.retention == s.vault.schedule.retention
  {
  }

  lemma SchedulingPrunes(s: Whole, op: Op)
    requires op.Scheduling?
    ensures Step(s, op).vault.index == Kept(s.vault.index, LimitAfter(s, op))
    ensures Step(s, op).vault.schedule.retention == Limit(op.retention)
  {
  }

  /** If the new entry and the index are in order, an operation keeps the first of them. */
  lemma IndexAfter(s: Whole, op: Op)
    requires Descending(NewEntry(s, op) + s.vault.index)
    ensures var grown := NewEntry(s, op) + s.vault.index;
            Step(s, op).vault.index == grown[..Keeps(s, op, |grown|)]
    ensures Limit(Step(s, op).vault.schedule.retention) == LimitAfter(s, op)
  {
    var grown := NewEntry(s, op) + s.vault.index;
    if BacksUp(s, op).Some? {
      BackUpPrunes(s, op);
      SortedIsKept(grown, LimitAfter(s, op));
    } else {
      assert grown == s.vault.index;
      if op.Scheduling? {
        SchedulingPrunes(s, op);
        SortedIsKept(grown, LimitAfter(s, op));
      } else {
        OthersKeepVault(s, op);
      }
    }
  }

  lemma PrefixDescends(entry: seq<Manifest>, index: seq<Manifest>, all: seq<Manifest>)
    requires index <= all && Descending(entry + all)
    ensures Descending(entry + index) && entry + index <= entry + all
  {
    assert forall i :: 0 <= i < |entry + index| ==> (entry + index)[i] == (entry + all)[i];
  }

  /** With a clock that does not run backwards the index is at every moment the newest part of all backups ever
  taken, whatever the retention is changed to in between. */
  lemma {:induction false} IndexIsNewest(states: seq<Whole>, ops: seq<Op>, i: nat)
    requires History(states, ops) && ClockGoesOn(states, ops) && i <= |ops|
    ensures states[i].vault.index <= AllTaken(states, ops, i)
  {
    if i == 0 {
    } else {
      var m := i - 1;
      IndexIsNewest(states, ops, m);
      assert states[m + 1].vault.index <= AllTaken(states, ops, m + 1) by {
        IndexStep(states, ops, m);
      }
    }
  }

  lemma IndexStep(states: seq<Whole>, ops: seq<Op>, i: nat)
    requires History(states, ops) && ClockGoesOn(states, ops) && i < |ops|
    requires states[i].vault.index <= AllTaken(states, ops, i)
    ensures states[i + 1].vault.index <= AllTaken(states, ops, i + 1)
    ensures var s, op := states[i], ops[i];
            && |states[i + 1].vault.index| == Keeps(s, op, |NewEntry(s, op)| + |s.vault.index|)
            && Limit(states[i + 1].vault.schedule.retention) == LimitAfter(s, op)
  {
    var s, op := states[i], ops[i];
    TakenDescends(states, ops, i + 1);
    PrefixDescends(NewEntry(s, op), s.vault.index, AllTaken(states, ops, i));
    IndexAfter(s, op);
  }

  lemma KeepsWithinLimit(s: Whole, op: Op)
    requires |s.vault.index| <= Limit(s.vault.schedule.retention)
    ensures Keeps(s, op, |NewEntry(s, op)| + |s.vault.index|) <= LimitAfter(s, op)
  {
  }

  lemma {:induction false} IndexWithinLimit(states: seq<Whole>, ops: seq<Op>, i: nat)
    requires History(states, ops) && ClockGoesOn(states, ops) && i <= |ops|
    ensures |states[i].vault.index| <= Limit(states[i].vault.schedule.retention)
  {
    if i == 0 {
    } else {
      var m := i - 1;
      IndexWithinLimit(states, ops, m);
      KeepsWithinLimit(states[m], ops[m]);
      IndexIsNewest(states, ops, m);
      IndexStep(states, ops, m);
    }
  }

  /** The index grows by what an operation takes, up to the limit. */
  ghost predicate Grows(states: seq<Whole>, ops: seq<Op>, i: nat, limit: nat)
    requires |states| == |ops| + 1 && i < |ops|
  {
    var taken := |AllTaken(states, ops, i + 1)| - |AllTaken(states, ops, i)|;
    taken >= 0 && |states[i + 1].vault.index| == AtMost(|states[i].vault.index| + taken, limit)
  }

  lemma IndexGrows(states: seq<Whole>, ops: seq<Op>, i: nat, limit: nat)
    requires History(states, ops) && ClockGoesOn(states, ops) && i < |ops|
    requires Limit(states[i].vault.schedule.retention) == Limit(states[i + 1].vault.schedule.retention) == limit
    ensures Grows(states, ops, i, limit)
  {
    IndexIsNewest(states, ops, i);
    IndexWithinLimit(states, ops, i);
    IndexStep(states, ops, i);
    assert AllTaken(states, ops, i + 1) == NewEntry(states[i], ops[i]) + AllTaken(states, ops, i);
  }

  lemma GrowsOn(first: nat, taken: nat, second: nat, more: nat, third: nat, limit: nat)
    requires second == AtMost(first + taken, limit) && third == AtMost(second + more, limit)
    ensures third == AtMost(first + (taken + more), limit)
  {
  }

  lemma {:induction false} GrowthAddsUp(states: seq<Whole>, ops: seq<Op>, from: nat, i: nat, limit: nat)
    requires |states| == |ops| + 1 && from <= i <= |ops| && |states[from].vault.index| <= limit
    requires forall m :: from <= m < i ==> Grows(states, ops, m, limit)
    ensures var since := |AllTaken(states, ops, i)| - |AllTaken(states, ops, from)|;
            since >= 0 && |states[i].vault.index| == AtMost(|states[from].vault.index| + since, limit)
  {
    if i == from {
    } else {
      var m := i - 1;
      GrowthAddsUp(states, ops, from, m, limit);
      assert Grows(states, ops, m, limit);
      var before, now, after := |AllTaken(states, ops, from)|, |AllTaken(states, ops, m)|, |AllTaken(states, ops, i)|;
      GrowsOn(|states[from].vault.index|, now - before, |states[m].vault.index|, after - now,
              |states[i].vault.index|, limit);
    }
  }

  /** While the limit stays the same the index grows with every backup until it is full and then stays full:
  from the start on it holds the newest `limit` of all backups ever taken, or all of them. */
  lemma IndexIsFull(states: seq<Whole>, ops: seq<Op>, from: nat, i: nat, limit: nat)
    requires History(states, ops) && ClockGoesOn(states, ops) && from <= i <= |ops|
    requires forall k :: from <= k <= i ==> Limit(states[k].vault.schedule.retention) == limit
    ensures var since := |AllTaken(states, ops, i)| - |AllTaken(states, ops, from)|;
            since >= 0 && |states[i].vault.index| == AtMost(|states[from].vault.index| + since, limit)
    ensures states[i].vault.index <= AllTaken(states, ops, i)
  {
    assert |states[from].vault.index| <= limit by {
      IndexWithinLimit(states, ops, from);
    }
    forall m | from <= m < i
      ensures Grows(states, ops, m, limit)
    {
      IndexGrows(states, ops, m, limit);
    }
    GrowthAddsUp(states, ops, from, i, limit);
    assert states[i].vault.index <= AllTaken(states, ops, i) by {
      IndexIsNewest(states, ops, i);
    }
  }

  /** Over every run in which the clock does not run backwards between backups, a backup just taken is the first
  of the index and, if identifiers differ, has its folder with what was in memory. */
  lemma BackupSurvives(states: seq<Whole>, ops: seq<Op>, k: nat)
    requires History(states, ops) && ClockGoesOn(states, ops) && k < |ops| && BacksUp(states[k], ops[k]).Some?
    ensures var index, entry := states[k + 1].vault.index, Entry(states[k], ops[k]);
            && index != [] && index[0] == entry
            && (IdsDiffer(states, ops) ==>
                  entry.id in states[k + 1].vault.folders &&
                  states[k + 1].vault.folders[entry.id] == InMemory(states[k]))
  {
    IndexIsNewest(states, ops, k);
    IndexStep(states, ops, k);
    if IdsDiffer(states, ops) {
      HasFolder(states, ops, k);
    }
  }

  lemma HasFolder(states: seq<Whole>, ops: seq<Op>, k: nat)
    requires History(states, ops) && IdsDiffer(states, ops) && k < |ops| && BacksUp(states[k], ops[k]).Some?
    requires states[k + 1].vault.index != [] && states[k + 1].vault.index[0] == Entry(states[k], ops[k])
    ensures var id, folders := Entry(states[k], ops[k]).id, states[k + 1].vault.folders;
            id in folders && folders[id] == InMemory(states[k])
  {
    var id := Entry(states[k], ops[k]).id;
    assert states[k + 1].vault.index[0].id in Ids(states[k + 1].vault.index);
    assert Faithful(states, ops, k + 1) && id in states[k + 1].vault.folders by {
      FoldersAreFaithful(states, ops, k + 1);
    }
    FolderHolds(states, ops, k, k + 1, id);
  }
}
