/** The model registry of backend/ai/onnx_control_plane.py: discovery, validation, evaluation, failure,
recovery and the choice of the active model, as functions from one state to the next.

The world outside is passed in: which model files exist with which checksums, whether ONNX Runtime is there,
whether a session can be created and how the predictions turn out. */
module ModelRegistry {
  import opened Text

  datatype Record = Record(
    path: string,
    checksum: string,
    runtimeAvailable: bool,
    healthy: bool,
    quarantined: bool,
    accepted: bool,
    quarantineReason: Option<string>,
    blockedReason: Option<string>,
    failureCount: int)

  datatype Registry = Registry(models: map<string, Record>, active: Option<string>)

  /** A self-healing event. */
  datatype Event = Event(action: string, model: string, reason: string, at: real)

  /** `sessions` maps a model name to the checksum of the bytes its cached session was created from. */
  datatype Plane = Plane(registry: Registry, events: seq<Event>, sessions: map<string, string>)

  datatype ModelFile = ModelFile(path: string, stem: string, checksum: string)

  /** What one call finds outside: the model files in path order, the runtime, the outcome of the checks on
  the record's path and of creating a session, and the time. */
  datatype World = World(
    files: seq<ModelFile>,
    runtime: bool,
    onnxSuffix: bool,
    loadError: Option<string>,
    now: real)

  // ---------- Events ----------

  function Tail<T>(s: seq<T>, n: nat): seq<T> { if |s| <= n then s else s[|s| - n..] }

  function Append(events: seq<Event>, e: Event): seq<Event> {
    Tail(if e in Tail(events, 3) then events else events + [e], 200)
  }

  // ---------- The active model ----------

  predicate Eligible(r: Record) { r.healthy && !r.quarantined && r.accepted }

  predicate EligibleName(models: map<string, Record>, name: string) {
    name in models && Eligible(models[name])
  }

  function EligibleNames(models: map<string, Record>): set<string> {
    set name | name in models && Eligible(models[name])
  }

  /** The first eligible name in the order of names. */
  ghost function Choose(models: map<string, Record>): (choice: Option<string>)
    ensures choice.Some? ==> IsLeast(EligibleNames(models), choice.value)
    ensures choice.None? ==> EligibleNames(models) == {}
  {
    if EligibleNames(models) == {} then None
    else
      LeastExists(EligibleNames(models));
      var name :| IsLeast(EligibleNames(models), name);
      Some(name)
  }

  /** `sorted(names)`. */
  method SortedNames(names: set<string>) returns (sorted: seq<string>)
    ensures forall i, j :: 0 <= i < j < |sorted| ==> Less(sorted[i], sorted[j])
    ensures forall name :: name in sorted <==> name in names
  {
    sorted := [];
    var rest := names;
    while rest != {}
      invariant rest <= names
      invariant forall i, j :: 0 <= i < j < |sorted| ==> Less(sorted[i], sorted[j])
      invariant forall i, name :: 0 <= i < |sorted| && name in rest ==> Less(sorted[i], name)
      invariant forall name :: name in names <==> name in sorted || name in rest
      decreases rest
    {
      LeastExists(rest);
      var name :| name in rest && IsLeast(rest, name);
      sorted, rest := sorted + [name], rest - {name};
    }
  }

  lemma ChooseIsLeast(models: map<string, Record>, name: string)
    requires IsLeast(EligibleNames(models), name)
    ensures Choose(models) == Some(name)
  {
    LessTotal(name, Choose(models).value);
  }

  predicate ActiveStands(r: Registry) {
    r.active.Some? && r.active.value != "" && EligibleName(r.models, r.active.value)
  }

  /** `_select_active_model`. */
  ghost function Select(r: Registry, runtime: bool): Registry {
    if ActiveStands(r) then r
    else r.(active := if runtime then Choose(r.models) else None)
  }

  ghost function Reselect(p: Plane, runtime: bool): Plane {
    p.(registry := Select(p.registry, runtime))
  }

  // ---------- Discovery ----------

  const QUARANTINE: string := "quarantine_model"
  const CHANGED: string := "checksum_changed"
  const NEEDS_EVALUATION: string := "checksum_changed_requires_evaluation"

  predicate ChecksumChanged(models: map<string, Record>, f: ModelFile) {
    f.stem in models && models[f.stem].checksum != f.checksum
  }

  /** The record of a file that is found on disk. */
  function Found(models: map<string, Record>, f: ModelFile, runtime: bool): Record {
    if f.stem !in models then
      Record(f.path, f.checksum, runtime, true, false, false, None, None, 0)
    else
      var r := models[f.stem].(path := f.path, checksum := f.checksum, runtimeAvailable := runtime);
      if ChecksumChanged(models, f) then
        r.(healthy := false, quarantined := true, accepted := false,
           quarantineReason := Some(CHANGED), blockedReason := Some(NEEDS_EVALUATION))
      else r
  }

  function FindOne(p: Plane, f: ModelFile, runtime: bool, now: real): Plane {
    var models := p.registry.models;
    p.(registry := p.registry.(models := models[f.stem := Found(models, f, runtime)]),
       events := if ChecksumChanged(models, f) then Append(p.events, Event(QUARANTINE, f.stem, CHANGED, now))
                 else p.events)
  }

  function FindAll(p: Plane, files: seq<ModelFile>, runtime: bool, now: real): Plane
    decreases |files|
  {
    if files == [] then p else FindAll(FindOne(p, files[0], runtime, now), files[1..], runtime, now)
  }

  ghost function Discover(p: Plane, w: World): Plane {
    Reselect(FindAll(p, w.files, w.runtime, w.now), w.runtime)
  }

  // ---------- Failure ----------

  function Broken(r: Record, reason: string): Record {
    r.(healthy := false, quarantined := true, quarantineReason := Some(reason), failureCount := r.failureCount + 1)
  }

  function Update(p: Plane, name: string, r: Record): Plane {
    p.(registry := p.registry.(models := p.registry.models[name := r]))
  }

  function Deactivated(r: Registry, name: string): Registry {
    if r.active == Some(name) then r.(active := None) else r
  }

  /** `report_model_failure`. */
  ghost function Report(p: Plane, name: string, reason: string, runtime: bool, now: real): Plane {
    var marked := if name in p.registry.models then Update(p, name, Broken(p.registry.models[name], reason)) else p;
    Reselect(Plane(Deactivated(marked.registry, name),
                   Append(p.events, Event(QUARANTINE, name, reason, now)),
                   p.sessions - {name}),
             runtime)
  }

  // ---------- Validation ----------

  datatype Verdict = NotRegistered | Failed(reason: string) | NotLoadable | Loadable

  predicate Exists(files: seq<ModelFile>, path: string) {
    exists i :: 0 <= i < |files| && files[i].path == path
  }

  function Cleared(r: Record): Record {
    r.(healthy := true, quarantined := false, quarantineReason := None)
  }

  ghost function Judge(p: Plane, w: World, name: string): Verdict {
    if name !in p.registry.models then NotRegistered
    else if !Exists(w.files, p.registry.models[name].path) then Failed("model_file_missing")
    else if !w.onnxSuffix then Failed("unsupported_model_format")
    else if !w.runtime then NotLoadable
    else if name !in p.sessions && w.loadError.Some? then Failed("load_error:" + w.loadError.value)
    else Loadable
  }

  /** `_session_for`: a cached session is kept, whatever its checksum. */
  function WithSession(p: Plane, name: string): Plane
    requires name in p.registry.models
  {
    if name in p.sessions then p else p.(sessions := p.sessions[name := p.registry.models[name].checksum])
  }

  /** What `validate_model` does after discovery. */
  ghost function Settle(p: Plane, w: World, name: string): Plane {
    match Judge(p, w, name)
    case NotRegistered => p
    case Failed(reason) => Report(p, name, reason, w.runtime, w.now)
    case NotLoadable => Update(p, name, p.registry.models[name].(runtimeAvailable := false, healthy := true))
    case Loadable => Reselect(Update(WithSession(p, name), name, Cleared(p.registry.models[name])), w.runtime)
  }

  ghost function Validate(p: Plane, w: World, name: string): (Plane, Verdict) {
    var found := Discover(p, w);
    (Settle(found, w, name), Judge(found, w, name))
  }

  // ---------- Evaluation ----------

  datatype Outcome = Blocked | Raised | Accepted(activated: bool) | Rejected

  function Correct(passed: seq<bool>): nat {
    if passed == [] then 0 else (if passed[0] then 1 else 0) + Correct(passed[1..])
  }

  function Clamp01(x: real): real { if x < 0.0 then 0.0 else if x > 1.0 then 1.0 else x }

  predicate Passes(passed: seq<bool>, minAccuracy: real)
    requires passed != []
  {
    Correct(passed) as real / |passed| as real >= Clamp01(minAccuracy)
  }

  function Accept(r: Record): Record {
    r.(healthy := true, quarantined := false, accepted := true, quarantineReason := None, blockedReason := None)
  }

  function Reject(r: Record): Record {
    r.(accepted := false, blockedReason := Some("accuracy_below_threshold"))
  }

  /** `cases`: for each usable evaluation case whether the prediction matched; `None` if a prediction raised. */
  ghost function Grade(p: Plane, w: World, name: string, cases: Option<seq<bool>>, minAccuracy: real,
                       activate: bool): (Plane, Outcome)
    requires name in p.registry.models
  {
    if cases.None? then (p, Raised)
    else if cases.value == [] then (p, Blocked)
    else if Passes(cases.value, minAccuracy) then
      var q := Update(p, name, Accept(p.registry.models[name]));
      if activate then
        (q.(registry := q.registry.(active := Some(name)),
            events := Append(q.events, Event("activate_model", name, "accuracy", w.now))), Accepted(true))
      else (q, Accepted(false))
    else
      var q := Update(p, name, Reject(p.registry.models[name]));
      (Reselect(q.(registry := Deactivated(q.registry, name)), w.runtime), Rejected)
  }

  ghost function Evaluate(p: Plane, w: World, name: string, cases: Option<seq<bool>>, minAccuracy: real,
                          activate: bool): (Plane, Outcome) {
    var (q, verdict) := Validate(Discover(p, w), w, name);
    if !verdict.Loadable? then (q, Blocked) else Grade(q, w, name, cases, minAccuracy, activate)
  }

  // ---------- Recovery and inference ----------

  ghost function Recover(p: Plane, w: World, name: string): Plane {
    var (q, verdict) := Validate(p, w, name);
    if verdict.NotRegistered? || verdict.Failed? then q
    else
      var cleared := Update(q, name, Cleared(q.registry.models[name]));
      var chosen := if verdict.Loadable? && q.registry.models[name].accepted
                    then cleared.(registry := cleared.registry.(active := Some(name)))
                    else Reselect(cleared, w.runtime);
      chosen.(events := Append(chosen.events, Event("recover_model", name, "manual_recovery", w.now)))
  }

  /** `classify` once no learned override applies: the active model, if any, is asked; if that raises, the
  failure is reported. `error` is what the prediction itself raises. */
  ghost function Infer(p: Plane, w: World, error: Option<string>): Plane {
    if p.registry.active.None? || p.registry.active.value == "" || p.registry.active.value !in p.registry.models ||
       !w.runtime then p
    else
      var name := p.registry.active.value;
      if name !in p.sessions && w.loadError.Some? then
        Report(p, name, "inference_error:" + w.loadError.value, w.runtime, w.now)
      else
        var q := WithSession(p, name);
        if error.Some? then Report(q, name, "inference_error:" + error.value, w.runtime, w.now) else q
  }

  // ---------- Safety ----------

  /** Pairs of a model name and a checksum that some evaluation accepted. */
  type Approvals = set<(string, string)>

  /** The active model is registered, healthy, not quarantined and accepted; and whatever is accepted has a
  checksum that an evaluation accepted. */
  ghost predicate Safe(r: Registry, approved: Approvals) {
    && (r.active.Some? ==> EligibleName(r.models, r.active.value))
    && AcceptedAreApproved(r, approved)
  }

  ghost predicate AcceptedAreApproved(r: Registry, approved: Approvals) {
    forall name :: name in r.models && r.models[name].accepted ==> (name, r.models[name].checksum) in approved
  }

  /** What an evaluation approves: the checksum on record when it accepts. */
  ghost function Approves(p: Plane, w: World, name: string, cases: Option<seq<bool>>, minAccuracy: real,
                          activate: bool): Approvals {
    var (q, outcome) := Evaluate(p, w, name, cases, minAccuracy, activate);
    if outcome.Accepted? && name in q.registry.models then {(name, q.registry.models[name].checksum)} else {}
  }

  lemma SelectIsSafe(r: Registry, approved: Approvals, runtime: bool)
    requires AcceptedAreApproved(r, approved)
    ensures Safe(Select(r, runtime), approved) && Select(r, runtime).models == r.models
  {
    var choice := Choose(r.models);
    assert choice.Some? ==> choice.value in EligibleNames(r.models);
  }

  lemma {:induction false} FindAllKeepsApproved(p: Plane, files: seq<ModelFile>, runtime: bool, now: real,
                                                approved: Approvals)
    requires AcceptedAreApproved(p.registry, approved)
    ensures AcceptedAreApproved(FindAll(p, files, runtime, now).registry, approved)
    decreases |files|
  {
    if files == [] {
    } else {
      FindAllKeepsApproved(FindOne(p, files[0], runtime, now), files[1..], runtime, now, approved);
    }
  }

  lemma DiscoverIsSafe(p: Plane, w: World, approved: Approvals)
    requires AcceptedAreApproved(p.registry, approved)
    ensures Safe(Discover(p, w).registry, approved)
  {
    FindAllKeepsApproved(p, w.files, w.runtime, w.now, approved);
    SelectIsSafe(FindAll(p, w.files, w.runtime, w.now).registry, approved, w.runtime);
  }

  lemma ReportIsSafe(p: Plane, name: string, reason: string, runtime: bool, now: real, approved: Approvals)
    requires AcceptedAreApproved(p.registry, approved)
    ensures Safe(Report(p, name, reason, runtime, now).registry, approved)
  {
    var marked := if name in p.registry.models then Update(p, name, Broken(p.registry.models[name], reason)) else p;
    SelectIsSafe(Deactivated(marked.registry, name), approved, runtime);
  }

  lemma SettleIsSafe(p: Plane, w: World, name: string, approved: Approvals)
    requires Safe(p.registry, approved)
    ensures Safe(Settle(p, w, name).registry, approved)
    ensures Judge(p, w, name).Loadable? ==> name in Settle(p, w, name).registry.models
  {
    match Judge(p, w, name)
    case NotRegistered =>
    case Failed(reason) => ReportIsSafe(p, name, reason, w.runtime, w.now, approved);
    case NotLoadable =>
    case Loadable =>
      SelectIsSafe(Update(WithSession(p, name), name, Cleared(p.registry.models[name])).registry, approved, w.runtime);
  }

  lemma ValidateIsSafe(p: Plane, w: World, name: string, approved: Approvals)
    requires AcceptedAreApproved(p.registry, approved)
    ensures Safe(Validate(p, w, name).0.registry, approved)
    ensures Validate(p, w, name).1.Loadable? ==> name in Validate(p, w, name).0.registry.models
  {
    DiscoverIsSafe(p, w, approved);
    SettleIsSafe(Discover(p, w), w, name, approved);
  }

  lemma GradeIsSafe(p: Plane, w: World, name: string, cases: Option<seq<bool>>, minAccuracy: real, activate: bool,
                    approved: Approvals)
    requires Safe(p.registry, approved) && name in p.registry.models
    ensures var (q, outcome) := Grade(p, w, name, cases, minAccuracy, activate);
            name in q.registry.models && q.registry.models[name].checksum == p.registry.models[name].checksum &&
            Safe(q.registry,
                 if outcome.Accepted? then approved + {(name, q.registry.models[name].checksum)} else approved)
  {
    var rejected := Update(p, name, Reject(p.registry.models[name]));
    SelectIsSafe(Deactivated(rejected.registry, name), approved, w.runtime);
  }

  lemma EvaluateIsSafe(p: Plane, w: World, name: string, cases: Option<seq<bool>>, minAccuracy: real, activate: bool,
                       approved: Approvals)
    requires AcceptedAreApproved(p.registry, approved)
    ensures Safe(Evaluate(p, w, name, cases, minAccuracy, activate).0.registry,
                 approved + Approves(p, w, name, cases, minAccuracy, activate))
  {
    DiscoverIsSafe(p, w, approved);
    ValidateIsSafe(Discover(p, w), w, name, approved);
    var (q, verdict) := Validate(Discover(p, w), w, name);
    if verdict.Loadable? {
      GradeIsSafe(q, w, name, cases, minAccuracy, activate, approved);
    }
  }

  lemma RecoverIsSafe(p: Plane, w: World, name: string, approved: Approvals)
    requires AcceptedAreApproved(p.registry, approved)
    ensures Safe(Recover(p, w, name).registry, approved)
  {
    ValidateIsSafe(p, w, name, approved);
    var (q, verdict) := Validate(p, w, name);
    if !verdict.NotRegistered? && !verdict.Failed? {
      SelectIsSafe(Update(q, name, Cleared(q.registry.models[name])).registry, approved, w.runtime);
    }
  }

  lemma InferIsSafe(p: Plane, w: World, error: Option<string>, approved: Approvals)
    requires Safe(p.registry, approved)
    ensures Safe(Infer(p, w, error).registry, approved)
  {
    if p.registry.active.Some? {
      var name := p.registry.active.value;
      var q := WithSession(p, name);
      forall reason
        ensures Safe(Report(p, name, reason, w.runtime, w.now).registry, approved)
        ensures Safe(Report(q, name, reason, w.runtime, w.now).registry, approved)
      {
        ReportIsSafe(p, name, reason, w.runtime, w.now, approved);
        ReportIsSafe(q, name, reason, w.runtime, w.now, approved);
      }
    }
  }

  // ---------- Which model is active ----------

  /** The first eligible name in order. */
  ghost predicate FirstEligible(models: map<string, Record>, name: string) {
    EligibleName(models, name) && forall other :: EligibleName(models, other) ==> other == name || Less(name, other)
  }

  /** A choice that stands is kept; otherwise the first eligible name in order is chosen, if there is a runtime and such
  a name, and none if not. */
  lemma SelectIff(r: Registry, runtime: bool)
    ensures var q := Select(r, runtime);
            && q.models == r.models
            && (r.active.Some? && r.active.value != "" && EligibleName(r.models, r.active.value) ==> q == r)
            && (r.active.None? || r.active.value == "" || !EligibleName(r.models, r.active.value) ==>
                  (q.active.Some? <==> runtime && exists name :: EligibleName(r.models, name)) &&
                  (q.active.Some? ==> FirstEligible(r.models, q.active.value)))
  {
    forall name
      ensures name in EligibleNames(r.models) <==> EligibleName(r.models, name)
    {
    }
  }

  /** `name` is the active model, and stands. */
  predicate Stands(p: Plane, name: string) {
    p.registry.active == Some(name) && name != "" && EligibleName(p.registry.models, name)
  }

  /** No file of that name has another checksum than the one on record. */
  predicate SameFile(p: Plane, files: seq<ModelFile>, name: string)
    requires name in p.registry.models
  {
    forall f :: f in files && f.stem == name ==> f.checksum == p.registry.models[name].checksum
  }

  lemma {:induction false} FindAllLeavesStanding(p: Plane, files: seq<ModelFile>, runtime: bool, now: real,
                                                    name: string)
    requires Stands(p, name) && SameFile(p, files, name)
    ensures var q := FindAll(p, files, runtime, now);
            Stands(q, name) && q.registry.models[name].checksum == p.registry.models[name].checksum
    decreases |files|
  {
    if files == [] {
    } else {
      assert files[0] in files;
      FindAllLeavesStanding(FindOne(p, files[0], runtime, now), files[1..], runtime, now, name);
    }
  }

  lemma DiscoverLeavesStanding(p: Plane, w: World, name: string)
    requires Stands(p, name) && SameFile(p, w.files, name)
    ensures Stands(Discover(p, w), name) && SameFile(Discover(p, w), w.files, name)
  {
    FindAllLeavesStanding(p, w.files, w.runtime, w.now, name);
  }

  /** The validation of `name` does not fail. */
  ghost predicate Passing(p: Plane, w: World, name: string) { !Validate(p, w, name).1.Failed? }

  lemma ReportLeavesStanding(p: Plane, other: string, reason: string, runtime: bool, now: real, name: string)
    requires Stands(p, name) && other != name
    ensures Stands(Report(p, other, reason, runtime, now), name)
    ensures Report(p, other, reason, runtime, now).registry.models[name] == p.registry.models[name]
  {
  }

  lemma ValidateLeavesStanding(p: Plane, w: World, other: string, name: string)
    requires Stands(p, name) && SameFile(p, w.files, name) && (other == name ==> Passing(p, w, name))
    ensures Stands(Validate(p, w, other).0, name)
  {
    DiscoverLeavesStanding(p, w, name);
    var found := Discover(p, w);
    match Judge(found, w, other)
    case Failed(reason) => ReportLeavesStanding(found, other, reason, w.runtime, w.now, name);
    case _ =>
  }

  /** An evaluation leaves the active model alone unless it fails the validation or is rejected itself, or another one
  is accepted and activated. */
  lemma EvaluateLeavesStanding(p: Plane, w: World, other: string, cases: Option<seq<bool>>, minAccuracy: real,
                               activate: bool, name: string)
    requires Stands(p, name) && SameFile(p, w.files, name)
    requires var outcome := Evaluate(p, w, other, cases, minAccuracy, activate).1;
             if other == name then Passing(Discover(p, w), w, name) && !outcome.Rejected?
             else outcome != Accepted(true)
    ensures Stands(Evaluate(p, w, other, cases, minAccuracy, activate).0, name)
  {
    DiscoverLeavesStanding(p, w, name);
    ValidateLeavesStanding(Discover(p, w), w, other, name);
  }

  /** A recovery leaves the active model alone unless it fails the validation itself, or another one is accepted
  and can be loaded. */
  lemma RecoverLeavesStanding(p: Plane, w: World, other: string, name: string)
    requires Stands(p, name) && SameFile(p, w.files, name)
    requires if other == name then Passing(p, w, name)
             else Validate(p, w, other).1.Loadable? ==> !Validate(p, w, other).0.registry.models[other].accepted
    ensures Stands(Recover(p, w, other), name)
  {
    ValidateLeavesStanding(p, w, other, name);
  }

  /** A classification leaves the active model alone unless it raises or cannot be loaded. */
  lemma InferLeavesStanding(p: Plane, w: World, error: Option<string>, name: string)
    requires Stands(p, name) && (w.runtime ==> error.None? && (name in p.sessions || w.loadError.None?))
    ensures Stands(Infer(p, w, error), name)
  {
  }

  // ---------- What decides about acceptance and activation ----------

  /** The accepted models with their checksums. */
  ghost function AcceptedPairs(r: Registry): Approvals {
    set name | name in r.models && r.models[name].accepted :: (name, r.models[name].checksum)
  }

  /** Discovery, validation, recovery and failure never accept anything: what is accepted afterwards was
  accepted before, with the same checksum. */
  lemma OnlyEvaluationAccepts(p: Plane, w: World, name: string, reason: string)
    ensures AcceptedAreApproved(Validate(p, w, name).0.registry, AcceptedPairs(p.registry))
    ensures AcceptedAreApproved(Recover(p, w, name).registry, AcceptedPairs(p.registry))
    ensures AcceptedAreApproved(Report(p, name, reason, w.runtime, w.now).registry, AcceptedPairs(p.registry))
  {
    var before := AcceptedPairs(p.registry);
    assert AcceptedAreApproved(p.registry, before);
    ValidateIsSafe(p, w, name, before);
    RecoverIsSafe(p, w, name, before);
    ReportIsSafe(p, name, reason, w.runtime, w.now, before);
  }

  /** An accepted model is eligible, and active if that was asked for; a rejected one is neither accepted nor
  active. */
  ghost predicate TakesEffect(r: Registry, outcome: Outcome, name: string, activate: bool) {
    match outcome
    case Accepted(activated) =>
      EligibleName(r.models, name) && activated == activate && (activate ==> r.active == Some(name))
    case Rejected =>
      name in r.models && !r.models[name].accepted && r.active != Some(name) &&
      r.models[name].blockedReason == Some("accuracy_below_threshold")
    case _ => true
  }

  /** An evaluation accepts exactly when the model can be loaded, there are cases, and enough of them pass, and
  its outcome takes effect. */
  lemma EvaluationDecides(p: Plane, w: World, name: string, cases: Option<seq<bool>>, minAccuracy: real, activate: bool)
    ensures var (q, outcome) := Evaluate(p, w, name, cases, minAccuracy, activate);
            && (outcome.Accepted? <==>
                  Validate(Discover(p, w), w, name).1.Loadable? && cases.Some? && cases.value != [] &&
                  Passes(cases.value, minAccuracy))
            && TakesEffect(q.registry, outcome, name, activate)
  {
    ValidateIsSafe(Discover(p, w), w, name, AcceptedPairs(Discover(p, w).registry));
    var (q, verdict) := Validate(Discover(p, w), w, name);
    if verdict.Loadable? {
      GradeDecides(q, w, name, cases, minAccuracy, activate);
    }
  }

  lemma GradeDecides(p: Plane, w: World, name: string, cases: Option<seq<bool>>, minAccuracy: real, activate: bool)
    requires name in p.registry.models
    ensures var (q, outcome) := Grade(p, w, name, cases, minAccuracy, activate);
            TakesEffect(q.registry, outcome, name, activate)
  {
    var rejected := Deactivated(Update(p, name, Reject(p.registry.models[name])).registry, name);
    var choice := Choose(rejected.models);
    assert choice.Some? ==> choice.value in EligibleNames(rejected.models);
  }

  lemma {:induction false} CorrectCounts(passed: seq<bool>)
    ensures Correct(passed) == multiset(passed)[true] <= |passed|
    ensures Correct(passed) == |passed| <==> forall i :: 0 <= i < |passed| ==> passed[i]
  {
    if passed == [] {
    } else {
      CorrectCounts(passed[1..]);
      assert passed == [passed[0]] + passed[1..];
      assert forall i :: 0 < i < |passed| ==> passed[i] == passed[1..][i - 1];
    }
  }

  /** Enough cases pass exactly if the number of those that do is at least the demanded share of all; a demand below 0
  counts as 0, one above 1 as 1. */
  lemma PassesIff(passed: seq<bool>, minAccuracy: real)
    requires passed != []
    ensures minAccuracy <= 0.0 ==> Passes(passed, minAccuracy)
    ensures 0.0 <= minAccuracy <= 1.0 ==>
              (Passes(passed, minAccuracy) <==> multiset(passed)[true] as real >= minAccuracy * |passed| as real)
    ensures minAccuracy >= 1.0 ==>
              (Passes(passed, minAccuracy) <==> forall i :: 0 <= i < |passed| ==> passed[i])
  {
    CorrectCounts(passed);
    ShareIsAtLeast(Correct(passed) as real, |passed| as real, Clamp01(minAccuracy));
  }

  lemma ShareIsAtLeast(x: real, y: real, share: real)
    requires y > 0.0
    ensures x / y >= share <==> x >= share * y
  {
    assert x == (x / y) * y;
    if x / y >= share {
      assert (x / y - share) * y >= 0.0;
    } else {
      assert (share - x / y) * y > 0.0;
    }
  }

  // ---------- What validation finds ----------

  lemma {:induction false} FindAllRegisters(p: Plane, files: seq<ModelFile>, runtime: bool, now: real, name: string)
    ensures name in FindAll(p, files, runtime, now).registry.models <==>
            name in p.registry.models || exists f :: f in files && f.stem == name
    decreases |files|
  {
    if files == [] {
    } else {
      FindAllRegisters(FindOne(p, files[0], runtime, now), files[1..], runtime, now, name);
      assert forall f :: f in files <==> f == files[0] || f in files[1..];
    }
  }

  /** A model is registered exactly if it was or has a file, and it can be loaded exactly if the file on record exists
  and is an ONNX file, there is a runtime, and it has a session already or one can be created. */
  lemma LoadableIff(p: Plane, w: World, name: string)
    ensures var verdict := Validate(p, w, name).1;
            var models := Discover(p, w).registry.models;
            && (verdict.NotRegistered? <==> name !in p.registry.models && forall f :: f in w.files ==> f.stem != name)
            && (name in models <==> !verdict.NotRegistered?)
            && (verdict.Loadable? <==>
                  name in models && (exists f :: f in w.files && f.path == models[name].path) && w.onnxSuffix &&
                  w.runtime && (name in p.sessions || w.loadError.None?))
            && (verdict.NotLoadable? <==>
                  name in models && (exists f :: f in w.files && f.path == models[name].path) && w.onnxSuffix &&
                  !w.runtime)
  {
    FindAllRegisters(p, w.files, w.runtime, w.now, name);
    FindAllKeepsSessions(p, w.files, w.runtime, w.now);
    forall path
      ensures Exists(w.files, path) <==> exists f :: f in w.files && f.path == path
    {
    }
  }

  // ---------- The list of events ----------

  /** At most 200 events, none of which equals one of the three before it. */
  predicate WellKept(events: seq<Event>) {
    && |events| <= 200
    && forall i, j :: 0 <= i < j < |events| && j - i <= 3 ==> events[i] != events[j]
  }

  /** An event that is appended is among the last three afterwards, and what is there otherwise are the newest of the
  events before. */
  lemma AppendLaws(events: seq<Event>, e: Event)
    requires WellKept(events)
    ensures var after := Append(events, e);
            && WellKept(after)
            && (exists i :: 0 <= i < |after| && i >= |after| - 3 && after[i] == e)
            && (after == events || (after == (events + [e])[|events| + 1 - |after|..] &&
                                    |after| == if |events| < 200 then |events| + 1 else 200))
  {
    var last := Tail(events, 3);
    if e in last {
      var k :| 0 <= k < |last| && last[k] == e;
      assert events[|events| - |last| + k] == e;
      assert Append(events, e) == events;
    } else {
      assert Append(events, e)[|Append(events, e)| - 1] == e;
      forall i | 0 <= i < |events| && |events| - i <= 3
        ensures events[i] != e
      {
        assert last[i - (|events| - |last|)] == events[i];
      }
    }
  }

  /** A model that can be loaded again is active after its recovery exactly when it is accepted. */
  lemma RecoveryActivatesIff(p: Plane, w: World, name: string)
    requires Validate(p, w, name).1.Loadable?
    ensures name in Recover(p, w, name).registry.models
    ensures Recover(p, w, name).registry.active == Some(name) <==> Validate(p, w, name).0.registry.models[name].accepted
  {
    ValidateIsSafe(p, w, name, AcceptedPairs(p.registry));
    RecoverIsSafe(p, w, name, AcceptedPairs(p.registry));
  }

  // ---------- A model that failed ----------

  /** A model whose failure is reported is out: quarantined, without a session and not active. */
  lemma ReportedModelIsOut(p: Plane, name: string, reason: string, runtime: bool, now: real)
    requires name in p.registry.models
    ensures var q := Report(p, name, reason, runtime, now);
            && name in q.registry.models
            && q.registry.models[name] == Broken(p.registry.models[name], reason)
            && !q.registry.models[name].healthy && q.registry.models[name].quarantined
            && q.registry.models[name].quarantineReason == Some(reason)
            && q.registry.models[name].failureCount == p.registry.models[name].failureCount + 1
            && q.registry.models[name].accepted == p.registry.models[name].accepted
            && q.registry.models[name].checksum == p.registry.models[name].checksum
            && q.registry.active != Some(name) && name !in q.sessions
            && (forall other :: other in p.registry.models && other != name ==>
                  other in q.registry.models && q.registry.models[other] == p.registry.models[other])
  {
    var marked := Deactivated(Update(p, name, Broken(p.registry.models[name], reason)).registry, name);
    var choice := Choose(marked.models);
    assert choice.Some? ==> choice.value in EligibleNames(marked.models);
  }

  // ---------- A file that changes on disk ----------

  ghost predicate DistinctStems(files: seq<ModelFile>) {
    forall i, j :: 0 <= i < j < |files| ==> files[i].stem != files[j].stem
  }

  predicate Mentions(files: seq<ModelFile>, name: string) {
    exists i :: 0 <= i < |files| && files[i].stem == name
  }

  /** Discovery leaves the records of all other models alone, and all sessions. */
  lemma {:induction false} FindAllSkips(p: Plane, files: seq<ModelFile>, runtime: bool, now: real, name: string)
    requires !Mentions(files, name)
    ensures var models := FindAll(p, files, runtime, now).registry.models;
            (name in models <==> name in p.registry.models) &&
            (name in models ==> models[name] == p.registry.models[name])
    decreases |files|
  {
    if files == [] {
    } else {
      assert files[0].stem != name;
      forall i | 0 <= i < |files[1..]|
        ensures files[1..][i].stem != name
      {
        assert files[i + 1].stem != name;
      }
      FindAllSkips(FindOne(p, files[0], runtime, now), files[1..], runtime, now, name);
    }
  }

  lemma {:induction false} FindAllKeepsSessions(p: Plane, files: seq<ModelFile>, runtime: bool, now: real)
    ensures FindAll(p, files, runtime, now).sessions == p.sessions
    decreases |files|
  {
    if files == [] {
    } else {
      FindAllKeepsSessions(FindOne(p, files[0], runtime, now), files[1..], runtime, now);
    }
  }

  /** Discovery looks at every file once. */
  lemma {:induction false} FindAllRecords(p: Plane, files: seq<ModelFile>, runtime: bool, now: real, k: nat)
    requires DistinctStems(files) && k < |files|
    ensures var models := FindAll(p, files, runtime, now).registry.models;
            files[k].stem in models && models[files[k].stem] == Found(p.registry.models, files[k], runtime)
    decreases |files|
  {
    var q, rest := FindOne(p, files[0], runtime, now), files[1..];
    assert forall i :: 0 < i < |files| ==> files[i] == rest[i - 1];
    if k == 0 {
      assert !Mentions(rest, files[0].stem);
      FindAllSkips(q, rest, runtime, now, files[0].stem);
    } else {
      assert files[0].stem != files[k].stem;
      FindAllRecords(q, rest, runtime, now, k - 1);
    }
  }

  /** Once the file of a model has changed, no other file of that name brings the model back. */
  lemma {:induction false} FindAllQuarantines(p: Plane, files: seq<ModelFile>, runtime: bool, now: real, f: ModelFile)
    requires f.stem in p.registry.models
    requires (f in files && ChecksumChanged(p.registry.models, f)) ||
             (p.registry.models[f.stem].quarantined && !p.registry.models[f.stem].accepted)
    ensures var models := FindAll(p, files, runtime, now).registry.models;
            f.stem in models && models[f.stem].quarantined && !models[f.stem].accepted
    decreases |files|
  {
    if files == [] {
    } else {
      FindAllQuarantines(FindOne(p, files[0], runtime, now), files[1..], runtime, now, f);
    }
  }

  /** A model whose file was replaced is quarantined and not active after discovery, until it is evaluated, also
  when several files share its name. */
  lemma ChangedModelIsDeactivated(p: Plane, w: World, f: ModelFile)
    requires f in w.files && ChecksumChanged(p.registry.models, f)
    ensures var r := Discover(p, w).registry;
            f.stem in r.models && (DistinctStems(w.files) ==> r.models[f.stem].checksum == f.checksum) &&
            r.models[f.stem].quarantined && !r.models[f.stem].accepted && r.active != Some(f.stem)
  {
    FindAllQuarantines(p, w.files, w.runtime, w.now, f);
    if DistinctStems(w.files) {
      DiscoverFile(p, w, f);
    }
    var found := FindAll(p, w.files, w.runtime, w.now).registry;
    var choice := Choose(found.models);
    assert choice.Some? ==> choice.value in EligibleNames(found.models);
  }

  /** What discovery puts on record about a file: a new model is healthy and neither quarantined nor accepted, an
  unchanged one keeps its verdicts, and a changed one is out until it is evaluated, with an event that says so. */
  lemma FindOneRecords(p: Plane, f: ModelFile, runtime: bool, now: real)
    ensures var q, known := FindOne(p, f, runtime, now), f.stem in p.registry.models;
            && f.stem in q.registry.models
            && var r := q.registry.models[f.stem];
            && (r.path, r.checksum, r.runtimeAvailable) == (f.path, f.checksum, runtime)
            && (!known ==> r.healthy && !r.quarantined && !r.accepted && r.failureCount == 0 &&
                           r.quarantineReason == None && r.blockedReason == None && q.events == p.events)
            && (known ==>
                  var before := p.registry.models[f.stem];
                  && r.failureCount == before.failureCount
                  && (before.checksum == f.checksum ==>
                        r == before.(path := f.path, runtimeAvailable := runtime) && q.events == p.events)
                  && (before.checksum != f.checksum ==>
                        !r.healthy && r.quarantined && !r.accepted && r.quarantineReason == Some("checksum_changed") &&
                        q.events == Append(p.events, Event("quarantine_model", f.stem, "checksum_changed", now))))
            && q.registry.models - {f.stem} == p.registry.models - {f.stem}
            && q.registry.active == p.registry.active
  {
  }

  lemma DiscoverFile(p: Plane, w: World, f: ModelFile)
    requires DistinctStems(w.files) && f in w.files
    ensures var q := Discover(p, w);
            && f.stem in q.registry.models && q.registry.models[f.stem].checksum == f.checksum
            && q.registry.models[f.stem].path == f.path && q.sessions == p.sessions
  {
    var i :| 0 <= i < |w.files| && w.files[i] == f;
    FindAllRecords(p, w.files, w.runtime, w.now, i);
    FindAllKeepsSessions(p, w.files, w.runtime, w.now);
  }

  // ---------- What the invariant does not cover: the cached session ----------

  /** A model that turns out loadable has a session: the cached one, or one of the file on record. */
  lemma ValidateMakesSession(p: Plane, w: World, name: string)
    requires Validate(p, w, name).1.Loadable?
    ensures var q := Validate(p, w, name).0;
            && name in q.registry.models && name in q.sessions
            && q.sessions[name] == if name in p.sessions then p.sessions[name] else q.registry.models[name].checksum
  {
    FindAllKeepsSessions(p, w.files, w.runtime, w.now);
  }

  /** The session behind an acceptance is one of the accepted checksum exactly when there was no session before,
  or one of that checksum: the cached session is not compared with the file. */
  lemma SessionIsFreshIff(p: Plane, w: World, name: string, cases: Option<seq<bool>>, minAccuracy: real, activate: bool)
    requires Evaluate(p, w, name, cases, minAccuracy, activate).1.Accepted?
    ensures var q := Evaluate(p, w, name, cases, minAccuracy, activate).0;
            && name in q.sessions && name in q.registry.models
            && (q.sessions[name] == q.registry.models[name].checksum <==>
                  name !in p.sessions || p.sessions[name] == q.registry.models[name].checksum)
  {
    FindAllKeepsSessions(p, w.files, w.runtime, w.now);
    ValidateMakesSession(Discover(p, w), w, name);
  }

  /** The same for a file of its own name: it is its checksum that gets accepted. */
  lemma SessionMatchesFileIff(p: Plane, w: World, f: ModelFile, cases: Option<seq<bool>>, minAccuracy: real,
                              activate: bool)
    requires DistinctStems(w.files) && f in w.files
    requires Evaluate(p, w, f.stem, cases, minAccuracy, activate).1.Accepted?
    ensures var q := Evaluate(p, w, f.stem, cases, minAccuracy, activate).0;
            && f.stem in q.sessions && f.stem in q.registry.models && q.registry.models[f.stem].checksum == f.checksum
            && (q.sessions[f.stem] == f.checksum <==> f.stem !in p.sessions || p.sessions[f.stem] == f.checksum)
  {
    SessionIsFreshIff(p, w, f.stem, cases, minAccuracy, activate);
    DiscoverFile(Discover(p, w), w, f);
  }

  lemma ValidateCached(p: Plane, w: World, f: ModelFile)
    requires DistinctStems(w.files) && f in w.files && w.runtime && w.onnxSuffix
    requires f.stem in p.sessions || w.loadError.None?
    ensures var (q, verdict) := Validate(p, w, f.stem);
            && verdict == Loadable && f.stem in q.registry.models
            && q.registry.models[f.stem].checksum == f.checksum
  {
    DiscoverFile(p, w, f);
    var i :| 0 <= i < |w.files| && w.files[i] == f;
    assert w.files[i].path == f.path;
  }

  /** A session outlives a change of its file: evaluating the changed model uses the old session, whatever
  `loadError` the new file would give, and activates the new checksum on the strength of it. */
  lemma StaleSessionIsApproved(p: Plane, w: World, f: ModelFile, cases: seq<bool>, minAccuracy: real)
    requires DistinctStems(w.files) && f in w.files && w.runtime && w.onnxSuffix && f.stem in p.sessions
    requires cases != [] && Passes(cases, minAccuracy)
    ensures var q := Evaluate(p, w, f.stem, Some(cases), minAccuracy, true).0;
            && q.registry.active == Some(f.stem)
            && f.stem in q.registry.models && q.registry.models[f.stem].checksum == f.checksum
            && f.stem in q.sessions && q.sessions[f.stem] == p.sessions[f.stem]
  {
    DiscoverFile(p, w, f);
    ValidateCached(Discover(p, w), w, f);
    ValidateMakesSession(Discover(p, w), w, f.stem);
  }

  /** It happens from the empty registry on: a model is evaluated, its file is replaced by one that cannot even
  be loaded, and a second evaluation makes the replacement the active model. */
  lemma StaleSessionArises(before: ModelFile, after: ModelFile, now: real, error: Option<string>)
    requires before.stem == after.stem && before.checksum != after.checksum
    ensures var start := Plane(Registry(map[], None), [], map[]);
            var w, w' := World([before], true, true, None, now), World([after], true, true, error, now);
            var first := Evaluate(start, w, before.stem, Some([true]), 1.0, true).0;
            var second := Evaluate(first, w', after.stem, Some([true]), 1.0, true).0;
            && second.registry.active == Some(after.stem)
            && after.stem in second.registry.models && second.registry.models[after.stem].checksum == after.checksum
            && after.stem in second.sessions && second.sessions[after.stem] == before.checksum != after.checksum
  {
    var start := Plane(Registry(map[], None), [], map[]);
    var w := World([before], true, true, None, now);
    assert Passes([true], 1.0);
    DiscoverFile(start, w, before);
    ValidateCached(Discover(start, w), w, before);
    ValidateMakesSession(Discover(start, w), w, before.stem);
    var first := Evaluate(start, w, before.stem, Some([true]), 1.0, true).0;
    StaleSessionIsApproved(first, World([after], true, true, error, now), after, [true], 1.0);
  }
}
