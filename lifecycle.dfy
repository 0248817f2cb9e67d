/**
 * The experiment lifecycle of `ExperimentController`: the status guards of
 * `start`, `pause`, `complete` and `update`, the defaults `create` applies to
 * a new experiment and its variants, and the store of experiments these
 * handlers change.
 *
 * Each handler's decision is a pure transition on one experiment; the class
 * `ExperimentStore` performs the lookup by id within the caller's
 * organisation and writes the transition's result back.
 */
module Lifecycle {
  import opened Wrappers
  import opened Js
  import opened Domain

  const WeightTolerance: real := 0.01

  /** The weights `start` accepts: their total is within 0.01 of 100. */
  predicate WeightsTotal100(vs: seq<Variant>) {
    Abs(TotalWeight(vs) - 100.0) <= WeightTolerance
  }

  // ---------------------------------------------------------------------
  // Transitions
  // ---------------------------------------------------------------------

  /** `start`: only from draft or paused, and only when the weights total 100%. */
  function Start(e: Experiment, now: int): Result<Experiment, HttpError> {
    if e.status != Draft && e.status != Paused then
      Err(HttpError(400, "Experiment must be in draft or paused status to start"))
    else if !WeightsTotal100(e.variants) then
      Err(HttpError(400, "Variant weights must total 100%"))
    else
      Ok(e.(status := Running, startedAt := Some(now)))
  }

  /** `pause`: the lookup filters on status running, so any other status is "not found". */
  function Pause(e: Experiment): Result<Experiment, HttpError> {
    if e.status != Running then Err(HttpError(404, "Running experiment not found"))
    else Ok(e.(status := Paused))
  }

  /** `complete`: from every status, including completed itself. */
  function Complete(e: Experiment, now: int): Experiment {
    e.(status := Completed, completedAt := Some(now))
  }

  /** A `status` in a request body: a value of the enumeration, or any other string. */
  datatype StatusInput = Known(status: Status) | Unknown(text: string)

  /**
   * The attributes of the experiment a request body may carry into
   * `experiment.update(req.body)`, which the route does not validate; `None`
   * leaves the attribute as it is. For `description`, `Some(None)` sets it to
   * null. A `projectId` moves the experiment to that project, and so to the
   * project's organisation.
   */
  datatype Patch = Patch(
    projectId: Option<string>,
    name: Option<string>,
    description: Option<Option<string>>,
    hypothesis: Option<string>,
    interventionType: Option<string>,
    status: Option<StatusInput>,
    trafficAllocation: Option<int>,
    startedAt: Option<Option<int>>,
    completedAt: Option<Option<int>>)

  /** The body that names no attribute. */
  const NoChange: Patch := Patch(None, None, None, None, None, None, None, None, None)

  /** The values of the `interventionType` column's enumeration. */
  const InterventionTypes: set<string> := {"loss_aversion", "social_proof", "commitment_devices",
    "progress_indicators", "scarcity_urgency", "anchoring", "reciprocity"}

  /** The values of the `type` column's enumeration. */
  const ExperimentTypes: set<string> := {"ab_test", "multivariate"}

  /** The handler's catch-all answer when the write itself throws. */
  const UpdateFailed: HttpError := HttpError(500, "Failed to update experiment")

  function Pick<T>(patched: Option<T>, current: T): T {
    if patched.Some? then patched.value else current
  }

  /**
   * The write throws: the status or the intervention type is not a value of
   * its enumeration, or the project does not exist (a foreign-key violation).
   * `projects` maps each project id to its organisation.
   */
  predicate WriteFails(projects: map<string, string>, p: Patch) {
    (p.status.Some? && p.status.value.Unknown?) ||
    (p.interventionType.Some? && p.interventionType.value !in InterventionTypes) ||
    (p.projectId.Some? && p.projectId.value !in projects)
  }

  /** The experiment with the patch's attributes written over it. */
  function ApplyPatch(projects: map<string, string>, e: Experiment, p: Patch): Experiment
    requires !WriteFails(projects, p)
  {
    e.(projectId := Pick(p.projectId, e.projectId),
       organizationId := if p.projectId.Some? then projects[p.projectId.value] else e.organizationId,
       name := Pick(p.name, e.name),
       description := Pick(p.description, e.description),
       hypothesis := Pick(p.hypothesis, e.hypothesis),
       interventionType := Pick(p.interventionType, e.interventionType),
       status := if p.status.Some? then p.status.value.status else e.status,
       trafficAllocation := Pick(p.trafficAllocation, e.trafficAllocation),
       startedAt := Pick(p.startedAt, e.startedAt),
       completedAt := Pick(p.completedAt, e.completedAt))
  }

  /** `update`: refused while running; otherwise the body is written as given, or the write throws. */
  function Update(projects: map<string, string>, e: Experiment, p: Patch): Result<Experiment, HttpError> {
    if e.status == Running then Err(HttpError(400, "Cannot update running experiment"))
    else if WriteFails(projects, p) then Err(UpdateFailed)
    else Ok(ApplyPatch(projects, e, p))
  }

  // ---------------------------------------------------------------------
  // What the transitions promise
  // ---------------------------------------------------------------------

  /** The lifecycle as designed: draft -> running <-> paused, and any status -> completed. */
  predicate DesignedStep(from: Status, to: Status) {
    (from == Draft && to == Running) ||
    (from == Paused && to == Running) ||
    (from == Running && to == Paused) ||
    to == Completed
  }

  /**
   * `start` succeeds exactly from draft or paused with weights totalling 100%,
   * and then changes only the status (to running) and the start time; a start
   * refused for its status or its weights carries the matching 400 message.
   */
  lemma StartGuard(e: Experiment, now: int)
    ensures Start(e, now).Ok? <==> (e.status == Draft || e.status == Paused) && WeightsTotal100(e.variants)
    ensures Start(e, now).Ok? ==>
      Start(e, now).value == e.(status := Running, startedAt := Some(now)) &&
      DesignedStep(e.status, Running)
    ensures e.status !in {Draft, Paused} ==>
      Start(e, now) == Err(HttpError(400, "Experiment must be in draft or paused status to start"))
    ensures e.status in {Draft, Paused} && !WeightsTotal100(e.variants) ==>
      Start(e, now) == Err(HttpError(400, "Variant weights must total 100%"))
  {
  }

  /** `pause` succeeds exactly on a running experiment and changes only its status, to paused. */
  lemma PauseGuard(e: Experiment)
    ensures Pause(e).Ok? <==> e.status == Running
    ensures Pause(e).Ok? ==> Pause(e).value == e.(status := Paused) && DesignedStep(e.status, Paused)
    ensures Pause(e).Err? ==> Pause(e).error == HttpError(404, "Running experiment not found")
  {
  }

  /** `complete` is allowed from every status; it changes only the status and the completion time. */
  lemma CompleteFromAnyStatus(e: Experiment, now: int)
    ensures Complete(e, now).status == Completed && Complete(e, now).completedAt == Some(now)
    ensures Complete(e, now).(status := e.status, completedAt := e.completedAt) == e
    ensures DesignedStep(e.status, Completed)
    ensures Complete(Complete(e, now), now) == Complete(e, now)
  {
  }

  /**
   * `update` is refused with a 400 exactly while running, and otherwise fails
   * with a 500 exactly when the write throws. A successful update gives every
   * attribute the body names its value and keeps every other one; a
   * `projectId` also sets the organisation to that project's.
   */
  lemma UpdateGuard(projects: map<string, string>, e: Experiment, p: Patch)
    ensures Update(projects, e, p).Err? <==> e.status == Running || WriteFails(projects, p)
    ensures e.status == Running ==> Update(projects, e, p) == Err(HttpError(400, "Cannot update running experiment"))
    ensures e.status != Running && WriteFails(projects, p) ==> Update(projects, e, p) == Err(UpdateFailed)
    ensures Update(projects, e, p).Ok? ==>
      var u := Update(projects, e, p).value;
      u.id == e.id && u.variants == e.variants &&
      (p.projectId.Some? ==> u.projectId == p.projectId.value && u.organizationId == projects[p.projectId.value]) &&
      (p.projectId.None? ==> u.projectId == e.projectId && u.organizationId == e.organizationId) &&
      (p.status.Some? ==> p.status.value.Known? && u.status == p.status.value.status) &&
      (p.status.None? ==> u.status == e.status) &&
      u.name == Pick(p.name, e.name) && u.description == Pick(p.description, e.description) &&
      u.hypothesis == Pick(p.hypothesis, e.hypothesis) &&
      u.interventionType == Pick(p.interventionType, e.interventionType) &&
      u.trafficAllocation == Pick(p.trafficAllocation, e.trafficAllocation) &&
      u.startedAt == Pick(p.startedAt, e.startedAt) && u.completedAt == Pick(p.completedAt, e.completedAt)
    ensures e.status != Running ==> Update(projects, e, NoChange) == Ok(e)
  {
  }

  /**
   * A body naming another organisation's project moves the experiment there:
   * the update succeeds and the experiment leaves its organisation.
   */
  lemma UpdateCanMoveAcrossOrganizations()
    ensures exists projects: map<string, string>, e: Experiment, p: Patch ::
      Update(projects, e, p).Ok? && Update(projects, e, p).value.organizationId != e.organizationId
  {
    var projects := map["p1" := "o1", "p2" := "o2"];
    var e := Experiment("e", "p1", "o1", "n", None, "h", "t", Draft, 100, [], None, None);
    var p := NoChange.(projectId := Some("p2"));
    assert Update(projects, e, p).value.organizationId == "o2";
  }

  /** Every running experiment has weights totalling 100%: the condition `start` enforces. */
  predicate RunningWeightsValid(e: Experiment) {
    e.status == Running ==> WeightsTotal100(e.variants)
  }

  /** `start`, `pause` and `complete` keep running experiments' weights valid. */
  lemma TransitionsKeepRunningWeightsValid(e: Experiment, now: int)
    requires RunningWeightsValid(e)
    ensures Start(e, now).Ok? ==> RunningWeightsValid(Start(e, now).value)
    ensures Pause(e).Ok? ==> RunningWeightsValid(Pause(e).value)
    ensures RunningWeightsValid(Complete(e, now))
  {
  }

  /**
   * `update` copies the body's `status` without the checks of `start`: a draft
   * whose weights total 0 can be set running by an update.
   */
  lemma UpdateCanBypassStartChecks()
    ensures exists projects: map<string, string>, e: Experiment, p: Patch ::
      RunningWeightsValid(e) && Update(projects, e, p).Ok? && !RunningWeightsValid(Update(projects, e, p).value)
  {
    var projects: map<string, string> := map[];
    var e := Experiment("e", "p", "o", "n", None, "h", "t", Draft, 100, [], None, None);
    var p := NoChange.(status := Some(Known(Running)));
    assert TotalWeight([]) == 0.0;
    assert !RunningWeightsValid(Update(projects, e, p).value);
  }

  /** An update whose body does not set the status running keeps running weights valid. */
  lemma UpdateWithoutRunningKeepsWeightsValid(projects: map<string, string>, e: Experiment, p: Patch)
    requires RunningWeightsValid(e)
    requires p.status != Some(Known(Running))
    ensures Update(projects, e, p).Ok? ==> RunningWeightsValid(Update(projects, e, p).value)
  {
  }

  // ---------------------------------------------------------------------
  // Creation defaults
  // ---------------------------------------------------------------------

  /** One entry of the request's `variants` array; `None` is an absent field. */
  datatype VariantInput = VariantInput(
    name: Option<string>,
    description: Option<string>,
    weightPercentage: Option<real>,
    configuration: Config)

  /** The body of a create request. */
  datatype ExperimentInput = ExperimentInput(
    projectId: string,
    name: string,
    description: Option<string>,
    hypothesis: string,
    experimentType: Option<string>,
    interventionType: string,
    variants: seq<VariantInput>,
    trafficAllocation: Option<int>)

  /**
   * `Experiment.create` throws: the intervention type is not a value of its
   * enumeration (the column admits no null), or a given `type` is not a value
   * of its own (an absent one takes the column's default).
   */
  predicate CreateFails(input: ExperimentInput) {
    input.interventionType !in InterventionTypes ||
    (input.experimentType.Some? && input.experimentType.value !in ExperimentTypes)
  }

  /** The handler's catch-all answer when a write throws. */
  const CreateFailed: HttpError := HttpError(500, "Failed to create experiment")

  /** The intervention's default configuration, or `{}` for an unknown intervention type. */
  function DefaultConfig(interventions: map<string, Config>, interventionType: string): Config {
    if interventionType in interventions then interventions[interventionType] else map[]
  }

  /** `v.name || (index === 0 ? 'Control' : \`Variant ${index}\`)`. */
  function VariantName(v: VariantInput, index: nat): string {
    if v.name.Some? && v.name.value != "" then v.name.value
    else if index == 0 then "Control"
    else "Variant " + Decimal(index)
  }

  /** `v.weightPercentage || (100 / variants.length)`: an absent or zero weight takes an equal share. */
  function VariantWeight(v: VariantInput, count: nat): real
    requires count > 0
  {
    if v.weightPercentage.Some? && v.weightPercentage.value != 0.0 then v.weightPercentage.value
    else 100.0 / count as real
  }

  /** The variant `create` makes from input `index`, with a fresh id. */
  function CreateVariant(experimentId: string, v: VariantInput, index: nat, count: nat, id: string, defaults: Config): Variant
    requires count > 0
  {
    Variant(id, experimentId, VariantName(v, index), v.description, index == 0,
      VariantWeight(v, count), defaults + v.configuration)
  }

  /** `variants.map(...)`: one created variant per input, in order. */
  function CreateVariants(experimentId: string, inputs: seq<VariantInput>, ids: seq<string>, defaults: Config): (vs: seq<Variant>)
    requires |ids| == |inputs|
    ensures |vs| == |inputs|
  {
    seq(|inputs|, i requires 0 <= i < |inputs| => CreateVariant(experimentId, inputs[i], i, |inputs|, ids[i], defaults))
  }

  /** The input gives no usable weight, so `create` falls back to the equal share. */
  predicate WeightDefaulted(v: VariantInput) {
    v.weightPercentage.None? || v.weightPercentage.value == 0.0
  }

  /**
   * Created variants: exactly the first is the control; a non-empty supplied
   * name is kept and a missing one becomes "Control" or "Variant i"; the
   * configuration is the intervention defaults overridden key by key.
   */
  lemma CreatedVariantsShape(experimentId: string, inputs: seq<VariantInput>, ids: seq<string>, defaults: Config, i: nat)
    requires |ids| == |inputs|
    requires i < |inputs|
    ensures var v := CreateVariants(experimentId, inputs, ids, defaults)[i];
      v.id == ids[i] && v.experimentId == experimentId &&
      (v.isControl <==> i == 0) &&
      (inputs[i].name.Some? && inputs[i].name.value != "" ==> v.name == inputs[i].name.value) &&
      (inputs[i].name.None? || inputs[i].name.value == "" ==>
        v.name == (if i == 0 then "Control" else "Variant " + Decimal(i))) &&
      (forall k :: k in v.configuration <==> k in defaults || k in inputs[i].configuration) &&
      (forall k :: k in inputs[i].configuration ==> v.configuration[k] == inputs[i].configuration[k]) &&
      (forall k :: k in defaults && k !in inputs[i].configuration ==> v.configuration[k] == defaults[k]) &&
      (WeightDefaulted(inputs[i]) ==> v.weightPercentage == 100.0 / |inputs| as real) &&
      (!WeightDefaulted(inputs[i]) ==> v.weightPercentage == inputs[i].weightPercentage.value)
  {
  }

  /** With every weight defaulted, the first k variants weigh k shares of 100 / n. */
  lemma {:induction false} DefaultedPrefixWeight(vs: seq<Variant>, share: real, k: nat)
    requires k <= |vs|
    requires forall i :: 0 <= i < |vs| ==> vs[i].weightPercentage == share
    ensures PrefixWeight(vs, k) == k as real * share
  {
    if k > 0 {
      DefaultedPrefixWeight(vs, share, k - 1);
    }
  }

  /** When no input gives a weight, the created weights total exactly 100 (over the reals). */
  lemma DefaultWeightsTotal100(experimentId: string, inputs: seq<VariantInput>, ids: seq<string>, defaults: Config)
    requires |ids| == |inputs| && |inputs| > 0
    requires forall i :: 0 <= i < |inputs| ==> WeightDefaulted(inputs[i])
    ensures TotalWeight(CreateVariants(experimentId, inputs, ids, defaults)) == 100.0
    ensures WeightsTotal100(CreateVariants(experimentId, inputs, ids, defaults))
  {
    var vs := CreateVariants(experimentId, inputs, ids, defaults);
    var n := |inputs| as real;
    DefaultedPrefixWeight(vs, 100.0 / n, |vs|);
    assert n * (100.0 / n) == 100.0;
  }

  /** The destructuring default `trafficAllocation = 100` applies only to an absent value. */
  function TrafficAllocationOf(input: ExperimentInput): (t: int)
    ensures input.trafficAllocation.None? ==> t == 100
    ensures input.trafficAllocation.Some? ==> t == input.trafficAllocation.value
  {
    if input.trafficAllocation.Some? then input.trafficAllocation.value else 100
  }

  /**
   * `create`: 404 unless the project belongs to the caller's organisation;
   * otherwise 500 when the write throws, or else a draft experiment with the
   * defaulted variants. `projects` maps
   * each project id to its organisation; the new ids are parameters.
   */
  function Create(projects: map<string, string>, organizationId: string, input: ExperimentInput,
                  id: string, variantIds: seq<string>, interventions: map<string, Config>): Result<Experiment, HttpError>
    requires |variantIds| == |input.variants|
  {
    if input.projectId !in projects || projects[input.projectId] != organizationId then
      Err(HttpError(404, "Project not found"))
    else if CreateFails(input) then
      Err(CreateFailed)
    else
      Ok(Experiment(id, input.projectId, organizationId, input.name, input.description, input.hypothesis, input.interventionType,
        Draft, TrafficAllocationOf(input),
        CreateVariants(id, input.variants, variantIds, DefaultConfig(interventions, input.interventionType)),
        None, None))
  }

  /**
   * `create` succeeds exactly for a project of the caller's organisation and
   * values both enumerations admit; otherwise the 404 for a foreign project,
   * or else the 500. A created experiment is a draft with no start or
   * completion time; with all weights defaulted (and at least one variant) it
   * can be started at once.
   */
  lemma CreatedIsStartableDraft(projects: map<string, string>, organizationId: string, input: ExperimentInput,
                                id: string, variantIds: seq<string>, interventions: map<string, Config>, now: int)
    requires |variantIds| == |input.variants|
    ensures var r := Create(projects, organizationId, input, id, variantIds, interventions);
      (r.Ok? <==> input.projectId in projects && projects[input.projectId] == organizationId && !CreateFails(input)) &&
      (!(input.projectId in projects && projects[input.projectId] == organizationId) ==>
         r == Err(HttpError(404, "Project not found"))) &&
      (input.projectId in projects && projects[input.projectId] == organizationId && CreateFails(input) ==>
         r == Err(CreateFailed)) &&
      (r.Ok? ==> r.value.status == Draft && r.value.startedAt.None? && r.value.completedAt.None? &&
                 r.value.id == id && |r.value.variants| == |input.variants| && RunningWeightsValid(r.value))
    ensures var r := Create(projects, organizationId, input, id, variantIds, interventions);
      r.Ok? && |input.variants| > 0 && (forall i :: 0 <= i < |input.variants| ==> WeightDefaulted(input.variants[i])) ==>
      Start(r.value, now).Ok?
  {
    var r := Create(projects, organizationId, input, id, variantIds, interventions);
    if r.Ok? && |input.variants| > 0 && (forall i :: 0 <= i < |input.variants| ==> WeightDefaulted(input.variants[i])) {
      DefaultWeightsTotal100(id, input.variants, variantIds, DefaultConfig(interventions, input.interventionType));
    }
  }

  /**
   * The route checks `interventionType` only for being non-empty, so a body
   * naming the caller's project with the intervention type "foo" reaches the
   * write, which throws: the answer is the 500 and nothing is created.
   */
  lemma UnknownInterventionRejected(projects: map<string, string>, organizationId: string, input: ExperimentInput,
                                    id: string, variantIds: seq<string>, interventions: map<string, Config>)
    requires |variantIds| == |input.variants|
    requires input.projectId in projects && projects[input.projectId] == organizationId
    requires input.interventionType == "foo"
    ensures Create(projects, organizationId, input, id, variantIds, interventions) == Err(CreateFailed)
  {
  }

  // ---------------------------------------------------------------------
  // The store the handlers change
  // ---------------------------------------------------------------------

  class ExperimentStore {
    /** The experiments by id. */
    var experiments: map<string, Experiment>

    /** Every experiment is stored under its own id. */
    predicate Valid()
      reads this
    {
      forall k :: k in experiments ==> experiments[k].id == k
    }

    /** Every running experiment has weights totalling 100%. */
    predicate RunningWeightsHold()
      reads this
    {
      forall k :: k in experiments ==> RunningWeightsValid(experiments[k])
    }

    constructor(initial: map<string, Experiment>)
      ensures experiments == initial
    {
      experiments := initial;
    }

    /** `Experiment.findOne({ where: { id }, include: project of the organisation })`. */
    function Lookup(organizationId: string, id: string): (r: Option<Experiment>)
      reads this
      ensures r.Some? <==> id in experiments && experiments[id].organizationId == organizationId
      ensures r.Some? ==> r.value == experiments[id]
    {
      if id in experiments && experiments[id].organizationId == organizationId then Some(experiments[id]) else None
    }

    /** `POST /experiments/:id/start`. */
    method StartExperiment(organizationId: string, id: string, now: int) returns (r: Result<Experiment, HttpError>)
      modifies this
      ensures old(Lookup(organizationId, id)).None? ==>
        r == Err(HttpError(404, "Experiment not found")) && experiments == old(experiments)
      ensures old(Lookup(organizationId, id)).Some? ==> r == Start(old(experiments)[id], now)
      ensures r.Ok? ==> experiments == old(experiments)[id := r.value]
      ensures r.Err? ==> experiments == old(experiments)
      ensures old(Valid()) ==> Valid()
      ensures old(RunningWeightsHold()) ==> RunningWeightsHold()
    {
      var found := Lookup(organizationId, id);
      if found.None? {
        return Err(HttpError(404, "Experiment not found"));
      }
      r := Start(found.value, now);
      if r.Ok? {
        experiments := experiments[id := r.value];
      }
    }

    /** `POST /experiments/:id/pause`: the lookup also requires status running. */
    method PauseExperiment(organizationId: string, id: string) returns (r: Result<Experiment, HttpError>)
      modifies this
      ensures old(Lookup(organizationId, id)).None? ==>
        r == Err(HttpError(404, "Running experiment not found")) && experiments == old(experiments)
      ensures old(Lookup(organizationId, id)).Some? ==> r == Pause(old(experiments)[id])
      ensures r.Ok? ==> experiments == old(experiments)[id := r.value]
      ensures r.Err? ==> experiments == old(experiments)
      ensures old(Valid()) ==> Valid()
      ensures old(RunningWeightsHold()) ==> RunningWeightsHold()
    {
      var found := Lookup(organizationId, id);
      if found.None? {
        return Err(HttpError(404, "Running experiment not found"));
      }
      r := Pause(found.value);
      if r.Ok? {
        experiments := experiments[id := r.value];
      }
    }

    /** `POST /experiments/:id/complete`. */
    method CompleteExperiment(organizationId: string, id: string, now: int) returns (r: Result<Experiment, HttpError>)
      modifies this
      ensures old(Lookup(organizationId, id)).None? ==>
        r == Err(HttpError(404, "Experiment not found")) && experiments == old(experiments)
      ensures old(Lookup(organizationId, id)).Some? ==>
        r == Ok(Complete(old(experiments)[id], now)) && experiments == old(experiments)[id := r.value]
      ensures old(Valid()) ==> Valid()
      ensures old(RunningWeightsHold()) ==> RunningWeightsHold()
    {
      var found := Lookup(organizationId, id);
      if found.None? {
        return Err(HttpError(404, "Experiment not found"));
      }
      var completed := Complete(found.value, now);
      experiments := experiments[id := completed];
      r := Ok(completed);
    }

    /**
     * `PUT /experiments/:id`. After a successful update the caller still sees
     * the experiment exactly when the body names no project or a project of
     * the caller's organisation.
     */
    method UpdateExperiment(projects: map<string, string>, organizationId: string, id: string, p: Patch)
      returns (r: Result<Experiment, HttpError>)
      modifies this
      ensures old(Lookup(organizationId, id)).None? ==>
        r == Err(HttpError(404, "Experiment not found")) && experiments == old(experiments)
      ensures old(Lookup(organizationId, id)).Some? ==> r == Update(projects, old(experiments)[id], p)
      ensures r.Ok? ==> experiments == old(experiments)[id := r.value]
      ensures r.Err? ==> experiments == old(experiments)
      ensures r.Ok? ==>
        (Lookup(organizationId, id).Some? <==> p.projectId.None? || projects[p.projectId.value] == organizationId)
      ensures old(Valid()) ==> Valid()
      ensures p.status != Some(Known(Running)) && old(RunningWeightsHold()) ==> RunningWeightsHold()
    {
      var found := Lookup(organizationId, id);
      if found.None? {
        return Err(HttpError(404, "Experiment not found"));
      }
      r := Update(projects, found.value, p);
      if r.Ok? {
        experiments := experiments[id := r.value];
      }
    }

    /** `POST /experiments`: the new experiment is stored under its fresh id. */
    method CreateExperiment(projects: map<string, string>, organizationId: string, input: ExperimentInput,
                            id: string, variantIds: seq<string>, interventions: map<string, Config>)
      returns (r: Result<Experiment, HttpError>)
      requires |variantIds| == |input.variants|
      requires id !in experiments
      modifies this
      ensures r == Create(projects, organizationId, input, id, variantIds, interventions)
      ensures r.Ok? ==> experiments == old(experiments)[id := r.value]
      ensures r.Err? ==> experiments == old(experiments)
      ensures old(Valid()) ==> Valid()
      ensures old(RunningWeightsHold()) ==> RunningWeightsHold()
    {
      r := Create(projects, organizationId, input, id, variantIds, interventions);
      if r.Ok? {
        experiments := experiments[id := r.value];
      }
    }
  }
}
