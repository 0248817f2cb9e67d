/**
 * The tracking controller: deterministic, hash-based bucketing of a user into
 * an experiment and one of its variants, the per-request assignment map, and
 * the find-or-create-then-increment update of the per-day results table.
 *
 * MD5 is a parameter (`md5`): any function from the salted input to a 32-digit
 * lower-case hex digest. Everything after the digest is modelled exactly.
 */
module Tracking {
  import opened Wrappers
  import opened Js
  import opened Domain

  predicate IsHexDigit(c: char) {
    '0' <= c <= '9' || 'a' <= c <= 'f'
  }

  predicate IsHex(s: string) {
    forall i :: 0 <= i < |s| ==> IsHexDigit(s[i])
  }

  /** What `digest('hex')` of an MD5 hash returns: 32 lower-case hex digits. */
  type HexDigest = s: string | |s| == 32 && IsHex(s)
    witness "00000000000000000000000000000000"

  type Md5 = string -> HexDigest

  const HashBound: nat := 0x1_0000_0000

  function HexValue(c: char): (v: nat)
    requires IsHexDigit(c)
    ensures v < 16
  {
    if c <= '9' then c as int - '0' as int else c as int - 'a' as int + 10
  }

  function Pow16(k: nat): (p: nat)
    ensures p > 0
  {
    if k == 0 then 1 else 16 * Pow16(k - 1)
  }

  /** `parseInt(s, 16)` on a string of hex digits. */
  function ParseHex(s: string): (n: nat)
    requires IsHex(s)
    ensures n < Pow16(|s|)
  {
    if s == [] then 0 else 16 * ParseHex(s[..|s| - 1]) + HexValue(s[|s| - 1])
  }

  /** `hash`: the first eight hex digits of the MD5 digest, read as a number. */
  function Hash(md5: Md5, input: string): (h: nat)
    ensures h < HashBound
  {
    var digest := md5(input);
    assert IsHex(digest[..8]);
    assert Pow16(8) == HashBound;
    ParseHex(digest[..8])
  }

  /** The 1..100 bucket deciding whether a user takes part at all. */
  function TrafficPercentage(md5: Md5, experimentId: string, userId: string): (p: int)
    ensures 1 <= p <= 100
  {
    Hash(md5, experimentId + "-traffic-" + userId) % 100 + 1
  }

  /** The 1..100 bucket choosing the variant (a different salt). */
  function VariantPercentage(md5: Md5, experimentId: string, userId: string): (p: int)
    ensures 1 <= p <= 100
  {
    Hash(md5, experimentId + "-variant-" + userId) % 100 + 1
  }

  /** The user falls inside the experiment's traffic allocation. */
  predicate Included(md5: Md5, userId: string, e: Experiment) {
    TrafficPercentage(md5, e.id, userId) <= e.trafficAllocation
  }

  /** The first index k >= from whose prefix weight through k reaches pct. */
  function FirstReachingFrom(vs: seq<Variant>, pct: int, from: nat): (r: Option<nat>)
    requires from <= |vs|
    ensures r.Some? ==> from <= r.value < |vs|
    decreases |vs| - from
  {
    if from == |vs| then None
    else if pct as real <= CumulativeWeight(vs, from) then Some(from)
    else FirstReachingFrom(vs, pct, from + 1)
  }

  function FirstReaching(vs: seq<Variant>, pct: int): (r: Option<nat>)
    ensures r.Some? ==> r.value < |vs|
  {
    FirstReachingFrom(vs, pct, 0)
  }

  /**
   * `assignVariant` as a function: null outside the traffic allocation, else
   * the first variant whose cumulative weight reaches the variant bucket, else
   * `variants[0]` (which is undefined, so no variant, when there are none).
   */
  function Assign(md5: Md5, userId: string, e: Experiment): Option<Variant> {
    if !Included(md5, userId, e) then None
    else match FirstReaching(e.variants, VariantPercentage(md5, e.id, userId))
      case Some(k) => Some(e.variants[k])
      case None => if |e.variants| > 0 then Some(e.variants[0]) else None
  }

  /** `assignVariant`: the cumulative-weight scan of the source. */
  method AssignVariant(md5: Md5, userId: string, e: Experiment) returns (r: Option<Variant>)
    ensures r == Assign(md5, userId, e)
  {
    var trafficPercentage := Hash(md5, e.id + "-traffic-" + userId) % 100 + 1;
    if trafficPercentage > e.trafficAllocation {
      return None;
    }
    var variantPercentage := Hash(md5, e.id + "-variant-" + userId) % 100 + 1;
    var cumulativeWeight := 0.0;
    var i := 0;
    while i < |e.variants|
      invariant 0 <= i <= |e.variants|
      invariant cumulativeWeight == PrefixWeight(e.variants, i)
      invariant FirstReaching(e.variants, variantPercentage) == FirstReachingFrom(e.variants, variantPercentage, i)
    {
      cumulativeWeight := cumulativeWeight + e.variants[i].weightPercentage;
      if variantPercentage as real <= cumulativeWeight {
        return Some(e.variants[i]);
      }
      i := i + 1;
    }
    if |e.variants| > 0 {
      r := Some(e.variants[0]);
    } else {
      r := None;
    }
  }

  /** Both buckets lie in 1..100, so the hash never selects outside the scale. */
  lemma BucketsInRange(md5: Md5, experimentId: string, userId: string)
    ensures 1 <= TrafficPercentage(md5, experimentId, userId) <= 100
    ensures 1 <= VariantPercentage(md5, experimentId, userId) <= 100
  {
  }

  /** Allocation 0 (or less) excludes everyone; 100 (or more) excludes no one. */
  lemma AllocationExtremes(md5: Md5, userId: string, e: Experiment)
    ensures e.trafficAllocation <= 0 ==> Assign(md5, userId, e) == None
    ensures e.trafficAllocation >= 100 && |e.variants| > 0 ==> Assign(md5, userId, e).Some?
  {
  }

  /**
   * Raising the allocation keeps every included user included, in the same
   * variant: the variant choice does not depend on the allocation.
   */
  lemma InclusionMonotone(md5: Md5, userId: string, e: Experiment, allocation: int)
    requires e.trafficAllocation <= allocation
    requires Assign(md5, userId, e).Some?
    ensures Assign(md5, userId, e.(trafficAllocation := allocation)) == Assign(md5, userId, e)
  {
  }

  /** The result is null or one of the experiment's variants. */
  lemma AssignedIsMember(md5: Md5, userId: string, e: Experiment)
    ensures Assign(md5, userId, e).Some? ==> Assign(md5, userId, e).value in e.variants
    ensures Assign(md5, userId, e).None? <==> !Included(md5, userId, e) || e.variants == []
  {
  }

  /**
   * The scan from `from` finds exactly the first index at or after `from`
   * whose prefix weight reaches pct.
   */
  lemma {:induction false} FirstReachingFromIsFirst(vs: seq<Variant>, pct: int, from: nat)
    requires from <= |vs|
    ensures FirstReachingFrom(vs, pct, from).Some? ==>
      var k := FirstReachingFrom(vs, pct, from).value;
      pct as real <= CumulativeWeight(vs, k) &&
      forall j :: from <= j < k ==> CumulativeWeight(vs, j) < pct as real
    ensures FirstReachingFrom(vs, pct, from).None? <==>
      forall j :: from <= j < |vs| ==> CumulativeWeight(vs, j) < pct as real
    decreases |vs| - from
  {
    if from < |vs| && CumulativeWeight(vs, from) < pct as real {
      FirstReachingFromIsFirst(vs, pct, from + 1);
    }
  }

  /**
   * The variant chosen for an included user: the first one whose cumulative
   * weight reaches the variant bucket, or `variants[0]` when none does.
   */
  lemma AssignedIsFirstReaching(md5: Md5, userId: string, e: Experiment)
    requires Included(md5, userId, e)
    requires |e.variants| > 0
    ensures var pct := VariantPercentage(md5, e.id, userId);
      (exists k :: 0 <= k < |e.variants| && pct as real <= CumulativeWeight(e.variants, k)) ==>
        exists k :: 0 <= k < |e.variants| &&
          Assign(md5, userId, e) == Some(e.variants[k]) &&
          pct as real <= CumulativeWeight(e.variants, k) &&
          forall j :: 0 <= j < k ==> CumulativeWeight(e.variants, j) < pct as real
    ensures var pct := VariantPercentage(md5, e.id, userId);
      (forall k :: 0 <= k < |e.variants| ==> CumulativeWeight(e.variants, k) < pct as real) ==>
        Assign(md5, userId, e) == Some(e.variants[0])
  {
    FirstReachingFromIsFirst(e.variants, VariantPercentage(md5, e.id, userId), 0);
  }

  /**
   * With non-negative weights the fallback is taken exactly when the total
   * weight falls short of the variant bucket; so when the weights total at
   * least 100 the fallback is never taken.
   */
  lemma FallbackIffShortWeights(vs: seq<Variant>, pct: int)
    requires NonNegativeWeights(vs)
    requires |vs| > 0
    ensures FirstReaching(vs, pct).None? <==> TotalWeight(vs) < pct as real
    ensures pct <= 100 && TotalWeight(vs) >= 100.0 ==> FirstReaching(vs, pct).Some?
  {
    FirstReachingFromIsFirst(vs, pct, 0);
    if TotalWeight(vs) < pct as real {
      forall j | 0 <= j < |vs| ensures CumulativeWeight(vs, j) < pct as real {
        PrefixWeightMonotone(vs, j + 1, |vs|);
      }
    }
    if FirstReaching(vs, pct).None? {
      assert CumulativeWeight(vs, |vs| - 1) < pct as real;
    }
  }

  // ---------------------------------------------------------------------
  // The assignment maps built by `track` and `getAssignments`.
  // ---------------------------------------------------------------------

  /** What `getAssignments` reports per assigned experiment. */
  datatype Intervention = Intervention(
    variantId: string,
    variantName: string,
    interventionType: string,
    configuration: Config)

  /**
   * The assignment dictionary after processing the project's experiments in
   * order: only running experiments are considered (the query's filter),
   * and only those where a variant was assigned get a key.
   */
  function AssignmentsOf(md5: Md5, userId: string, exps: seq<Experiment>): map<string, string> {
    if exps == [] then map[]
    else
      var m := AssignmentsOf(md5, userId, exps[..|exps| - 1]);
      var e := exps[|exps| - 1];
      if e.status == Running && Assign(md5, userId, e).Some?
      then m[e.id := Assign(md5, userId, e).value.id]
      else m
  }

  function InterventionsOf(md5: Md5, userId: string, exps: seq<Experiment>): map<string, Intervention> {
    if exps == [] then map[]
    else
      var m := InterventionsOf(md5, userId, exps[..|exps| - 1]);
      var e := exps[|exps| - 1];
      if e.status == Running && Assign(md5, userId, e).Some?
      then
        var v := Assign(md5, userId, e).value;
        m[e.id := Intervention(v.id, v.name, e.interventionType, v.configuration)]
      else m
  }

  /** The loop shared by `track` and `getAssignments`. */
  method AssignAll(md5: Md5, userId: string, exps: seq<Experiment>)
    returns (assignments: map<string, string>, interventions: map<string, Intervention>)
    ensures assignments == AssignmentsOf(md5, userId, exps)
    ensures interventions == InterventionsOf(md5, userId, exps)
  {
    assignments, interventions := map[], map[];
    var i := 0;
    while i < |exps|
      invariant 0 <= i <= |exps|
      invariant assignments == AssignmentsOf(md5, userId, exps[..i])
      invariant interventions == InterventionsOf(md5, userId, exps[..i])
    {
      var experiment := exps[i];
      assert exps[..i + 1][..i] == exps[..i];
      if experiment.status == Running {
        var variant := AssignVariant(md5, userId, experiment);
        if variant.Some? {
          assignments := assignments[experiment.id := variant.value.id];
          interventions := interventions[experiment.id :=
            Intervention(variant.value.id, variant.value.name, experiment.interventionType, variant.value.configuration)];
        }
      }
      i := i + 1;
    }
    assert exps[..|exps|] == exps;
  }

  /**
   * The dictionary has a key for exactly the running experiments that assign
   * the user a variant; with distinct experiment ids the value is that
   * variant's id.
   */
  lemma {:induction false} AssignmentsKeys(md5: Md5, userId: string, exps: seq<Experiment>, id: string)
    ensures id in AssignmentsOf(md5, userId, exps) <==>
      exists i :: 0 <= i < |exps| && exps[i].id == id && exps[i].status == Running && Assign(md5, userId, exps[i]).Some?
  {
    if id in AssignmentsOf(md5, userId, exps) {
      var i := KeyWitness(md5, userId, exps, id);
    }
    if exists i :: 0 <= i < |exps| && exps[i].id == id && exps[i].status == Running && Assign(md5, userId, exps[i]).Some? {
      var i :| 0 <= i < |exps| && exps[i].id == id && exps[i].status == Running && Assign(md5, userId, exps[i]).Some?;
      KeyPresent(md5, userId, exps, i);
    }
  }

  /** A key of the dictionary comes from an experiment that assigned a variant. */
  lemma {:induction false} KeyWitness(md5: Md5, userId: string, exps: seq<Experiment>, id: string) returns (i: nat)
    requires id in AssignmentsOf(md5, userId, exps)
    ensures i < |exps| && exps[i].id == id && exps[i].status == Running && Assign(md5, userId, exps[i]).Some?
  {
    var init, e := exps[..|exps| - 1], exps[|exps| - 1];
    if e.status == Running && Assign(md5, userId, e).Some? && e.id == id {
      i := |exps| - 1;
    } else {
      i := KeyWitness(md5, userId, init, id);
      assert exps[i] == init[i];
    }
  }

  /** An experiment that assigned a variant contributes its id as a key. */
  lemma {:induction false} KeyPresent(md5: Md5, userId: string, exps: seq<Experiment>, i: nat)
    requires i < |exps| && exps[i].status == Running && Assign(md5, userId, exps[i]).Some?
    ensures exps[i].id in AssignmentsOf(md5, userId, exps)
  {
    var init := exps[..|exps| - 1];
    if i < |exps| - 1 {
      assert init[i] == exps[i];
      KeyPresent(md5, userId, init, i);
    }
  }

  predicate DistinctExperimentIds(exps: seq<Experiment>) {
    forall i, j :: 0 <= i < j < |exps| ==> exps[i].id != exps[j].id
  }

  lemma {:induction false} AssignmentsValues(md5: Md5, userId: string, exps: seq<Experiment>, i: nat)
    requires DistinctExperimentIds(exps)
    requires i < |exps| && exps[i].status == Running && Assign(md5, userId, exps[i]).Some?
    ensures exps[i].id in AssignmentsOf(md5, userId, exps)
    ensures AssignmentsOf(md5, userId, exps)[exps[i].id] == Assign(md5, userId, exps[i]).value.id
  {
    var init := exps[..|exps| - 1];
    if i < |exps| - 1 {
      assert DistinctExperimentIds(init) by {
        forall a, b | 0 <= a < b < |init| ensures init[a].id != init[b].id {
          assert init[a] == exps[a] && init[b] == exps[b];
        }
      }
      assert init[i] == exps[i];
      AssignmentsValues(md5, userId, init, i);
    }
  }

  // ---------------------------------------------------------------------
  // The per-day results table and `updateExperimentResults`.
  // ---------------------------------------------------------------------

  type Table = map<ResultKey, ResultRow>

  function Max(a: int, b: int): int {
    if a >= b then a else b
  }

  /** The row a conversion for `key` leaves behind, starting from the row found (or a fresh zeroed one). */
  function Bumped(found: Option<ResultRow>, key: ResultKey): ResultRow {
    var row := match found
      case Some(r) => r
      case None => ResultRow(key.experimentId, key.variantId, key.date, 0, 0, 0.0);
    row.(conversions := row.conversions + 1,
         conversionRate := (row.conversions + 1) as real / Max(row.uniqueUsers, 1) as real)
  }

  function Find(t: Table, key: ResultKey): Option<ResultRow> {
    if key in t then Some(t[key]) else None
  }

  /** `updateExperimentResults` on the table: find-or-create, then increment. */
  function Upsert(t: Table, key: ResultKey): (t': Table)
    ensures key in t'
    ensures t'[key].conversions == (if key in t then t[key].conversions + 1 else 1)
    ensures key in t ==> t'[key].uniqueUsers == t[key].uniqueUsers
    ensures key !in t ==> t'[key].uniqueUsers == 0
    ensures t'[key].conversionRate == t'[key].conversions as real / Max(t'[key].uniqueUsers, 1) as real
    ensures forall k :: k != key ==> Find(t', k) == Find(t, k)
  {
    t[key := Bumped(Find(t, key), key)]
  }

  /** Every row counts no users and no negative number of conversions. */
  predicate NoUsers(t: Table) {
    forall k :: k in t ==> t[k].uniqueUsers == 0 && 0 <= t[k].conversions
  }

  /**
   * The upsert never counts a user: starting from rows without users (the
   * empty table among them), every row still has none, and the upserted row
   * has at least one conversion.
   */
  lemma UpsertKeepsNoUsers(t: Table, key: ResultKey)
    requires NoUsers(t)
    ensures NoUsers(Upsert(t, key))
    ensures Upsert(t, key)[key].conversions >= 1
  {
    var t' := Upsert(t, key);
    forall k | k in t' ensures t'[k].uniqueUsers == 0 && 0 <= t'[k].conversions {
      if k != key {
        assert Find(t', k) == Find(t, k);
      }
    }
  }

  /** Every key in `targets` upserted once, every other row untouched. */
  function UpsertAll(t: Table, targets: set<ResultKey>): Table {
    map k | k in t.Keys + targets :: if k in targets then Bumped(Find(t, k), k) else t[k]
  }

  /** The result keys a conversion touches: one per assigned experiment, for today. */
  function ConversionKeys(assignments: map<string, string>, today: string): set<ResultKey> {
    set e | e in assignments :: ResultKey(e, assignments[e], today)
  }

  lemma UpsertAllStep(t: Table, done: set<ResultKey>, key: ResultKey)
    requires key !in done
    ensures Upsert(UpsertAll(t, done), key) == UpsertAll(t, done + {key})
  {
    var lhs := Upsert(UpsertAll(t, done), key);
    var rhs := UpsertAll(t, done + {key});
    assert lhs.Keys == rhs.Keys;
    forall k | k in lhs.Keys ensures lhs[k] == rhs[k] {
      if k == key {
        assert Find(UpsertAll(t, done), key) == Find(t, key);
      }
    }
  }

  /** The result table as the tracking endpoint sees it. */
  class ResultsTable {
    var rows: Table

    constructor (initial: Table)
      ensures rows == initial
    {
      rows := initial;
    }

    /** `updateExperimentResults(experimentId, variantId, userId)` on day `today`. */
    method UpdateExperimentResults(experimentId: string, variantId: string, today: string)
      modifies this
      ensures rows == Upsert(old(rows), ResultKey(experimentId, variantId, today))
    {
      var key := ResultKey(experimentId, variantId, today);
      var found := Find(rows, key);
      if found.None? {
        rows := rows[key := ResultRow(experimentId, variantId, today, 0, 0, 0.0)];
        found := Some(rows[key]);
      }
      var results := found.value;
      rows := rows[key := results.(conversions := results.conversions + 1,
                                   conversionRate := (results.conversions + 1) as real / Max(results.uniqueUsers, 1) as real)];
    }

    /**
     * The part of `track` after the event is stored: assign the user in every
     * running experiment, and for a conversion event bump today's row of each
     * assigned (experiment, variant) pair.
     */
    method Track(md5: Md5, userId: string, exps: seq<Experiment>, properties: Json, today: string)
      returns (assignments: map<string, string>)
      modifies this
      ensures assignments == AssignmentsOf(md5, userId, exps)
      ensures rows == if !properties.Null? && Truthy(Prop(properties, "conversion"))
                      then UpsertAll(old(rows), ConversionKeys(assignments, today))
                      else old(rows)
    {
      var interventions;
      assignments, interventions := AssignAll(md5, userId, exps);
      if !properties.Null? && Truthy(Prop(properties, "conversion")) {
        var pending := assignments.Keys;
        ghost var done: set<ResultKey> := {};
        assert rows == UpsertAll(old(rows), done);
        while pending != {}
          invariant pending <= assignments.Keys
          invariant done == ConversionKeys(assignments, today) - set e | e in pending :: ResultKey(e, assignments[e], today)
          invariant rows == UpsertAll(old(rows), done)
          decreases pending
        {
          var experimentId :| experimentId in pending;
          var key := ResultKey(experimentId, assignments[experimentId], today);
          UpsertAllStep(old(rows), done, key);
          UpdateExperimentResults(experimentId, assignments[experimentId], today);
          pending := pending - {experimentId};
          done := done + {key};
        }
      }
    }
  }
}
