/**
 * The persisted entities the experiment engine reads and writes: experiments,
 * their variants and the per-day result rows. Identifiers are the database's
 * UUIDs, kept as opaque strings; times are milliseconds since the epoch and a
 * result row's date is the `YYYY-MM-DD` string of its day.
 */
module Domain {
  import opened Wrappers
  import opened Js

  /** An error response: its HTTP status and its `error` message. */
  datatype HttpError = HttpError(status: int, error: string)

  datatype Status = Draft | Running | Paused | Completed

  /** The value the API and the dashboard use for a status. */
  function StatusName(s: Status): string {
    match s
    case Draft => "draft"
    case Running => "running"
    case Paused => "paused"
    case Completed => "completed"
  }

  /** A variant's free-form configuration object (JSONB). */
  type Config = map<string, Json>

  datatype Variant = Variant(
    id: string,
    experimentId: string,
    name: string,
    description: Option<string>,
    isControl: bool,
    weightPercentage: real,
    configuration: Config)

  datatype Experiment = Experiment(
    id: string,
    projectId: string,
    organizationId: string,   // the organisation owning the experiment's project
    name: string,
    description: Option<string>,   // a nullable TEXT column
    hypothesis: string,
    interventionType: string,
    status: Status,
    trafficAllocation: int,
    variants: seq<Variant>,
    startedAt: Option<int>,
    completedAt: Option<int>)

  /** One row of the per-day results table. */
  datatype ResultRow = ResultRow(
    experimentId: string,
    variantId: string,
    date: string,
    uniqueUsers: int,
    conversions: int,
    conversionRate: real)

  /** The key the results table is unique on. */
  datatype ResultKey = ResultKey(experimentId: string, variantId: string, date: string)

  /** `Math.abs` on a real. */
  function Abs(x: real): (r: real)
    ensures r >= 0.0 && (r == x || r == -x)
  {
    if x < 0.0 then -x else x
  }

  /** No two variants share an id (they are primary keys). */
  predicate DistinctIds(vs: seq<Variant>) {
    forall i, j :: 0 <= i < j < |vs| ==> vs[i].id != vs[j].id
  }

  /** The sum of the weights of the first k variants. */
  function PrefixWeight(vs: seq<Variant>, k: nat): real
    requires k <= |vs|
  {
    if k == 0 then 0.0 else PrefixWeight(vs, k - 1) + vs[k - 1].weightPercentage
  }

  /** The cumulative weight once variant j has been added (the source's `cumulativeWeight`). */
  function CumulativeWeight(vs: seq<Variant>, j: nat): real
    requires j < |vs|
  {
    PrefixWeight(vs, j + 1)
  }

  /** The sum of all variant weights. */
  function TotalWeight(vs: seq<Variant>): real {
    PrefixWeight(vs, |vs|)
  }

  predicate NonNegativeWeights(vs: seq<Variant>) {
    forall i :: 0 <= i < |vs| ==> 0.0 <= vs[i].weightPercentage
  }

  /** With non-negative weights, prefix sums never decrease. */
  lemma {:induction false} PrefixWeightMonotone(vs: seq<Variant>, j: nat, k: nat)
    requires NonNegativeWeights(vs)
    requires j <= k <= |vs|
    ensures PrefixWeight(vs, j) <= PrefixWeight(vs, k)
  {
    if j < k {
      PrefixWeightMonotone(vs, j, k - 1);
    }
  }
}
