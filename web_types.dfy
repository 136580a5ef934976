/**
 * Values the web client's pages and components share: a ranked proposal as the hub sends
 * it, the hub's optional explanation, the comparative figures shown in a "why" panel,
 * the outcome of a `fetch`, and the small display rules both pages use.
 */
module WebTypes {
  import opened Wrappers
  import opened Json
  import opened Text

  /** Constraints the hub echoes back in an explanation; each may be missing. */
  datatype ExplainedConstraints = ExplainedConstraints(budgetMaxUsd: Option<real>, slaDeadlineMs: Option<real>)

  /** Cost and latency the hub used when ranking; each may be missing. */
  datatype ExplainedInputs = ExplainedInputs(costUsd: Option<real>, latencyMs: Option<real>)

  /** The hub's explanation of a ranking. */
  datatype Explanation = Explanation(constraints: Option<ExplainedConstraints>, inputs: Option<ExplainedInputs>)

  /** A ranked proposal as the client receives it. JavaScript numbers are reals. */
  datatype UiProposal = UiProposal(
    agent: string,
    agentName: string,
    score: real,
    estCostUsd: real,
    estLatencyMs: real,
    confidence: real,
    plan: seq<string>,
    explanation: Option<Explanation>)

  /** The figures a "why" panel shows; `None` is a figure that is not shown. */
  datatype Figures = Figures(
    scoreDelta: Option<real>,
    costDelta: Option<real>,
    latencyDelta: Option<real>,
    budgetHeadroom: Option<real>,
    timeHeadroom: Option<real>)

  /** `explanation.constraints?.budget_max_usd ?? null`. */
  function BudgetMax(e: Explanation): Option<real> {
    if e.constraints.Some? then e.constraints.value.budgetMaxUsd else None
  }

  /** `explanation.constraints?.sla_deadline_ms ?? null`. */
  function DeadlineMax(e: Explanation): Option<real> {
    if e.constraints.Some? then e.constraints.value.slaDeadlineMs else None
  }

  /** `explanation.inputs?.cost_usd`. */
  function ExplainedCost(e: Explanation): Option<real> {
    if e.inputs.Some? then e.inputs.value.costUsd else None
  }

  /** `explanation.inputs?.latency_ms`. */
  function ExplainedLatency(e: Explanation): Option<real> {
    if e.inputs.Some? then e.inputs.value.latencyMs else None
  }

  /** How a `fetch` followed by `response.json()` ended. */
  datatype FetchOutcome<T> =
    | NetworkFailure(message: string)
    | NotOk(status: int, statusText: string)
    | BadJson(message: string)
    | Body(value: T)

  /** The `Error` a non-2xx response is turned into. */
  function HttpErrorMessage(status: int, statusText: string): string {
    "HTTP " + IntToString(status) + ": " + statusText
  }

  /** `err.message || fallback` for a failed fetch. */
  function FailureMessage<T>(o: FetchOutcome<T>, fallback: string): (m: string)
    requires !o.Body?
    ensures o.NotOk? ==> m == HttpErrorMessage(o.status, o.statusText)
    ensures (o.NetworkFailure? || o.BadJson?) && o.message != "" ==> m == o.message
    ensures (o.NetworkFailure? || o.BadJson?) && o.message == "" ==> m == fallback
  {
    match o
    case NotOk(status, text) => HttpErrorMessage(status, text)
    case NetworkFailure(msg) => if msg == "" then fallback else msg
    case BadJson(msg) => if msg == "" then fallback else msg
  }

  /** Which request the page is waiting for. */
  datatype LoadingKind = Idle | PostingIntent | Executing

  /** `plan.slice(0, 2)`: the plan preview. */
  function PlanPreview(plan: seq<string>): (r: seq<string>)
    ensures |r| <= 2 && |r| <= |plan| && r == plan[..|r|]
    ensures |r| == 2 || r == plan
  {
    if |plan| <= 2 then plan else plan[..2]
  }

  /** The flag each row gets: only the first row is marked as the winner ("Best"). */
  function WinnerFlags(proposals: seq<UiProposal>): (r: seq<bool>)
    ensures |r| == |proposals|
    ensures forall i :: 0 <= i < |r| ==> (r[i] <==> i == 0)
  {
    seq(|proposals|, i => i == 0)
  }

  /** The badge style a result status gets. */
  datatype BadgeVariant = Success | Warning | Destructive | Default

  /** `getStatusBadgeVariant`: OK, PARTIAL and ERROR have their own style; anything else the default. */
  function StatusBadgeVariant(status: string): (r: BadgeVariant)
    ensures r == Success <==> status == "OK"
    ensures r == Warning <==> status == "PARTIAL"
    ensures r == Destructive <==> status == "ERROR"
  {
    if status == "OK" then Success
    else if status == "PARTIAL" then Warning
    else if status == "ERROR" then Destructive
    else Default
  }
}
