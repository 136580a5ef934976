/**
 * The wire records shared by the hub and the providers: an intent, a provider's
 * proposal, the task the hub sends to the winner, and the result a provider returns.
 * Dictionaries of arbitrary JSON are JSON object field lists; the budget and the SLA,
 * which only ever hold numbers under string keys, are maps.
 */
module Models {
  import opened Wrappers
  import opened Json

  /** `Task.sla_ms` when the intent gives no deadline. */
  const DefaultSlaMs: int := 120000

  /** A client's request: what to do, on what, and optional ceilings. */
  datatype Intent = Intent(
    goal: string,
    inputs: seq<(string, Json)>,
    constraints: Option<seq<(string, Json)>>,
    budget: Option<map<string, real>>,
    sla: Option<map<string, int>>)

  /** A provider's bid: estimated cost and latency, its confidence, and its plan. */
  datatype Proposal = Proposal(
    estCostUsd: real,
    estLatencyMs: int,
    confidence: real,
    plan: seq<string>,
    needs: seq<(string, Json)>)

  /** What the hub asks the winning provider to do. */
  datatype Task = Task(goal: string, inputs: seq<(string, Json)>, slaMs: int)

  /** The three outcomes a provider may report. */
  datatype Status = OK | PARTIAL | ERROR

  /** A provider's answer to a task. */
  datatype Result = Result(
    status: Status,
    data: seq<(string, Json)>,
    metrics: seq<(string, Json)>,
    evidence: seq<(string, Json)>,
    error: Option<string>)

  /** An intent with only the required fields: no constraints, no budget, no SLA. */
  function NewIntent(goal: string, inputs: seq<(string, Json)>): (i: Intent)
    ensures i.goal == goal && i.inputs == inputs
    ensures i.constraints.None? && i.budget.None? && i.sla.None?
  {
    Intent(goal, inputs, None, None, None)
  }

  /** A proposal built without `needs` gets an empty map. */
  function NewProposal(cost: real, latency: int, confidence: real, plan: seq<string>): (p: Proposal)
    ensures p.estCostUsd == cost && p.estLatencyMs == latency && p.confidence == confidence
    ensures p.plan == plan && p.needs == []
  {
    Proposal(cost, latency, confidence, plan, [])
  }

  /** A task built without `sla_ms` gets the two-minute default. */
  function NewTask(goal: string, inputs: seq<(string, Json)>): (t: Task)
    ensures t.goal == goal && t.inputs == inputs && t.slaMs == 120000
  {
    Task(goal, inputs, DefaultSlaMs)
  }

  /** A result built from its status alone: empty data, metrics and evidence, no error. */
  function NewResult(status: Status): (r: Result)
    ensures r.status == status && r.data == [] && r.metrics == [] && r.evidence == []
    ensures r.error.None?
  {
    Result(status, [], [], [], None)
  }

  /** The literal a status is written as on the wire. */
  function StatusName(s: Status): (name: string)
    ensures name in ["OK", "PARTIAL", "ERROR"]
  {
    match s
    case OK => "OK"
    case PARTIAL => "PARTIAL"
    case ERROR => "ERROR"
  }

  /** Validation of the `status` literal: anything but the three names is refused. */
  function ParseStatus(name: string): (r: Option<Status>)
    ensures r.Some? <==> name in ["OK", "PARTIAL", "ERROR"]
  {
    if name == "OK" then Some(OK)
    else if name == "PARTIAL" then Some(PARTIAL)
    else if name == "ERROR" then Some(ERROR)
    else None
  }

  /** Writing a status and validating it gives the status back, and names are distinct. */
  lemma StatusRoundTrip(s: Status, t: Status)
    ensures ParseStatus(StatusName(s)) == Some(s)
    ensures StatusName(s) == StatusName(t) ==> s == t
  {
  }
}
