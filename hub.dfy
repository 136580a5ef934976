/**
 * The rendezvous hub: it scores each provider's proposal, keeps the ones inside the
 * intent's budget and deadline, ranks them by score, and on execution tries the ranked
 * providers in turn until one answers.
 *
 * Network calls are not modelled: what a provider replied to `/intent` is a `Reply`, and
 * what it answers to `/a2a` for a task is given by a function from provider id and task
 * to a `CallOutcome`.
 */
module Hub {
  import opened Wrappers
  import opened Json
  import opened Text
  import opened Models
  import opened StableSort

  /** A provider the hub knows: its id, display name and base URL. */
  datatype Provider = Provider(id: string, name: string, url: string)

  /** The fixed provider list. */
  const Providers: seq<Provider> := [
    Provider("A", "OCR+Regex A", "http://localhost:7001"),
    Provider("B", "OCR+LLM B", "http://localhost:7002"),
    Provider("C", "Template C", "http://localhost:7003")
  ]

  /** Client timeout, in seconds, for `/intent` calls. */
  const ProposalTimeoutSeconds: real := 2.5

  /** Client timeout, in seconds, for `/a2a` calls. */
  const ExecuteTimeoutSeconds: real := 30.0

  /**
   * `calculate_score`: confidence per dollar, discounted by latency in units of five seconds.
   * `None` is the division by zero Python raises when the latency factor is exactly zero.
   */
  function CalculateScore(p: Proposal): (r: Option<real>)
    ensures p.estCostUsd <= 0.0 ==> r == Some(0.0)
    ensures p.estCostUsd > 0.0 ==>
      (r.None? <==> p.estLatencyMs == -5000)
    ensures p.estCostUsd > 0.0 && r.Some? ==>
      r.value * (p.estCostUsd * (1.0 + p.estLatencyMs as real / 5000.0)) == p.confidence
  {
    if p.estCostUsd <= 0.0 then Some(0.0)
    else
      var latencyFactor := 1.0 + p.estLatencyMs as real / 5000.0;
      if p.estCostUsd * latencyFactor == 0.0 then None
      else Some(p.confidence / (p.estCostUsd * latencyFactor))
  }

  /** For a fixed confidence, latency and positive cost, a cheaper proposal never scores lower. */
  lemma CheaperScoresHigher(p: Proposal, q: Proposal)
    requires p.confidence == q.confidence >= 0.0 && p.estLatencyMs == q.estLatencyMs >= 0
    requires 0.0 < p.estCostUsd <= q.estCostUsd
    ensures CalculateScore(p).Some? && CalculateScore(q).Some?
    ensures CalculateScore(p).value >= CalculateScore(q).value
  {
    var f := 1.0 + p.estLatencyMs as real / 5000.0;
    assert f >= 1.0;
    var a, b := p.estCostUsd * f, q.estCostUsd * f;
    var d := q.estCostUsd - p.estCostUsd;
    assert b - a == d * f;
    assert d * f >= 0.0 * f;
    assert 0.0 < a <= b;
    var c := p.confidence;
    var v, u := CalculateScore(p).value, CalculateScore(q).value;
    assert v * a == c && u * b == c;
    QuotientOrder(v, u, a, b, c);
  }

  /** Of two positive divisors of the same non-negative amount, the smaller gives the larger quotient. */
  lemma QuotientOrder(v: real, u: real, a: real, b: real, c: real)
    requires 0.0 < a <= b && c >= 0.0 && v * a == c && u * b == c
    ensures v >= u
  {
  }

  /**
   * A scored reply: the dictionary `fetch_proposal` builds, the hub's tags `_agent`,
   * `_agent_name` and `_score` followed by the reply's own fields. A reply that sends one of
   * those keys itself overrides the tag, so `agent`, `agentName` and `score` hold the merged
   * values; `body` is the reply as sent.
   */
  datatype Ranked = Ranked(agent: Json, agentName: Json, score: real, body: seq<(string, Json)>)

  /** How a provider answered `/intent`: the HTTP status, the JSON object, and what validation made of it. */
  datatype Reply =
    | Answered(status: int, body: seq<(string, Json)>, parsed: Option<Proposal>)
    | Failed(error: string)

  /** A JSON value Python orders as a number: an int, a float, or a bool (1 or 0). */
  function NumberOf(j: Json): Option<real> {
    match j
    case JInt(i) => Some(i as real)
    case JFloat(x) => Some(x)
    case JBool(b) => Some(if b then 1.0 else 0.0)
    case _ => None
  }

  /** The reply's raw value under `key`, when it is one Python compares as a number. */
  function RawNumber(body: seq<(string, Json)>, key: string): Option<real> {
    match Lookup(body, key)
    case Some(v) => NumberOf(v)
    case None => None
  }

  /** The value the merged dictionary holds under a tag key: the reply's own, else the hub's. */
  function Tag(body: seq<(string, Json)>, key: string, hub: Json): Json {
    match Lookup(body, key)
    case Some(v) => v
    case None => hub
  }

  /**
   * `fetch_proposal`: a 200 reply that validates and can be scored becomes a scored reply;
   * anything else is nothing. A `_score` the reply sends replaces the computed score (one
   * that is not a number is not modelled, see "Left out").
   */
  function FetchProposal(provider: Provider, reply: Reply): (r: Option<Ranked>)
    ensures r.Some? <==>
      && reply.Answered? && reply.status == 200 && reply.parsed.Some?
      && CalculateScore(reply.parsed.value).Some?
      && (Lookup(reply.body, "_score").Some? ==> NumberOf(Lookup(reply.body, "_score").value).Some?)
    ensures r.Some? ==> r.value.body == reply.body
    ensures r.Some? ==>
      && (Lookup(reply.body, "_agent").None? ==> r.value.agent == JStr(provider.id))
      && (Lookup(reply.body, "_agent").Some? ==> r.value.agent == Lookup(reply.body, "_agent").value)
      && (Lookup(reply.body, "_agent_name").None? ==> r.value.agentName == JStr(provider.name))
      && (Lookup(reply.body, "_agent_name").Some? ==> r.value.agentName == Lookup(reply.body, "_agent_name").value)
    ensures r.Some? ==>
      && (Lookup(reply.body, "_score").None? ==> Some(r.value.score) == CalculateScore(reply.parsed.value))
      && (Lookup(reply.body, "_score").Some? ==> Some(r.value.score) == NumberOf(Lookup(reply.body, "_score").value))
  {
    match reply
    case Failed(_) => None
    case Answered(status, body, parsed) =>
      if status != 200 || parsed.None? then None
      else match CalculateScore(parsed.value)
        case None => None
        case Some(computed) =>
          var score := match Lookup(body, "_score") case Some(v) => NumberOf(v) case None => Some(computed);
          if score.None? then None
          else Some(Ranked(Tag(body, "_agent", JStr(provider.id)), Tag(body, "_agent_name", JStr(provider.name)), score.value, body))
  }

  /** The known provider a merged `_agent` value names: only a string equal to a provider id does. */
  function ProviderOf(agent: Json): (r: Option<Provider>)
    ensures r.Some? ==> agent == JStr(r.value.id) && r.value in Providers
    ensures r.None? ==> forall p :: p in Providers ==> agent != JStr(p.id)
  {
    if agent.JStr? then LookupProvider(agent.s) else None
  }

  /**
   * A reply without underscore keys keeps the hub's tags: it is executed by the provider that
   * sent it, and ranked by the computed score.
   */
  lemma PlainReplyKeepsHubTags(provider: Provider, reply: Reply)
    requires provider in Providers && reply.Answered?
    requires forall kv :: kv in reply.body ==> !StartsWith(kv.0, "_")
    ensures var r := FetchProposal(provider, reply);
      r.Some? ==> ProviderOf(r.value.agent) == Some(provider) && Some(r.value.score) == CalculateScore(reply.parsed.value)
  {
    var r := FetchProposal(provider, reply);
    if r.Some? {
      NoUnderscoreKey(reply.body, "_agent");
      NoUnderscoreKey(reply.body, "_score");
      ProviderIdsDistinct();
    }
  }

  /** A key starting with an underscore is absent from fields none of whose keys does. */
  lemma NoUnderscoreKey(fields: seq<(string, Json)>, key: string)
    requires StartsWith(key, "_")
    requires forall kv :: kv in fields ==> !StartsWith(kv.0, "_")
    ensures Lookup(fields, key).None?
  {
  }

  /**
   * A reply that names another known provider in `_agent` is attributed to that provider,
   * whichever provider sent it: execution will call the named one.
   */
  lemma ReplyTagOverridesSender(provider: Provider, reply: Reply, other: Provider)
    requires reply.Answered? && other in Providers
    requires Lookup(reply.body, "_agent") == Some(JStr(other.id))
    ensures var r := FetchProposal(provider, reply);
      r.Some? ==> ProviderOf(r.value.agent) == Some(other)
  {
    ProviderIdsDistinct();
  }

  /** An entry of `asyncio.gather(..., return_exceptions=True)`: a returned value or a raised exception. */
  datatype Gathered = Returned(value: Option<Ranked>) | Raised(error: string)

  /** The list comprehension in `post_intent`: drop `None` results and exceptions, keep order. */
  function Collected(results: seq<Gathered>): (r: seq<Option<Ranked>>)
    ensures |r| <= |results|
    ensures forall i :: 0 <= i < |r| ==> r[i].Some?
    ensures forall x :: Some(x) in r <==> Returned(Some(x)) in results
  {
    if results == [] then []
    else
      var rest := Collected(results[1..]);
      assert forall g :: g in results <==> g == results[0] || g in results[1..];
      match results[0]
      case Returned(Some(x)) => [Some(x)] + rest
      case _ => rest
  }

  /**
   * The comprehension keeps order: the results of a concatenation are the results of each
   * part, one after the other, and a single entry gives its value or nothing.
   */
  lemma {:induction false} CollectedKeepsOrder(a: seq<Gathered>, b: seq<Gathered>)
    ensures Collected(a + b) == Collected(a) + Collected(b)
    ensures forall x :: Collected([Returned(Some(x))]) == [Some(x)]
    ensures forall e :: Collected([Raised(e)]) == [] && Collected([Returned(None)]) == []
  {
    if a == [] {
      assert a + b == b;
    } else {
      assert (a + b)[1..] == a[1..] + b;
      CollectedKeepsOrder(a[1..], b);
    }
  }

  /** The budget ceiling the filter applies: `max_usd` when the budget is present and has it. */
  function BudgetCap(intent: Intent): Option<real> {
    if intent.budget.Some? && "max_usd" in intent.budget.value then Some(intent.budget.value["max_usd"]) else None
  }

  /** The deadline the filter applies: `deadline_ms` when the SLA is present and has it. */
  function DeadlineCap(intent: Intent): Option<int> {
    if intent.sla.Some? && "deadline_ms" in intent.sla.value then Some(intent.sla.value["deadline_ms"]) else None
  }

  /**
   * A reply survives the filter when the raw values it sent exceed neither ceiling that is
   * present. The filter compares the reply as sent, not the validated proposal.
   */
  predicate WithinLimits(p: Ranked, intent: Intent) {
    && (BudgetCap(intent).Some? ==>
         RawNumber(p.body, "est_cost_usd").Some? && RawNumber(p.body, "est_cost_usd").value <= BudgetCap(intent).value)
    && (DeadlineCap(intent).Some? ==>
         RawNumber(p.body, "est_latency_ms").Some? &&
         RawNumber(p.body, "est_latency_ms").value <= DeadlineCap(intent).value as real)
  }

  /** The proposals that pass the filter, in input order. */
  function Kept(ps: seq<Option<Ranked>>, intent: Intent): (r: seq<Ranked>)
    ensures |r| <= |ps|
    ensures forall x :: x in r <==> Some(x) in ps && WithinLimits(x, intent)
  {
    if ps == [] then []
    else
      var rest := Kept(ps[..|ps| - 1], intent);
      var last := ps[|ps| - 1];
      assert ps == ps[..|ps| - 1] + [last];
      if last.Some? && WithinLimits(last.value, intent) then rest + [last.value] else rest
  }

  /** The sort key. */
  function ScoreOf(p: Ranked): real { p.score }

  /** What `post_intent` answers for these gathered results: the kept replies, ranked. */
  function Ranking(results: seq<Gathered>, intent: Intent): seq<Ranked> {
    SortDesc(Kept(Collected(results), intent), ScoreOf)
  }

  /**
   * `filter_and_sort_proposals`: drop missing replies and those over a ceiling, then sort
   * by score, highest first, stably.
   */
  method FilterAndSort(proposals: seq<Option<Ranked>>, intent: Intent) returns (filtered: seq<Ranked>)
    ensures filtered == SortDesc(Kept(proposals, intent), ScoreOf)
    ensures forall x :: x in filtered ==> Some(x) in proposals && WithinLimits(x, intent)
    ensures multiset(filtered) == multiset(Kept(proposals, intent))
    ensures forall i, j :: 0 <= i < j < |filtered| ==> filtered[i].score >= filtered[j].score
    ensures forall k :: WithKey(filtered, ScoreOf, k) == WithKey(Kept(proposals, intent), ScoreOf, k)
  {
    filtered := [];
    var i := 0;
    while i < |proposals|
      invariant 0 <= i <= |proposals|
      invariant filtered == Kept(proposals[..i], intent)
    {
      var prop := proposals[i];
      assert proposals[..i + 1][..i] == proposals[..i];
      i := i + 1;
      if prop.None? {
        continue;
      }
      var budget := BudgetCap(intent);
      var cost := RawNumber(prop.value.body, "est_cost_usd");
      if budget.Some? && (cost.None? || cost.value > budget.value) {
        continue;
      }
      var deadline := DeadlineCap(intent);
      var latency := RawNumber(prop.value.body, "est_latency_ms");
      if deadline.Some? && (latency.None? || latency.value > deadline.value as real) {
        continue;
      }
      filtered := filtered + [prop.value];
    }
    assert proposals[..i] == proposals;
    var kept := filtered;
    filtered := SortDesc(kept, ScoreOf);
    SortDescCorrect(kept, ScoreOf);
    forall x | x in filtered ensures x in kept {
      assert x in multiset(filtered);
    }
  }

  /** With neither ceiling present, every reply that arrived is kept. */
  lemma NoCeilingsKeepAll(ps: seq<Option<Ranked>>, intent: Intent)
    requires BudgetCap(intent).None? && DeadlineCap(intent).None?
    ensures forall x :: x in Kept(ps, intent) <==> Some(x) in ps
  {
  }

  /**
   * `post_intent`: the replies that arrived and fit the ceilings, each as often as it
   * arrived, ranked by score, highest first, equal scores in arrival order.
   */
  method PostIntent(intent: Intent, results: seq<Gathered>) returns (proposals: seq<Ranked>)
    ensures proposals == Ranking(results, intent)
    ensures forall x :: x in proposals <==> Returned(Some(x)) in results && WithinLimits(x, intent)
    ensures multiset(proposals) == multiset(Kept(Collected(results), intent))
    ensures forall i, j :: 0 <= i < j < |proposals| ==> proposals[i].score >= proposals[j].score
    ensures forall k :: WithKey(proposals, ScoreOf, k) == WithKey(Kept(Collected(results), intent), ScoreOf, k)
  {
    var collected := Collected(results);
    proposals := FilterAndSort(collected, intent);
    forall x | Returned(Some(x)) in results && WithinLimits(x, intent) ensures x in proposals {
      assert x in Kept(collected, intent);
      assert x in multiset(Kept(collected, intent));
    }
  }

  /** The first known provider with this id. */
  function LookupProvider(id: string): (r: Option<Provider>)
    ensures r.Some? <==> exists p :: p in Providers && p.id == id
    ensures r.Some? ==> r.value in Providers && r.value.id == id
  {
    if Providers[0].id == id then Some(Providers[0])
    else if Providers[1].id == id then Some(Providers[1])
    else if Providers[2].id == id then Some(Providers[2])
    else None
  }

  /** Provider ids are distinct, so the lookup finds exactly the provider that made the proposal. */
  lemma ProviderIdsDistinct()
    ensures forall i, j :: 0 <= i < j < |Providers| ==> Providers[i].id != Providers[j].id
  {
  }

  /** The task sent to the winner: the intent's goal and inputs, and its deadline or the default. */
  function TaskFor(intent: Intent): (t: Task)
    ensures t.goal == intent.goal && t.inputs == intent.inputs
    ensures DeadlineCap(intent).Some? ==> t.slaMs == DeadlineCap(intent).value
    ensures DeadlineCap(intent).None? ==> t.slaMs == 120000
  {
    var sla := if intent.sla.Some? && |intent.sla.value| > 0 then
      (if "deadline_ms" in intent.sla.value then intent.sla.value["deadline_ms"] else DefaultSlaMs)
    else DefaultSlaMs;
    Task(intent.goal, intent.inputs, sla)
  }

  /** How a provider's `/a2a` call ended. */
  datatype CallOutcome =
    | Responded(status: int, body: Json)
    | UndecodableBody(status: int, error: string)
    | TransportError(error: string)
    | UnexpectedError(error: string)

  /** The hub's `/execute` answer: the winner, or HTTP 503 with a detail message. */
  datatype ExecuteResponse =
    | Winner(winner: string, winnerName: string, proposal: seq<(string, Json)>, result: Json)
    | Unavailable(status: int, detail: string)

  /** The fields of a reply whose key does not start with an underscore, in order. */
  function PublicFields(fields: seq<(string, Json)>): (r: seq<(string, Json)>)
    ensures forall kv :: kv in r <==> kv in fields && !StartsWith(kv.0, "_")
  {
    if fields == [] then []
    else
      var rest := PublicFields(fields[1..]);
      assert forall kv :: kv in fields <==> kv == fields[0] || kv in fields[1..];
      if StartsWith(fields[0].0, "_") then rest else [fields[0]] + rest
  }

  /** `execute` returns for this ranked proposal: its `_agent` names a known provider, which answered 200 with JSON. */
  predicate Succeeds(p: Ranked, call: (string, Task) -> CallOutcome, task: Task) {
    ProviderOf(p.agent).Some? && call(p.agent.s, task).Responded? && call(p.agent.s, task).status == 200
  }

  /** Entry `i` of the ranked list is the first whose provider answers. */
  predicate FirstSuccess(ranked: seq<Ranked>, i: int, call: (string, Task) -> CallOutcome, task: Task) {
    && 0 <= i < |ranked| && Succeeds(ranked[i], call, task)
    && forall j :: 0 <= j < i ==> !Succeeds(ranked[j], call, task)
  }

  /** The answer for a proposal whose provider answered: its id and name, public fields, and the result. */
  function WinnerOf(p: Ranked, call: (string, Task) -> CallOutcome, task: Task): ExecuteResponse
    requires Succeeds(p, call, task)
  {
    Winner(p.agent.s, ProviderOf(p.agent).value.name, PublicFields(p.body), call(p.agent.s, task).body)
  }

  /** A `last_error` text: "Provider ", the provider id, a space, then what went wrong. */
  function ProviderMessage(id: string, text: string): (r: string)
    ensures StartsWith(r, "Provider " + id + " ")
  {
    var prefix := "Provider " + id + " ";
    assert (prefix + text)[..|prefix|] == prefix;
    prefix + text
  }

  /** The `last_error` text an attempt on this proposal leaves, if it is attempted and fails. */
  function AttemptError(p: Ranked, call: (string, Task) -> CallOutcome, task: Task): (r: Option<string>)
    ensures r.Some? <==> ProviderOf(p.agent).Some? && !Succeeds(p, call, task)
    ensures r.Some? ==> StartsWith(r.value, "Provider " + p.agent.s + " ")
  {
    if ProviderOf(p.agent).None? then None
    else
      var id := p.agent.s;
      match call(id, task)
      case Responded(status, _) =>
        if status == 200 then None else Some(ProviderMessage(id, "returned status " + IntToString(status)))
      case UndecodableBody(status, e) =>
        if status == 200 then Some(ProviderMessage(id, "unexpected error: " + e))
        else Some(ProviderMessage(id, "returned status " + IntToString(status)))
      case TransportError(e) => Some(ProviderMessage(id, "error: " + e))
      case UnexpectedError(e) => Some(ProviderMessage(id, "unexpected error: " + e))
  }

  /** `last_error` after trying every proposal of `ps` in order, none succeeding. */
  function LastError(ps: seq<Ranked>, call: (string, Task) -> CallOutcome, task: Task): Option<string> {
    if ps == [] then None
    else
      var e := AttemptError(ps[|ps| - 1], call, task);
      if e.Some? then e else LastError(ps[..|ps| - 1], call, task)
  }

  /** One more failed attempt extends the run of failures. */
  lemma NoSuccessStep(ranked: seq<Ranked>, i: nat, call: (string, Task) -> CallOutcome, task: Task)
    requires i < |ranked| && !Succeeds(ranked[i], call, task)
    requires forall j :: 0 <= j < i ==> !Succeeds(ranked[j], call, task)
    ensures forall j :: 0 <= j < i + 1 ==> !Succeeds(ranked[j], call, task)
  {
  }

  /** One more failed attempt: its error, when it leaves one, becomes the last error. */
  lemma LastErrorStep(ranked: seq<Ranked>, i: nat, call: (string, Task) -> CallOutcome, task: Task)
    requires i < |ranked|
    ensures var e := AttemptError(ranked[i], call, task);
      LastError(ranked[..i + 1], call, task) == if e.Some? then e else LastError(ranked[..i], call, task)
  {
    assert ranked[..i + 1][..i] == ranked[..i];
  }

  /** Python's `f"{x}"` for an optional string. */
  function ShowOptional(s: Option<string>): string {
    if s.Some? then s.value else "None"
  }

  /** The detail of the 503 when every attempt failed. */
  function AllFailedDetail(ps: seq<Ranked>, call: (string, Task) -> CallOutcome, task: Task): string {
    "All providers failed. Last error: " + ShowOptional(LastError(ps, call, task))
  }

  /**
   * The fallback loop of `execute` over the ranked list: the first proposal whose provider
   * answers 200 wins; otherwise 503 with the last error.
   */
  method TryRanked(ranked: seq<Ranked>, task: Task, call: (string, Task) -> CallOutcome)
    returns (response: ExecuteResponse)
    ensures response.Winner? <==> exists i :: 0 <= i < |ranked| && Succeeds(ranked[i], call, task)
    ensures response.Winner? ==> exists i :: FirstSuccess(ranked, i, call, task) && response == WinnerOf(ranked[i], call, task)
    ensures !response.Winner? ==> response == Unavailable(503, AllFailedDetail(ranked, call, task))
  {
    var lastError: Option<string> := None;
    var i := 0;
    while i < |ranked|
      invariant 0 <= i <= |ranked|
      invariant forall j :: 0 <= j < i ==> !Succeeds(ranked[j], call, task)
      invariant lastError == LastError(ranked[..i], call, task)
    {
      var won, winner, error := Attempt(ranked[i], call, task);
      if won {
        assert FirstSuccess(ranked, i, call, task);
        return winner;
      }
      LastErrorStep(ranked, i, call, task);
      NoSuccessStep(ranked, i, call, task);
      if error.Some? {
        lastError := error;
      }
      i := i + 1;
    }
    assert ranked[..i] == ranked;
    response := Unavailable(503, "All providers failed. Last error: " + ShowOptional(lastError));
  }

  /**
   * One pass of the fallback loop: skip a proposal whose `_agent` is not a provider, otherwise
   * call it; a 200 with JSON wins, anything else leaves its `last_error` text.
   */
  method Attempt(p: Ranked, call: (string, Task) -> CallOutcome, task: Task)
    returns (won: bool, winner: ExecuteResponse, error: Option<string>)
    ensures won <==> Succeeds(p, call, task)
    ensures won ==> winner == WinnerOf(p, call, task)
    ensures !won ==> error == AttemptError(p, call, task)
  {
    won, winner, error := false, Unavailable(503, ""), None;
    var provider := ProviderOf(p.agent);
    if provider.None? {
      return;
    }
    var providerId := p.agent.s;
    var outcome := call(providerId, task);
    match outcome {
      case Responded(status, body) =>
        if status == 200 {
          return true, Winner(providerId, provider.value.name, PublicFields(p.body), body), None;
        }
        error := Some(ProviderMessage(providerId, "returned status " + IntToString(status)));
      case UndecodableBody(status, e) =>
        if status == 200 {
          error := Some(ProviderMessage(providerId, "unexpected error: " + e));
        } else {
          error := Some(ProviderMessage(providerId, "returned status " + IntToString(status)));
        }
      case TransportError(e) =>
        error := Some(ProviderMessage(providerId, "error: " + e));
      case UnexpectedError(e) =>
        error := Some(ProviderMessage(providerId, "unexpected error: " + e));
    }
  }

  /** The detail of the 503 when nothing survives the filter. */
  const NoProvidersDetail: string := "No available providers matching constraints"

  /** The two 503 details differ, so each names its own cause. */
  lemma DetailsDiffer(ps: seq<Ranked>, call: (string, Task) -> CallOutcome, task: Task)
    ensures AllFailedDetail(ps, call, task) != NoProvidersDetail
  {
    assert AllFailedDetail(ps, call, task)[0] == 'A' != NoProvidersDetail[0];
  }

  /**
   * `execute`: rank the replies as `post_intent` does, refuse with 503 when none is left,
   * otherwise send the task down the ranked list: the first provider that answers wins,
   * and when none does the 503 carries the last error.
   */
  method Execute(intent: Intent, results: seq<Gathered>, call: (string, Task) -> CallOutcome)
    returns (response: ExecuteResponse)
    ensures response == Unavailable(503, NoProvidersDetail) <==> Ranking(results, intent) == []
    ensures var ranked := Ranking(results, intent); var task := TaskFor(intent);
      ranked != [] ==>
        && (response.Winner? <==> exists i :: 0 <= i < |ranked| && Succeeds(ranked[i], call, task))
        && (response.Winner? ==> exists i :: FirstSuccess(ranked, i, call, task) && response == WinnerOf(ranked[i], call, task))
        && (!response.Winner? ==> response == Unavailable(503, AllFailedDetail(ranked, call, task)))
    ensures (forall x :: Returned(Some(x)) in results ==> !WithinLimits(x, intent)) ==>
      response == Unavailable(503, NoProvidersDetail)
    ensures (exists x :: Returned(Some(x)) in results && WithinLimits(x, intent) && Succeeds(x, call, TaskFor(intent)))
      ==> response.Winner?
  {
    var ranked := PostIntent(intent, results);
    if ranked == [] {
      return Unavailable(503, NoProvidersDetail);
    }
    assert ranked[0] in ranked;
    var task := TaskFor(intent);
    response := TryRanked(ranked, task, call);
    DetailsDiffer(ranked, call, task);
  }

  /**
   * The winner is the highest-scoring proposal that succeeds: no proposal ranked with a
   * strictly higher score succeeds.
   */
  lemma WinnerHasBestSucceedingScore(ranked: seq<Ranked>, i: nat, call: (string, Task) -> CallOutcome, task: Task)
    requires forall a, b :: 0 <= a < b < |ranked| ==> ranked[a].score >= ranked[b].score
    requires FirstSuccess(ranked, i, call, task)
    ensures forall x :: x in ranked && Succeeds(x, call, task) ==> x.score <= ranked[i].score
  {
    forall x | x in ranked && Succeeds(x, call, task) ensures x.score <= ranked[i].score {
      var k :| 0 <= k < |ranked| && ranked[k] == x;
      assert k >= i;
    }
  }
}
