/**
 * The main page of the web client: the intent being edited, the negotiation that asks the
 * hub for ranked proposals and reveals them one by one, the execution of the best one,
 * registration of a new agent, the input helpers, and the "why this agent?" figures.
 *
 * Every `fetch` is an input: its outcome is a parameter of the handler that awaits it.
 * The delays of the reveal are left out, so the reveal is a plain loop. The handlers run
 * one at a time, as the page's buttons are disabled while a request is pending.
 */
module HomePage {
  import opened Wrappers
  import opened Json
  import opened Text
  import opened WebTypes
  import opened TaskTemplates
  import opened TaskHistory
  import opened ProposalStream

  /** The hub address used when `NEXT_PUBLIC_HUB_URL` is unset or empty. */
  const DefaultHubUrl: string := "http://localhost:8000"

  /** `process.env.NEXT_PUBLIC_HUB_URL || 'http://localhost:8000'`. */
  function HubUrl(env: Option<string>): (r: string)
    ensures env.Some? && env.value != "" ==> r == env.value
    ensures env.None? || env.value == "" ==> r == DefaultHubUrl
  {
    if env.Some? && env.value != "" then env.value else DefaultHubUrl
  }

  /** The intent as the page edits it; the page never sets `constraints`. */
  datatype PageIntent = PageIntent(goal: string, inputs: seq<(string, Json)>, budget: Option<Budget>, sla: Option<Sla>)

  /** The intent the page starts with. */
  const InitialIntent: PageIntent := PageIntent(
    "extract_event",
    [("text", JStr(EventSample))],
    Some(Budget(Some(0.1))),
    Some(Sla(Some(5000))))

  const RequiredMessage: string := "Name and URL are required"
  const RegisterFailedMessage: string := "Failed to register agent"
  const RegisteredAlert: string := "Agent registered successfully! It will now be included in searches."
  const InvalidJsonMessage: string := "Invalid JSON input"
  const PostFallback: string := "Failed to post intent"
  const ExecuteFallback: string := "Failed to execute"

  /** The first template whose goal is `goal` (`taskTemplates.find`). */
  function FindByGoal(ts: seq<Template>, goal: string): (r: Option<Template>)
    ensures r.Some? ==> r.value in ts && r.value.goal == goal
    ensures r.None? <==> forall i :: 0 <= i < |ts| ==> ts[i].goal != goal
  {
    if ts == [] then None
    else if ts[0].goal == goal then Some(ts[0])
    else
      var r := FindByGoal(ts[1..], goal);
      assert forall i :: 1 <= i < |ts| ==> ts[1..][i - 1] == ts[i];
      r
  }

  /** `obj[key] = value` on an object: an existing key keeps its place, a new key goes last. */
  function Set(fields: seq<(string, Json)>, key: string, value: Json): (r: seq<(string, Json)>)
    ensures Lookup(r, key) == Some(value)
    ensures forall k :: k != key ==> Lookup(r, k) == Lookup(fields, k)
    ensures |r| == |fields| <==> Lookup(fields, key).Some?
    ensures |r| == |fields| || |r| == |fields| + 1
  {
    if fields == [] then [(key, value)]
    else if fields[0].0 == key then [(key, value)] + fields[1..]
    else [fields[0]] + Set(fields[1..], key, value)
  }

  /** The value a key has after the entries are assigned in order: the last assignment wins. */
  function LastLookup(entries: seq<(string, Json)>, key: string): (r: Option<Json>)
    ensures r.None? <==> forall i :: 0 <= i < |entries| ==> entries[i].0 != key
    ensures r.Some? ==> (key, r.value) in entries
  {
    if entries == [] then None
    else if entries[|entries| - 1].0 == key then Some(entries[|entries| - 1].1)
    else
      var r := LastLookup(entries[..|entries| - 1], key);
      assert forall i :: 0 <= i < |entries| - 1 ==> entries[..|entries| - 1][i] == entries[i];
      r
  }

  /** `{...base, ...over}` for entries `over`: each entry is assigned over `base` in order. */
  function Spread(base: seq<(string, Json)>, over: seq<(string, Json)>): seq<(string, Json)> {
    if over == [] then base
    else Set(Spread(base, over[..|over| - 1]), over[|over| - 1].0, over[|over| - 1].1)
  }

  /** After a spread, a key has the last value `over` gives it, and otherwise its value in `base`. */
  lemma {:induction false} SpreadLookup(base: seq<(string, Json)>, over: seq<(string, Json)>, key: string)
    ensures Lookup(Spread(base, over), key) ==
      if LastLookup(over, key).Some? then LastLookup(over, key) else Lookup(base, key)
  {
    if over != [] {
      SpreadLookup(base, over[..|over| - 1], key);
    }
  }

  /**
   * The own enumerable entries of a parsed value, as spread syntax sees them: an object's
   * fields, an array's or a string's elements under their decimal indices, and nothing for
   * null, booleans and numbers.
   */
  function SpreadEntries(parsed: Json): (r: seq<(string, Json)>)
    ensures parsed.JObj? ==> r == parsed.fields
    ensures parsed.JArr? ==> (|r| == |parsed.items| &&
      forall i :: 0 <= i < |r| ==> r[i] == (NatToString(i), parsed.items[i]))
    ensures parsed.JStr? ==> (|r| == |parsed.s| &&
      forall i :: 0 <= i < |r| ==> r[i] == (NatToString(i), JStr([parsed.s[i]])))
    ensures !(parsed.JObj? || parsed.JArr? || parsed.JStr?) ==> r == []
  {
    match parsed
    case JObj(fields) => fields
    case JArr(items) => seq(|items|, i requires 0 <= i < |items| => (NatToString(i), items[i]))
    case JStr(s) => seq(|s|, i requires 0 <= i < |s| => (NatToString(i), JStr([s[i]])))
    case _ => []
  }

  /** The list shown: the revealed proposals while there are any, otherwise the final list. */
  function DisplayProposals(streaming: seq<UiProposal>, proposals: seq<UiProposal>): (r: seq<UiProposal>)
    ensures |streaming| > 0 ==> r == streaming
    ensures |streaming| == 0 ==> r == proposals
  {
    if |streaming| > 0 then streaming else proposals
  }

  /**
   * The figures of the execution result's "why" panel: the winner is always the first
   * displayed proposal and the peer the second; a headroom needs both its constraint and
   * a cost (or latency), which falls back to the winner's estimate.
   */
  function PageWhy(display: seq<UiProposal>, e: Explanation): (f: Figures)
    ensures (f.scoreDelta.Some? <==> |display| >= 2) && (f.costDelta.Some? <==> |display| >= 2) &&
      (f.latencyDelta.Some? <==> |display| >= 2)
    ensures |display| >= 2 ==>
      f.scoreDelta.value == display[0].score - display[1].score &&
      f.costDelta.value == display[0].estCostUsd - display[1].estCostUsd &&
      f.latencyDelta.value == display[0].estLatencyMs - display[1].estLatencyMs
    ensures f.budgetHeadroom.Some? <==> BudgetMax(e).Some? && (ExplainedCost(e).Some? || |display| >= 1)
    ensures f.timeHeadroom.Some? <==> DeadlineMax(e).Some? && (ExplainedLatency(e).Some? || |display| >= 1)
    ensures f.budgetHeadroom.Some? ==> (f.budgetHeadroom.value ==
      BudgetMax(e).value - (if ExplainedCost(e).Some? then ExplainedCost(e).value else display[0].estCostUsd))
    ensures f.timeHeadroom.Some? ==> (f.timeHeadroom.value ==
      DeadlineMax(e).value - (if ExplainedLatency(e).Some? then ExplainedLatency(e).value else display[0].estLatencyMs))
  {
    var hasPeer := |display| > 1;
    var scoreDelta := if hasPeer then Some(display[0].score - display[1].score) else None;
    var costDelta := if hasPeer then Some(display[0].estCostUsd - display[1].estCostUsd) else None;
    var latDelta := if hasPeer then Some(display[0].estLatencyMs - display[1].estLatencyMs) else None;
    var cost := if ExplainedCost(e).Some? then ExplainedCost(e)
      else if |display| > 0 then Some(display[0].estCostUsd) else None;
    var latency := if ExplainedLatency(e).Some? then ExplainedLatency(e)
      else if |display| > 0 then Some(display[0].estLatencyMs) else None;
    var budgetHeadroom := if BudgetMax(e).Some? && cost.Some? then Some(BudgetMax(e).value - cost.value) else None;
    var timeHeadroom := if DeadlineMax(e).Some? && latency.Some? then Some(DeadlineMax(e).value - latency.value) else None;
    Figures(scoreDelta, costDelta, latDelta, budgetHeadroom, timeHeadroom)
  }

  /**
   * The page's panel and the stream's panel on the winner row agree when they read the same
   * explanation: both compare the first row with the second and fall back to its estimates.
   */
  lemma WinnerPanelsAgree(display: seq<UiProposal>, e: Explanation)
    requires |display| >= 1 && display[0].explanation == Some(e)
    ensures PageWhy(display, e) == RowFigures(display, 0)
  {
  }

  /** With nothing displayed, the page shows a headroom only when the explanation carries the input. */
  lemma EmptyDisplayHeadroom(e: Explanation)
    ensures PageWhy([], e).budgetHeadroom.Some? <==> BudgetMax(e).Some? && ExplainedCost(e).Some?
    ensures PageWhy([], e).scoreDelta.None?
  {
  }

  /** How the registration request ended: no response, or a response that was or was not 2xx. */
  datatype RegisterOutcome = RegisterNetworkFailure(message: string) | RegisterAnswered(ok: bool)

  /** How fetching a user-given URL ended: its text (whatever the status) or the error's string form. */
  datatype UrlOutcome = Fetched(text: string) | UrlFailed(errorText: string)

  /** The page's state. Json `JNull` is the page's `null` execution result. */
  class Home {
    const hubUrl: string
    const history: HistoryStore
    /** The template cards offered (`taskTemplates`). */
    const templates: seq<Template>
    var intent: PageIntent
    var selectedTemplate: Option<string>
    var proposals: seq<UiProposal>
    var streaming: seq<UiProposal>
    var executionResult: Json
    var showWhy: bool
    var loading: bool
    var error: Option<string>
    var loadingType: LoadingKind
    var useOrchestrator: bool
    var newAgentName: string
    var newAgentUrl: string
    var isRegistering: bool
    var availableAgents: Json
    var alerts: seq<string>

    constructor (env: Option<string>, history: HistoryStore)
      ensures hubUrl == HubUrl(env) && this.history == history && templates == Templates
      ensures intent == InitialIntent && selectedTemplate == Some("extract_event")
      ensures proposals == [] && streaming == [] && executionResult == JNull && !showWhy
      ensures !loading && error.None? && loadingType == Idle && !useOrchestrator
      ensures newAgentName == "" && newAgentUrl == "" && !isRegistering
      ensures availableAgents == JArr([]) && alerts == []
    {
      hubUrl := HubUrl(env);
      this.history := history;
      templates := Templates;
      intent := InitialIntent;
      selectedTemplate := Some("extract_event");
      proposals := [];
      streaming := [];
      executionResult := JNull;
      showWhy := false;
      loading := false;
      error := None;
      loadingType := Idle;
      useOrchestrator := false;
      newAgentName := "";
      newAgentUrl := "";
      isRegistering := false;
      availableAgents := JArr([]);
      alerts := [];
    }

    /** The mount effect: a 2xx response replaces the agent list; every failure is swallowed. */
    method LoadAgents(response: FetchOutcome<Json>)
      modifies this`availableAgents
      ensures response.Body? ==> availableAgents == response.value
      ensures !response.Body? ==> availableAgents == old(availableAgents)
      ensures error == old(error) && proposals == old(proposals) && intent == old(intent)
    {
      if response.Body? {
        availableAgents := response.value;
      }
    }

    /** `handleTemplateSelect`: the intent becomes the template's goal, sample inputs, budget and deadline. */
    method HandleTemplateSelect(t: Template)
      modifies this`selectedTemplate, this`intent
      ensures selectedTemplate == Some(t.id)
      ensures intent == PageIntent(t.goal, t.sampleInputs, Some(Budget(Some(t.defaultBudget))), Some(Sla(Some(t.defaultSla))))
      ensures proposals == old(proposals) && error == old(error)
    {
      selectedTemplate := Some(t.id);
      intent := PageIntent(t.goal, t.sampleInputs, Some(Budget(Some(t.defaultBudget))), Some(Sla(Some(t.defaultSla))));
    }

    /** `handleLoadTask`: the intent becomes the entry's; the template with that goal, if any, is selected. */
    method HandleLoadTask(item: Item)
      modifies this`selectedTemplate, this`intent
      ensures intent == PageIntent(item.goal, item.inputs, item.budget, item.sla)
      ensures FindByGoal(templates, item.goal).Some? ==> selectedTemplate == Some(FindByGoal(templates, item.goal).value.id)
      ensures FindByGoal(templates, item.goal).None? ==> selectedTemplate == old(selectedTemplate)
      ensures proposals == old(proposals) && error == old(error)
    {
      intent := PageIntent(item.goal, item.inputs, item.budget, item.sla);
      var template := FindByGoal(templates, item.goal);
      if template.Some? {
        selectedTemplate := Some(template.value.id);
      }
    }

    /** The proposals shown one after another, each appended to `streaming` in turn. */
    method Reveal(all: seq<UiProposal>)
      modifies this`streaming
      ensures streaming == all
    {
      streaming := [];
      var i := 0;
      while i < |all|
        invariant 0 <= i <= |all|
        invariant streaming == all[..i]
      {
        streaming := streaming + [all[i]];
        i := i + 1;
      }
      assert all[..|all|] == all;
    }

    /**
     * The hub's answer to a posted intent, once the lists are cleared: the proposals it
     * returns are revealed and kept, and a failure sets the error instead.
     */
    method ShowProposals(response: FetchOutcome<Option<seq<UiProposal>>>)
      requires proposals == [] && streaming == [] && error.None?
      modifies this`error, this`proposals, this`streaming
      ensures response.Body? ==>
        error.None? && streaming == response.value.GetOr([]) && proposals == response.value.GetOr([])
      ensures !response.Body? ==>
        error == Some(FailureMessage(response, PostFallback)) && streaming == [] && proposals == []
    {
      if response.Body? {
        var all := response.value.GetOr([]);
        if |all| > 0 {
          Reveal(all);
          proposals := all;
        }
      } else {
        error := Some(FailureMessage(response, PostFallback));
        proposals := [];
        streaming := [];
      }
    }

    /** The start of a post: loading, no error, and no result or proposals shown. */
    method BeginPost()
      modifies this`loading, this`loadingType, this`error, this`executionResult, this`proposals, this`streaming
      ensures loading && loadingType == PostingIntent && error.None?
      ensures executionResult == JNull && proposals == [] && streaming == []
    {
      BeginRequest(PostingIntent);
      ClearOutcome();
    }

    /** The end of a post: the hub's answer shown, and loading over. */
    method FinishPost(response: FetchOutcome<Option<seq<UiProposal>>>)
      requires proposals == [] && streaming == [] && error.None?
      modifies this`loading, this`loadingType, this`error, this`proposals, this`streaming
      ensures response.Body? ==>
        error.None? && streaming == response.value.GetOr([]) && proposals == response.value.GetOr([])
      ensures !response.Body? ==>
        error == Some(FailureMessage(response, PostFallback)) && streaming == [] && proposals == []
      ensures !loading && loadingType == Idle
    {
      ShowProposals(response);
      EndRequest();
    }

    /** Saves the current intent to the history, with the two clock readings. */
    method SaveIntent(idClock: nat, stampClock: nat, writeSucceeds: bool)
      modifies history
      ensures history.hasWindow == old(history.hasWindow)
      ensures old(history.hasWindow) && writeSucceeds ==> (history.slot ==
        Items(Pushed(old(history.Get()), Item(NatToString(idClock), stampClock, intent.goal, intent.inputs, intent.budget, intent.sla, None))))
      ensures !old(history.hasWindow) || !writeSucceeds ==> history.slot == old(history.slot)
    {
      var _ := history.Save(intent.goal, intent.inputs, intent.budget, intent.sla, idClock, stampClock, writeSucceeds);
    }

    /**
     * `handlePostIntentWithStreaming`: clear the error, the result and both lists, save the
     * intent to the history, ask the hub, and reveal the returned proposals one at a time.
     * The returned value is the endpoint asked.
     */
    method PostIntentWithStreaming(response: FetchOutcome<Option<seq<UiProposal>>>,
                                   idClock: nat, stampClock: nat, writeSucceeds: bool)
      returns (endpoint: string)
      modifies this`loading, this`loadingType, this`error, this`executionResult, this`proposals, this`streaming, history
      ensures endpoint == hubUrl + if useOrchestrator then "/orchestrate" else "/post_intent"
      ensures response.Body? ==>
        error.None? && streaming == response.value.GetOr([]) && proposals == response.value.GetOr([])
      ensures !response.Body? ==>
        error == Some(FailureMessage(response, PostFallback)) && streaming == [] && proposals == []
      ensures DisplayProposals(streaming, proposals) == if response.Body? then response.value.GetOr([]) else []
      ensures executionResult == JNull && !loading && loadingType == Idle
      ensures intent == old(intent) && useOrchestrator == old(useOrchestrator)
      ensures selectedTemplate == old(selectedTemplate) && showWhy == old(showWhy) && availableAgents == old(availableAgents)
      ensures newAgentName == old(newAgentName) && newAgentUrl == old(newAgentUrl) && isRegistering == old(isRegistering)
      ensures alerts == old(alerts)
      ensures history.hasWindow == old(history.hasWindow)
      ensures old(history.hasWindow) && writeSucceeds ==> (history.slot ==
        Items(Pushed(old(history.Get()), Item(NatToString(idClock), stampClock, intent.goal, intent.inputs, intent.budget, intent.sla, None))))
      ensures !old(history.hasWindow) || !writeSucceeds ==> history.slot == old(history.slot)
    {
      BeginPost();
      SaveIntent(idClock, stampClock, writeSucceeds);
      endpoint := hubUrl + if useOrchestrator then "/orchestrate" else "/post_intent";
      FinishPost(response);
    }

    /** A request starts: the spinner shows which one, and the last error is cleared. */
    method BeginRequest(kind: LoadingKind)
      modifies this`loading, this`loadingType, this`error
      ensures loading && loadingType == kind && error.None?
    {
      loading := true;
      loadingType := kind;
      error := None;
    }

    /** A new negotiation drops the previous result and proposals. */
    method ClearOutcome()
      modifies this`executionResult, this`proposals, this`streaming
      ensures executionResult == JNull && proposals == [] && streaming == []
    {
      executionResult := JNull;
      proposals := [];
      streaming := [];
    }

    /** The `finally` of a request: the spinner goes away. */
    method EndRequest()
      modifies this`loading, this`loadingType
      ensures !loading && loadingType == Idle
    {
      loading := false;
      loadingType := Idle;
    }

    /**
     * `handleExecute`: clear the error (but not the previous result), save the intent, and
     * keep the hub's response body as the result, or `null` on any failure.
     */
    method Execute(response: FetchOutcome<Json>, idClock: nat, stampClock: nat, writeSucceeds: bool)
      modifies this`loading, this`loadingType, this`error, this`executionResult, history
      ensures response.Body? ==> executionResult == response.value && error.None?
      ensures !response.Body? ==> executionResult == JNull && error == Some(FailureMessage(response, ExecuteFallback))
      ensures proposals == old(proposals) && streaming == old(streaming) && intent == old(intent)
      ensures !loading && loadingType == Idle
      ensures selectedTemplate == old(selectedTemplate) && showWhy == old(showWhy) && availableAgents == old(availableAgents)
      ensures newAgentName == old(newAgentName) && newAgentUrl == old(newAgentUrl) && isRegistering == old(isRegistering)
      ensures alerts == old(alerts) && useOrchestrator == old(useOrchestrator)
      ensures history.hasWindow == old(history.hasWindow)
      ensures old(history.hasWindow) && writeSucceeds ==> (history.slot ==
        Items(Pushed(old(history.Get()), Item(NatToString(idClock), stampClock, intent.goal, intent.inputs, intent.budget, intent.sla, None))))
      ensures !old(history.hasWindow) || !writeSucceeds ==> history.slot == old(history.slot)
    {
      BeginRequest(Executing);
      SaveIntent(idClock, stampClock, writeSucceeds);
      ShowResult(response);
      EndRequest();
    }

    /** The hub's answer to an execution: its result, or the error it reports. */
    method ShowResult(response: FetchOutcome<Json>)
      requires error.None?
      modifies this`error, this`executionResult
      ensures response.Body? ==> executionResult == response.value && error.None?
      ensures !response.Body? ==> executionResult == JNull && error == Some(FailureMessage(response, ExecuteFallback))
    {
      if response.Body? {
        executionResult := response.value;
      } else {
        error := Some(FailureMessage(response, ExecuteFallback));
        executionResult := JNull;
      }
    }

    /** The "Explain"/"Hide" button. */
    method ToggleWhy()
      modifies this
      ensures showWhy == !old(showWhy)
      ensures executionResult == old(executionResult) && proposals == old(proposals) && streaming == old(streaming)
      ensures intent == old(intent) && error == old(error) && loading == old(loading) && loadingType == old(loadingType)
      ensures selectedTemplate == old(selectedTemplate) && availableAgents == old(availableAgents) && alerts == old(alerts)
      ensures newAgentName == old(newAgentName) && newAgentUrl == old(newAgentUrl) && isRegistering == old(isRegistering)
      ensures useOrchestrator == old(useOrchestrator)
    {
      showWhy := !showWhy;
    }

    /**
     * `handleRegisterAgent`: an empty name or URL is refused without a request (`requested`
     * is false); otherwise a 2xx response resets the form and raises the success alert, and
     * any failure leaves the form and sets the error.
     */
    method RegisterAgent(outcome: RegisterOutcome) returns (requested: bool)
      modifies this
      ensures requested <==> old(newAgentName) != "" && old(newAgentUrl) != ""
      ensures !requested ==> (error == Some(RequiredMessage) && isRegistering == old(isRegistering) &&
        newAgentName == old(newAgentName) && newAgentUrl == old(newAgentUrl) && alerts == old(alerts))
      ensures requested && outcome == RegisterAnswered(true) ==>
        error.None? && newAgentName == "" && newAgentUrl == "" && alerts == old(alerts) + [RegisteredAlert]
      ensures requested && outcome == RegisterAnswered(false) ==>
        error == Some(RegisterFailedMessage) && newAgentName == old(newAgentName) && newAgentUrl == old(newAgentUrl) &&
        alerts == old(alerts)
      ensures requested && outcome.RegisterNetworkFailure? ==>
        error == Some(outcome.message) && newAgentName == old(newAgentName) && newAgentUrl == old(newAgentUrl) &&
        alerts == old(alerts)
      ensures requested ==> !isRegistering
      ensures intent == old(intent) && proposals == old(proposals) && loading == old(loading)
      ensures selectedTemplate == old(selectedTemplate) && streaming == old(streaming) && showWhy == old(showWhy)
      ensures executionResult == old(executionResult) && loadingType == old(loadingType)
      ensures useOrchestrator == old(useOrchestrator) && availableAgents == old(availableAgents)
    {
      if newAgentName == "" || newAgentUrl == "" {
        error := Some(RequiredMessage);
        return false;
      }
      requested := true;
      isRegistering := true;
      error := None;
      match outcome {
        case RegisterAnswered(ok) =>
          if !ok {
            error := Some(RegisterFailedMessage);
          } else {
            newAgentName := "";
            newAgentUrl := "";
            alerts := alerts + [RegisteredAlert];
          }
        case RegisterNetworkFailure(message) =>
          error := Some(message);
      }
      isRegistering := false;
    }

    /** `handleFileSelect` once the file is read: its text becomes the `text` input. */
    method HandleFileText(text: string)
      modifies this`intent
      ensures intent == old(intent).(inputs := Set(old(intent).inputs, "text", JStr(text)))
      ensures Lookup(intent.inputs, "text") == Some(JStr(text))
      ensures error == old(error)
    {
      intent := intent.(inputs := Set(intent.inputs, "text", JStr(text)));
    }

    /**
     * `handleUrlFetch`: nothing for an empty URL; otherwise the fetched text and the URL
     * become the `text` and `url` inputs, or the error names the failure.
     */
    method HandleUrlFetch(url: string, outcome: UrlOutcome)
      modifies this`intent, this`error
      ensures url == "" ==> intent == old(intent) && error == old(error)
      ensures url != "" && outcome.Fetched? ==>
        intent == old(intent).(inputs := Set(Set(old(intent).inputs, "text", JStr(outcome.text)), "url", JStr(url))) &&
        error == old(error)
      ensures url != "" && outcome.UrlFailed? ==>
        intent == old(intent) && error == Some("Failed to fetch URL: " + outcome.errorText)
    {
      if url == "" {
        return;
      }
      match outcome {
        case Fetched(text) =>
          intent := intent.(inputs := Set(Set(intent.inputs, "text", JStr(text)), "url", JStr(url)));
        case UrlFailed(errorText) =>
          error := Some("Failed to fetch URL: " + errorText);
      }
    }

    /**
     * `handleJsonInput`: a parse failure (`None`) sets the error and leaves the intent; a
     * parsed value is spread over the inputs, its entries winning. The error is not cleared.
     */
    method HandleJsonInput(parsed: Option<Json>)
      modifies this`intent, this`error
      ensures parsed.None? ==> error == Some(InvalidJsonMessage) && intent == old(intent)
      ensures parsed.Some? ==>
        intent == old(intent).(inputs := Spread(old(intent).inputs, SpreadEntries(parsed.value))) &&
        error == old(error)
      ensures parsed.Some? ==> forall k :: (Lookup(intent.inputs, k) ==
        if LastLookup(SpreadEntries(parsed.value), k).Some? then LastLookup(SpreadEntries(parsed.value), k)
        else Lookup(old(intent).inputs, k))
    {
      if parsed.None? {
        error := Some(InvalidJsonMessage);
        return;
      }
      intent := intent.(inputs := Spread(intent.inputs, SpreadEntries(parsed.value)));
      forall k
        ensures Lookup(intent.inputs, k) ==
          if LastLookup(SpreadEntries(parsed.value), k).Some? then LastLookup(SpreadEntries(parsed.value), k)
          else Lookup(old(intent).inputs, k)
      {
        SpreadLookup(old(intent).inputs, SpreadEntries(parsed.value), k);
      }
    }
  }
}
