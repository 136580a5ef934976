/**
 * The older single-list page of the web client: it asks the hub for proposals and shows
 * them in one table, without a reveal, history, registration or input helpers.
 *
 * Each handler awaits one `fetch`; the state the page shows while waiting is the state
 * after the handler's `Start` step, and the response is the parameter of its `Finish` step.
 */
module LegacyHome {
  import opened Wrappers
  import opened Json
  import opened WebTypes
  import opened HomePage

  class Legacy {
    const hubUrl: string
    var intent: PageIntent
    var proposals: seq<UiProposal>
    var executionResult: Json
    var loading: bool
    var error: Option<string>
    var loadingType: LoadingKind

    constructor (env: Option<string>)
      ensures hubUrl == HubUrl(env) && intent == InitialIntent
      ensures proposals == [] && executionResult == JNull && !loading && error.None? && loadingType == Idle
    {
      hubUrl := HubUrl(env);
      intent := InitialIntent;
      proposals := [];
      executionResult := JNull;
      loading := false;
      error := None;
      loadingType := Idle;
    }

    /** What `handlePostIntent` does before its request: the old proposals stay on screen. */
    method StartPostIntent()
      modifies this
      ensures loading && loadingType == PostingIntent && error.None? && executionResult == JNull
      ensures proposals == old(proposals) && intent == old(intent)
    {
      loading := true;
      loadingType := PostingIntent;
      error := None;
      executionResult := JNull;
    }

    /** What `handlePostIntent` does with the response: `data.proposals || []`, or [] and an error. */
    method FinishPostIntent(response: FetchOutcome<Option<seq<UiProposal>>>)
      modifies this
      ensures response.Body? ==> proposals == response.value.GetOr([]) && error == old(error)
      ensures !response.Body? ==> proposals == [] && error == Some(FailureMessage(response, PostFallback))
      ensures !loading && loadingType == Idle
      ensures executionResult == old(executionResult) && intent == old(intent)
    {
      if response.Body? {
        proposals := response.value.GetOr([]);
      } else {
        error := Some(FailureMessage(response, PostFallback));
        proposals := [];
      }
      loading := false;
      loadingType := Idle;
    }

    /** `handlePostIntent`: both steps; the endpoint is always `/post_intent`. */
    method PostIntent(response: FetchOutcome<Option<seq<UiProposal>>>) returns (endpoint: string)
      modifies this
      ensures endpoint == hubUrl + "/post_intent"
      ensures response.Body? ==> proposals == response.value.GetOr([]) && error.None?
      ensures !response.Body? ==> proposals == [] && error == Some(FailureMessage(response, PostFallback))
      ensures executionResult == JNull && !loading && loadingType == Idle && intent == old(intent)
    {
      StartPostIntent();
      endpoint := hubUrl + "/post_intent";
      FinishPostIntent(response);
    }

    /** What `handleExecute` does before its request: the error goes, the previous result stays. */
    method StartExecute()
      modifies this
      ensures loading && loadingType == Executing && error.None?
      ensures executionResult == old(executionResult) && proposals == old(proposals) && intent == old(intent)
    {
      loading := true;
      loadingType := Executing;
      error := None;
    }

    /** What `handleExecute` does with the response: the body becomes the result, or `null` and an error. */
    method FinishExecute(response: FetchOutcome<Json>)
      modifies this
      ensures response.Body? ==> executionResult == response.value && error == old(error)
      ensures !response.Body? ==> executionResult == JNull && error == Some(FailureMessage(response, ExecuteFallback))
      ensures !loading && loadingType == Idle
      ensures proposals == old(proposals) && intent == old(intent)
    {
      if response.Body? {
        executionResult := response.value;
      } else {
        error := Some(FailureMessage(response, ExecuteFallback));
        executionResult := JNull;
      }
      loading := false;
      loadingType := Idle;
    }

    /** `handleExecute`: both steps; the proposals are never touched. */
    method Execute(response: FetchOutcome<Json>) returns (endpoint: string)
      modifies this
      ensures endpoint == hubUrl + "/execute"
      ensures response.Body? ==> executionResult == response.value && error.None?
      ensures !response.Body? ==> executionResult == JNull && error == Some(FailureMessage(response, ExecuteFallback))
      ensures proposals == old(proposals) && !loading && loadingType == Idle && intent == old(intent)
    {
      StartExecute();
      endpoint := hubUrl + "/execute";
      FinishExecute(response);
    }
  }
}
