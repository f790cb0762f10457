/**
 * The fact-checker hook (src/hooks/useFactChecker.ts): its state and settings,
 * the rule that a service exists exactly when there is an API key, and the
 * transitions of `startFactCheck`, `clearResults` and the four setters.
 */
module FactChecker {
  import opened Wrappers
  import OpenAIService
  import Text

  datatype Strictness = StrictLow | StrictMedium | StrictHigh

  /** The name of a strictness, as the prompt builder receives it. */
  function StrictnessName(s: Strictness): (name: string)
    ensures Text.ToLower(name) == name
  {
    var name := (match s
      case StrictLow => "low"
      case StrictMedium => "medium"
      case StrictHigh => "high");
    assert forall i :: 0 <= i < |name| ==> !('A' <= name[i] <= 'Z');
    Text.ToLowerNoCapitals(name);
    name
  }

  datatype FactCheckerState = FactCheckerState(
    isBusy: bool,
    factCheckResults: Option<OpenAIService.FactCheckResponse>,
    error: Option<string>)

  datatype FactCheckerConfig = FactCheckerConfig(
    model: string,
    strictness: Strictness,
    enableSourceVerification: bool,
    openaiApiKey: string)

  /** An `OpenAIService` object; all it keeps is the key it was built with. */
  datatype Service = Service(apiKey: string)

  /** The options `startFactCheck` passes on to `factCheckSummary`. */
  datatype FactCheckOptions = FactCheckOptions(
    model: string,
    includeSourceVerification: bool,
    strictness: string)

  /** One call of `factCheckSummary`. */
  datatype FactCheckCall = FactCheckCall(
    service: Service,
    summary: string,
    transcript: string,
    options: FactCheckOptions)

  /** What a failed call threw: an `Error` with its message, or anything else. */
  datatype Thrown = ErrorObject(message: string) | NotAnError

  /** How the awaited call ended. */
  datatype Outcome = Responded(response: OpenAIService.FactCheckResponse) | Threw(thrown: Thrown)

  const MissingKeyError: string := "OpenAI API key is required for fact-checking"
  const NoServiceError: string := "OpenAI service not initialized"
  const UnknownError: string := "Unknown error occurred during fact-checking"

  /** The error text of a failed call. */
  function ErrorText(t: Thrown): (text: string)
    ensures t.NotAnError? ==> text == UnknownError
    ensures t.ErrorObject? ==> text == t.message
  {
    match t
    case ErrorObject(message) => message
    case NotAnError => UnknownError
  }

  /** The state and settings of `useFactChecker`, and the service calls it has made. */
  class FactCheckerHook {
    var state: FactCheckerState
    var config: FactCheckerConfig
    var service: Option<Service>
    /** The calls of `factCheckSummary`, oldest first. */
    var calls: seq<FactCheckCall>

    /** A fresh hook: idle, no results, no error, an empty key and so no service. */
    constructor(model: string, strictness: Strictness, enableSourceVerification: bool)
      ensures state == FactCheckerState(false, None, None)
      ensures config == FactCheckerConfig(model, strictness, enableSourceVerification, "")
      ensures service == None && calls == []
      ensures ServiceMatchesKey()
    {
      state := FactCheckerState(false, None, None);
      config := FactCheckerConfig(model, strictness, enableSourceVerification, "");
      service := None;
      calls := [];
    }

    /** A service exists exactly when there is a key, and it was built with that key. */
    predicate ServiceMatchesKey()
      reads this
    {
      && (service.Some? <==> config.openaiApiKey != "")
      && (service.Some? ==> service.value.apiKey == config.openaiApiKey)
    }

    /** The memo on the key: build a service for a non-empty key, drop it for an empty one. */
    method SyncService()
      modifies this
      ensures ServiceMatchesKey()
      ensures state == old(state) && config == old(config) && calls == old(calls)
    {
      if config.openaiApiKey != "" {
        service := Some(Service(config.openaiApiKey));
      } else {
        service := None;
      }
    }

    /**
     * The part of `startFactCheck` before the await: the two guards, each of
     * which only sets `error`, and otherwise the busy state and the call.
     */
    method BeginFactCheck(summary: string, transcript: string) returns (call: Option<FactCheckCall>)
      modifies this
      ensures config == old(config) && service == old(service)
      ensures old(config.openaiApiKey) == "" ==>
        && call == None
        && state == old(state).(error := Some(MissingKeyError))
        && calls == old(calls)
      ensures old(config.openaiApiKey) != "" && old(service).None? ==>
        && call == None
        && state == old(state).(error := Some(NoServiceError))
        && calls == old(calls)
      ensures old(config.openaiApiKey) != "" && old(service).Some? ==>
        && call == Some(FactCheckCall(
             old(service).value, summary, transcript,
             FactCheckOptions(config.model, config.enableSourceVerification, StrictnessName(config.strictness))))
        && state == FactCheckerState(true, None, None)
        && calls == old(calls) + [call.value]
      ensures old(ServiceMatchesKey()) ==> (call.Some? <==> old(config.openaiApiKey) != "")
    {
      if config.openaiApiKey == "" {
        state := state.(error := Some(MissingKeyError));
        return None;
      }
      if service.None? {
        state := state.(error := Some(NoServiceError));
        return None;
      }
      state := state.(isBusy := true, error := None, factCheckResults := None);
      var options := FactCheckOptions(config.model, config.enableSourceVerification, StrictnessName(config.strictness));
      var c := FactCheckCall(service.value, summary, transcript, options);
      calls := calls + [c];
      return Some(c);
    }

    /** The part of `startFactCheck` after the await. */
    method CompleteFactCheck(outcome: Outcome)
      modifies this
      ensures config == old(config) && service == old(service) && calls == old(calls)
      ensures outcome.Responded? ==>
        state == old(state).(isBusy := false, factCheckResults := Some(outcome.response))
      ensures outcome.Threw? ==>
        state == old(state).(isBusy := false, error := Some(ErrorText(outcome.thrown)))
    {
      match outcome
      case Responded(response) =>
        state := state.(isBusy := false, factCheckResults := Some(response));
      case Threw(thrown) =>
        state := state.(isBusy := false, error := Some(ErrorText(thrown)));
    }

    /**
     * `startFactCheck` run to its end with nothing else happening during the
     * call: a made call ends idle with either the response and no error, or
     * the error and no response.
     */
    method StartFactCheck(summary: string, transcript: string, outcome: Outcome) returns (called: bool)
      modifies this
      ensures config == old(config) && service == old(service)
      ensures old(config.openaiApiKey) == "" ==>
        !called && state == old(state).(error := Some(MissingKeyError)) && calls == old(calls)
      ensures old(config.openaiApiKey) != "" && old(service).None? ==>
        !called && state == old(state).(error := Some(NoServiceError)) && calls == old(calls)
      ensures called <==> old(config.openaiApiKey) != "" && old(service).Some?
      ensures called ==> |calls| == |old(calls)| + 1 && calls[..|old(calls)|] == old(calls)
      ensures called && outcome.Responded? ==>
        state == FactCheckerState(false, Some(outcome.response), None)
      ensures called && outcome.Threw? ==>
        state == FactCheckerState(false, None, Some(ErrorText(outcome.thrown)))
    {
      var call := BeginFactCheck(summary, transcript);
      called := call.Some?;
      if called {
        CompleteFactCheck(outcome);
      }
    }

    /** `clearResults`: no results and no error; busy stays as it was. */
    method ClearResults()
      modifies this
      ensures state == FactCheckerState(old(state.isBusy), None, None)
      ensures config == old(config) && service == old(service) && calls == old(calls)
    {
      state := state.(factCheckResults := None, error := None);
    }

    method SetModel(model: string)
      modifies this
      ensures config == old(config).(model := model)
      ensures state == old(state) && service == old(service) && calls == old(calls)
    {
      config := config.(model := model);
    }

    method SetStrictness(strictness: Strictness)
      modifies this
      ensures config == old(config).(strictness := strictness)
      ensures state == old(state) && service == old(service) && calls == old(calls)
    {
      config := config.(strictness := strictness);
    }

    method SetEnableSourceVerification(enabled: bool)
      modifies this
      ensures config == old(config).(enableSourceVerification := enabled)
      ensures state == old(state) && service == old(service) && calls == old(calls)
    {
      config := config.(enableSourceVerification := enabled);
    }

    /** Setting the key leaves the service to the memo, which runs on the next render. */
    method SetOpenAIApiKey(apiKey: string)
      modifies this
      ensures config == old(config).(openaiApiKey := apiKey)
      ensures state == old(state) && service == old(service) && calls == old(calls)
    {
      config := config.(openaiApiKey := apiKey);
    }
  }
}
