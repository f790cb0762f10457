/**
 * The summarization worker (src/summarization-worker.js): a single cached
 * pipeline keyed on the (model, quantized) pair, rebuilt when the pair
 * changes, and the one closing message each request gets.
 */
module SummarizationWorker {
  import opened Wrappers

  const Task: string := "summarization"

  /** The generation options the pipeline is called with. */
  datatype GenerationOptions = GenerationOptions(maxLength: int, minLength: int, doSample: bool)

  /** One call of a pipeline. */
  datatype PipelineRun = PipelineRun(text: string, options: GenerationOptions)

  /** A loading event the library reports through the progress callback; its content is the library's. */
  datatype LoadEvent = LoadEvent(data: string)

  /** How a pipeline call ended: the summary it produced, or what it rejected with. */
  datatype RunOutcome = Output(summary: string) | Failure(error: string)

  /** A request from the main thread. */
  datatype Request = Request(
    text: string,
    model: string,
    quantized: bool,
    maxLength: int,
    minLength: int)

  /** A message the worker posts to the main thread. */
  datatype OutMessage =
    | Loading(event: LoadEvent)
    | CompleteMessage(task: string, data: string)
    | ErrorMessage(task: string, error: string)

  /** 'complete' and 'error' close a request; loading events do not. */
  predicate IsTerminal(m: OutMessage) {
    m.CompleteMessage? || m.ErrorMessage?
  }

  function TerminalCount(ms: seq<OutMessage>): (n: nat)
    ensures n <= |ms|
  {
    if ms == [] then 0
    else TerminalCount(ms[..|ms| - 1]) + (if IsTerminal(ms[|ms| - 1]) then 1 else 0)
  }

  /** The messages the progress callback posts for a list of loading events. */
  function Loadings(events: seq<LoadEvent>): (ms: seq<OutMessage>)
    ensures |ms| == |events|
  {
    if events == [] then [] else Loadings(events[..|events| - 1]) + [Loading(events[|events| - 1])]
  }

  /** The closing message of a request with this outcome. */
  function Terminal(outcome: RunOutcome): (m: OutMessage)
    ensures IsTerminal(m) && m.task == Task
  {
    match outcome
    case Output(summary) => CompleteMessage(Task, summary)
    case Failure(error) => ErrorMessage(Task, error)
  }

  /** Messages can be counted piece by piece. */
  lemma {:induction false} TerminalCountAppend(a: seq<OutMessage>, b: seq<OutMessage>)
    ensures TerminalCount(a + b) == TerminalCount(a) + TerminalCount(b)
    decreases |b|
  {
    if b == [] {
      assert a + b == a;
    } else {
      var front := b[..|b| - 1];
      assert (a + b)[..|a + b| - 1] == a + front;
      TerminalCountAppend(a, front);
    }
  }

  /** Loading events never close a request. */
  lemma {:induction false} LoadingsNotTerminal(events: seq<LoadEvent>)
    ensures TerminalCount(Loadings(events)) == 0
  {
    if events != [] {
      var front := events[..|events| - 1];
      LoadingsNotTerminal(front);
      assert Loadings(events)[..|events| - 1] == Loadings(front);
    }
  }

  /** A request's messages, its loading events and then its closing message, hold one closing message. */
  lemma OneTerminal(events: seq<LoadEvent>, outcome: RunOutcome)
    ensures TerminalCount(Loadings(events) + [Terminal(outcome)]) == 1
  {
    LoadingsNotTerminal(events);
    TerminalCountAppend(Loadings(events), [Terminal(outcome)]);
  }

  /** How the promise `pipeline(...)` settles: the model loaded, or the load rejected with an error. */
  datatype LoadOutcome = Loaded | LoadFailed(error: string)

  /** What `summarize` does: return the output (null after a failed run), or throw. */
  datatype SummarizeResult = Returned(output: Option<string>) | Threw(error: string)

  /** The output of a pipeline call: the summary, or null when the call rejected. */
  function RunOutput(outcome: RunOutcome): (output: Option<string>)
    ensures output.Some? <==> outcome.Output?
  {
    if outcome.Output? then Some(outcome.summary) else None
  }

  /** A pipeline object of the library, seen only through dispose and call. */
  class Pipeline {
    const task: string
    const model: Option<string>
    const quantized: Option<bool>
    /** Whether a progress callback was given when it was built. */
    const hasProgressCallback: bool
    /** How the load this object stands for settled. */
    const load: LoadOutcome
    /** How many times `dispose` was called. */
    var disposals: nat
    /** Its calls, oldest first. */
    var runs: seq<PipelineRun>

    constructor(task: string, model: Option<string>, quantized: Option<bool>, hasProgressCallback: bool, load: LoadOutcome)
      ensures this.task == task && this.model == model && this.quantized == quantized
      ensures this.hasProgressCallback == hasProgressCallback && this.load == load
      ensures disposals == 0 && runs == []
    {
      this.task := task;
      this.model := model;
      this.quantized := quantized;
      this.hasProgressCallback := hasProgressCallback;
      this.load := load;
      disposals := 0;
      runs := [];
    }

    method Dispose()
      modifies this
      ensures disposals == old(disposals) + 1 && runs == old(runs)
    {
      disposals := disposals + 1;
    }

    /** A call: it is recorded, and its outcome is the library's. */
    method Run(text: string, options: GenerationOptions, outcome: RunOutcome) returns (output: Option<string>)
      modifies this
      ensures runs == old(runs) + [PipelineRun(text, options)] && disposals == old(disposals)
      ensures output == RunOutput(outcome)
    {
      runs := runs + [PipelineRun(text, options)];
      if outcome.Output? {
        output := Some(outcome.summary);
      } else {
        output := None;
      }
    }
  }

  /**
   * The worker: the static fields of `SummarizationPipelineFactory` (the
   * stored pair and the cached instance) and the messages posted so far.
   */
  class Worker {
    var model: Option<string>
    var quantized: Option<bool>
    /** The cached promise of a pipeline, with how it settled. */
    var instance: Pipeline?
    /** The messages posted to the main thread, oldest first. */
    var outbox: seq<OutMessage>

    /** A worker as loaded: no pair stored, no instance, nothing posted. */
    constructor()
      ensures model == None && quantized == None && instance == null && outbox == []
      ensures Valid()
    {
      model := None;
      quantized := None;
      instance := null;
      outbox := [];
    }

    /**
     * The cached instance, if any, is a summarization pipeline that was never
     * disposed; a loaded one was built for the stored pair, and a failed one
     * was never called.
     */
    predicate Valid()
      reads this`model, this`quantized, this`instance, instance
    {
      instance != null ==>
        && instance.task == Task
        && instance.disposals == 0
        && (instance.load.Loaded? ==> instance.model == model && instance.quantized == quantized)
        && (instance.load.LoadFailed? ==> instance.runs == [])
    }

    /** The cache holds a rejected load, which every later `await` rethrows. */
    predicate Stuck()
      reads this`instance, instance
    {
      instance != null && instance.load.LoadFailed?
    }

    /** The cache holds a loaded pipeline for the pair, which `summarize` reuses. */
    predicate Holds(model: string, quantized: bool)
      reads this`model, this`quantized, this`instance, instance
    {
      this.model == Some(model) && this.quantized == Some(quantized) && instance != null && instance.load.Loaded?
    }

    /**
     * `getInstance`: builds a pipeline for the stored pair only when there is
     * none, and caches it however its load settles; its progress callback, if
     * given, posts the loading events.
     */
    method GetInstance(withCallback: bool, events: seq<LoadEvent>, load: LoadOutcome) returns (p: Pipeline)
      modifies this
      ensures model == old(model) && quantized == old(quantized) && instance == p
      ensures old(instance) != null ==> p == old(instance) && outbox == old(outbox)
      ensures old(instance) == null ==>
        && fresh(p)
        && p.task == Task && p.model == model && p.quantized == quantized && p.load == load
        && p.hasProgressCallback == withCallback && p.disposals == 0 && p.runs == []
        && outbox == old(outbox) + (if withCallback then Loadings(events) else [])
    {
      if instance == null {
        instance := new Pipeline(Task, model, quantized, withCallback, load);
        if withCallback {
          outbox := outbox + Loadings(events);
        }
      }
      p := instance;
    }

    /**
     * `summarize`: a new pair is stored and the old instance, if any, is
     * awaited, disposed once and dropped; then the instance for the pair
     * (cached or new) is awaited and called with the request's lengths and
     * without sampling, and a rejected call posts an error message. Awaiting
     * a rejected load throws, and the rejected promise stays cached.
     */
    method Summarize(text: string, model: string, quantized: bool, maxLength: int, minLength: int,
                     events: seq<LoadEvent>, load: LoadOutcome, outcome: RunOutcome)
      returns (result: SummarizeResult)
      requires Valid()
      modifies this, instance
      ensures Valid()
      ensures this.model == Some(model) && this.quantized == Some(quantized) && instance != null
      ensures instance == old(instance) || fresh(instance)
      ensures result.Threw? <==> instance.load.LoadFailed?
      ensures old(Stuck()) ==>
        && instance == old(instance) && result == Threw(old(instance.load).error)
        && outbox == old(outbox) && instance.runs == old(instance.runs)
      ensures !old(Stuck()) ==>
        && result == (if !old(Holds(model, quantized)) && load.LoadFailed? then Threw(load.error) else Returned(RunOutput(outcome)))
        && outbox == old(outbox) + (if old(Holds(model, quantized)) then [] else Loadings(events))
                     + (if result == Returned(None) then [ErrorMessage(Task, outcome.error)] else [])
      ensures old(Holds(model, quantized)) ==>
        instance == old(instance) && instance.runs == old(instance.runs) + [PipelineRun(text, GenerationOptions(maxLength, minLength, false))]
      ensures !old(Stuck()) && !old(Holds(model, quantized)) ==>
        && fresh(instance) && instance.hasProgressCallback && instance.load == load
        && instance.runs == (if load.Loaded? then [PipelineRun(text, GenerationOptions(maxLength, minLength, false))] else [])
      ensures old(instance) != null && old(instance.load).Loaded? && !old(Holds(model, quantized)) ==>
        old(instance).disposals == 1 && old(instance).runs == old(instance.runs)
    {
      if this.model != Some(model) || this.quantized != Some(quantized) {
        this.model := Some(model);
        this.quantized := Some(quantized);
        if instance != null {
          var old_instance := GetInstance(false, [], load);
          if old_instance.load.LoadFailed? {
            return Threw(old_instance.load.error);
          }
          old_instance.Dispose();
          instance := null;
        }
      }
      var summarizer := GetInstance(true, events, load);
      if summarizer.load.LoadFailed? {
        return Threw(summarizer.load.error);
      }
      var output := summarizer.Run(text, GenerationOptions(maxLength, minLength, false), outcome);
      if output.None? {
        outbox := outbox + [ErrorMessage(Task, outcome.error)];
      }
      return Returned(output);
    }

    /**
     * The `message` listener as written: `summarize`, then 'complete' unless
     * the call failed. When the model load rejects, the exception leaves the
     * listener and nothing closes the request; from then on the cached
     * rejection makes every request end the same way.
     */
    method HandleMessage(request: Request, events: seq<LoadEvent>, load: LoadOutcome, outcome: RunOutcome)
      requires Valid()
      modifies this, instance
      ensures Valid()
      ensures model == Some(request.model) && quantized == Some(request.quantized)
      ensures instance != null && (instance == old(instance) || fresh(instance))
      ensures old(instance) == null ==> instance.load == load
      ensures old(Stuck()) ==> instance == old(instance) && outbox == old(outbox)
      ensures var reused := old(Holds(request.model, request.quantized));
        !old(Stuck()) ==>
          outbox == old(outbox) + (if reused then [] else Loadings(events))
                    + (if !reused && load.LoadFailed? then [] else [Terminal(outcome)])
      ensures Stuck() <==> old(Stuck()) || (!old(Holds(request.model, request.quantized)) && load.LoadFailed?)
      ensures TerminalCount(outbox) == TerminalCount(old(outbox)) + (if Stuck() then 0 else 1)
    {
      ghost var loads: seq<OutMessage> := if Holds(request.model, request.quantized) then [] else Loadings(events);
      var result := Summarize(request.text, request.model, request.quantized,
                              request.maxLength, request.minLength, events, load, outcome);
      match result
      case Threw(_) =>
        LoadingsOnly(old(outbox), outbox, events);
      case Returned(summary) =>
        if summary.Some? {
          outbox := outbox + [CompleteMessage(Task, summary.value)];
        }
        RequestMessages(old(outbox), loads, events, Terminal(outcome));
    }

    /** Drops a rejected load from the cache, so that the next request loads again. */
    method Evict()
      requires Valid()
      modifies this
      ensures Valid() && !Stuck()
      ensures model == old(model) && quantized == old(quantized) && outbox == old(outbox)
      ensures instance == if old(Stuck()) then null else old(instance)
    {
      if instance != null && instance.load.LoadFailed? {
        instance := null;
      }
    }

    /**
     * The corrected listener: a rejected load is dropped from the
     * cache and its request is closed with an 'error' message, so every
     * request gets exactly one closing message and a later request loads again.
     */
    method HandleMessageFixed(request: Request, events: seq<LoadEvent>, load: LoadOutcome, outcome: RunOutcome)
      requires Valid()
      modifies this, instance
      ensures Valid() && !Stuck()
      ensures model == Some(request.model) && quantized == Some(request.quantized)
      ensures instance == null || instance == old(instance) || fresh(instance)
      ensures var reused := old(Holds(request.model, request.quantized));
        outbox == old(outbox) + (if reused then [] else Loadings(events))
                  + [if !reused && load.LoadFailed? then ErrorMessage(Task, load.error) else Terminal(outcome)]
      ensures TerminalCount(outbox) == TerminalCount(old(outbox)) + 1
    {
      Evict();
      ghost var reused := Holds(request.model, request.quantized);
      ghost var loads: seq<OutMessage> := if reused then [] else Loadings(events);
      var result := Summarize(request.text, request.model, request.quantized,
                              request.maxLength, request.minLength, events, load, outcome);
      Close(result);
      RequestMessages(old(outbox), loads, events, outbox[|outbox| - 1]);
    }

    /**
     * Closes a request after `summarize` as the corrected listener does: a
     * thrown load error is posted and its rejected promise dropped, an output
     * is posted as 'complete', and a failed call was already closed.
     */
    method Close(result: SummarizeResult)
      requires Valid()
      requires result.Threw? <==> Stuck()
      modifies this
      ensures Valid() && !Stuck()
      ensures model == old(model) && quantized == old(quantized)
      ensures instance == if result.Threw? then null else old(instance)
      ensures outbox == old(outbox) + match result
        case Threw(error) => [ErrorMessage(Task, error)]
        case Returned(output) => if output.Some? then [CompleteMessage(Task, output.value)] else []
    {
      match result
      case Threw(error) =>
        outbox := outbox + [ErrorMessage(Task, error)];
        instance := null;
      case Returned(output) =>
        if output.Some? {
          outbox := outbox + [CompleteMessage(Task, output.value)];
        }
    }
  }

  /** Appending loading events and one closing message adds one closing message. */
  lemma RequestMessages(before: seq<OutMessage>, loads: seq<OutMessage>, events: seq<LoadEvent>, closing: OutMessage)
    requires (loads == [] || loads == Loadings(events)) && IsTerminal(closing)
    ensures TerminalCount(before + loads + [closing]) == TerminalCount(before) + 1
    ensures var all := before + loads + [closing];
      |all| > |before| && all[..|before|] == before && all[|all| - 1] == closing
  {
    assert (before + loads + [closing])[..|before|] == before;
    LoadingsNotTerminal(events);
    TerminalCountAppend(before + loads, [closing]);
    TerminalCountAppend(before, loads);
  }

  /** Loading events alone, or nothing, add no closing message. */
  lemma LoadingsOnly(before: seq<OutMessage>, after: seq<OutMessage>, events: seq<LoadEvent>)
    requires after == before || after == before + Loadings(events)
    ensures TerminalCount(after) == TerminalCount(before)
  {
    LoadingsNotTerminal(events);
    TerminalCountAppend(before, Loadings(events));
  }

  /**
   * The worker as written: after a first request whose model load rejects,
   * neither that request nor a second one gets a closing message, even
   * though the second load would succeed.
   */
  method FailedLoadSilencesWorker(first: Request, second: Request, events: seq<LoadEvent>, error: string,
                                  outcome: RunOutcome)
    returns (closing: nat)
    ensures closing == 0
  {
    var w := new Worker();
    w.HandleMessage(first, events, LoadFailed(error), outcome);
    w.HandleMessage(second, events, Loaded, outcome);
    closing := TerminalCount(w.outbox);
  }

  /** The corrected listener closes both requests of the same scenario. */
  method FixedWorkerRecovers(first: Request, second: Request, events: seq<LoadEvent>, error: string,
                             outcome: RunOutcome)
    returns (closing: nat)
    ensures closing == 2
  {
    var w := new Worker();
    w.HandleMessageFixed(first, events, LoadFailed(error), outcome);
    w.HandleMessageFixed(second, events, Loaded, outcome);
    closing := TerminalCount(w.outbox);
  }
}
