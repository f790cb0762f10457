/**
 * The summarizer hook (src/hooks/useSummarizer.ts): the state the hook keeps
 * for the summarization worker, the handler of the worker's messages and the
 * guard in front of a summarization request.
 */
module Summarizer {
  import opened Wrappers
  import opened Text

  /** One model file the worker is loading, as the worker reports it. */
  datatype ProgressItem = ProgressItem(
    file: string,
    loaded: real,
    progress: real,
    total: real,
    name: string,
    status: string)

  /** The summary shown so far, and whether more of it is still coming. */
  datatype SummarizerData = SummarizerData(isBusy: bool, summary: string)

  /** A message from the worker, by its `status` field. */
  datatype WorkerMessage =
    | Progress(file: string, progress: real)
    | Update(data: string)
    | Complete(summaryText: string)
    | Initiate(item: ProgressItem)
    | Ready
    | Error(message: string)
    | Done(file: string)
    | Unrecognised(status: string)

  /** What `postRequest` sends to the worker. */
  datatype SummarizeRequest = SummarizeRequest(
    text: string,
    model: string,
    quantized: bool,
    maxLength: int,
    minLength: int)

  /** The text of the alert shown when the worker reports an error. */
  function ErrorAlert(message: string): (alert: string)
    ensures |alert| > |message| && alert[..|message|] == message
  {
    message + " Error occurred during summarization. Please try again."
  }

  // ---------------------------------------------------------------------------
  // The progress list
  // ---------------------------------------------------------------------------

  /** The `map` of a 'progress' message: the items of `file` get the new progress. */
  function UpdateProgress(items: seq<ProgressItem>, file: string, progress: real): (r: seq<ProgressItem>)
    ensures |r| == |items|
  {
    if items == [] then []
    else
      [if items[0].file == file then items[0].(progress := progress) else items[0]]
      + UpdateProgress(items[1..], file, progress)
  }

  /** The `filter` of a 'done' message: the items of `file` leave the list. */
  function RemoveFile(items: seq<ProgressItem>, file: string): (r: seq<ProgressItem>)
    ensures |r| <= |items|
  {
    if items == [] then []
    else (if items[0].file == file then [] else [items[0]]) + RemoveFile(items[1..], file)
  }

  /**
   * A 'progress' message touches only the progress of the items of its file:
   * every other field, every other item and the order stay as they were.
   */
  lemma {:induction false} UpdateProgressAt(items: seq<ProgressItem>, file: string, progress: real, i: nat)
    requires i < |items|
    ensures var r := UpdateProgress(items, file, progress);
      && (items[i].file == file ==> r[i] == items[i].(progress := progress))
      && (items[i].file != file ==> r[i] == items[i])
  {
    if i > 0 {
      UpdateProgressAt(items[1..], file, progress, i - 1);
    }
  }

  /** A progress report for a file nobody is loading changes nothing. */
  lemma {:induction false} UpdateProgressAbsent(items: seq<ProgressItem>, file: string, progress: real)
    requires forall i :: 0 <= i < |items| ==> items[i].file != file
    ensures UpdateProgress(items, file, progress) == items
  {
    if items != [] {
      UpdateProgressAbsent(items[1..], file, progress);
    }
  }

  /** An item is kept by 'done' exactly when it was there and belongs to another file. */
  lemma {:induction false} RemoveFileMembers(items: seq<ProgressItem>, file: string)
    ensures forall it :: it in RemoveFile(items, file) <==> it in items && it.file != file
  {
    if items != [] {
      RemoveFileMembers(items[1..], file);
      assert items == [items[0]] + items[1..];
    }
  }

  /** 'done' filters piece by piece, so the kept items stay in their order. */
  lemma {:induction false} RemoveFileAppend(a: seq<ProgressItem>, b: seq<ProgressItem>, file: string)
    ensures RemoveFile(a + b, file) == RemoveFile(a, file) + RemoveFile(b, file)
  {
    if a == [] {
      assert a + b == b;
    } else {
      RemoveFileAppend(a[1..], b, file);
      AppendHeadTail(a, b);
      var head := if a[0].file == file then [] else [a[0]];
      AppendAssoc(head, RemoveFile(a[1..], file), RemoveFile(b, file));
    }
  }

  /** A list without the file is kept whole. */
  lemma {:induction false} RemoveFileAbsent(items: seq<ProgressItem>, file: string)
    requires forall i :: 0 <= i < |items| ==> items[i].file != file
    ensures RemoveFile(items, file) == items
  {
    if items != [] {
      RemoveFileAbsent(items[1..], file);
    }
  }

  /** A file that starts loading and is then done leaves the rest of the list as it was. */
  lemma InitiateThenDone(items: seq<ProgressItem>, item: ProgressItem)
    ensures RemoveFile(items + [item], item.file) == RemoveFile(items, item.file)
  {
    RemoveFileAppend(items, [item], item.file);
    assert RemoveFile([item], item.file) == [];
  }

  // ---------------------------------------------------------------------------
  // The hook
  // ---------------------------------------------------------------------------

  /** The state of `useSummarizer` and the requests it has posted to the worker. */
  class SummarizerHook {
    var summary: Option<SummarizerData>
    var isBusy: bool
    var isModelLoading: bool
    var progressItems: seq<ProgressItem>
    var model: string
    var quantized: bool
    var maxLength: int
    var minLength: int
    /** The requests posted to the worker, oldest first. */
    var posted: seq<SummarizeRequest>
    /** The alerts shown, oldest first. */
    var alerts: seq<string>

    /** A fresh hook: nothing loading, nothing summarized, the given settings. */
    constructor(model: string, quantized: bool, maxLength: int, minLength: int)
      ensures this.summary == None && !this.isBusy && !this.isModelLoading && this.progressItems == []
      ensures this.model == model && this.quantized == quantized
      ensures this.maxLength == maxLength && this.minLength == minLength
      ensures this.posted == [] && this.alerts == []
    {
      this.summary := None;
      this.isBusy := false;
      this.isModelLoading := false;
      this.progressItems := [];
      this.model := model;
      this.quantized := quantized;
      this.maxLength := maxLength;
      this.minLength := minLength;
      this.posted := [];
      this.alerts := [];
    }

    /** The `message` listener: one step of the hook's state machine. */
    method OnMessage(m: WorkerMessage)
      modifies this
      ensures model == old(model) && quantized == old(quantized)
      ensures maxLength == old(maxLength) && minLength == old(minLength)
      ensures posted == old(posted)
      ensures match m
        case Progress(file, p) =>
          && progressItems == UpdateProgress(old(progressItems), file, p)
          && summary == old(summary) && isBusy == old(isBusy) && isModelLoading == old(isModelLoading)
          && alerts == old(alerts)
        case Update(data) =>
          && summary == Some(SummarizerData(true, data))
          && progressItems == old(progressItems) && isBusy == old(isBusy)
          && isModelLoading == old(isModelLoading) && alerts == old(alerts)
        case Complete(text) =>
          && summary == Some(SummarizerData(false, text)) && !isBusy
          && progressItems == old(progressItems) && isModelLoading == old(isModelLoading)
          && alerts == old(alerts)
        case Initiate(item) =>
          && progressItems == old(progressItems) + [item] && isModelLoading
          && summary == old(summary) && isBusy == old(isBusy) && alerts == old(alerts)
        case Ready =>
          && !isModelLoading
          && progressItems == old(progressItems) && summary == old(summary)
          && isBusy == old(isBusy) && alerts == old(alerts)
        case Error(message) =>
          && !isBusy && alerts == old(alerts) + [ErrorAlert(message)]
          && progressItems == old(progressItems) && summary == old(summary)
          && isModelLoading == old(isModelLoading)
        case Done(file) =>
          && progressItems == RemoveFile(old(progressItems), file)
          && summary == old(summary) && isBusy == old(isBusy)
          && isModelLoading == old(isModelLoading) && alerts == old(alerts)
        case Unrecognised(_) =>
          && progressItems == old(progressItems) && summary == old(summary)
          && isBusy == old(isBusy) && isModelLoading == old(isModelLoading)
          && alerts == old(alerts)
    {
      match m
      case Progress(file, p) =>
        progressItems := UpdateProgress(progressItems, file, p);
      case Update(data) =>
        summary := Some(SummarizerData(true, data));
      case Complete(text) =>
        summary := Some(SummarizerData(false, text));
        isBusy := false;
      case Initiate(item) =>
        isModelLoading := true;
        progressItems := progressItems + [item];
      case Ready =>
        isModelLoading := false;
      case Error(message) =>
        isBusy := false;
        alerts := alerts + [ErrorAlert(message)];
      case Done(file) =>
        progressItems := RemoveFile(progressItems, file);
      case Unrecognised(_) =>
    }

    /**
     * `postRequest`: a text that is only whitespace is ignored; any other text
     * clears the summary, marks the hook busy and posts exactly one request
     * carrying the trimmed text and the current settings.
     */
    method Start(text: string)
      modifies this
      ensures model == old(model) && quantized == old(quantized)
      ensures maxLength == old(maxLength) && minLength == old(minLength)
      ensures isModelLoading == old(isModelLoading) && progressItems == old(progressItems)
      ensures alerts == old(alerts)
      ensures Trim(text) == [] ==> summary == old(summary) && isBusy == old(isBusy) && posted == old(posted)
      ensures Trim(text) != [] ==>
        && summary == None && isBusy
        && posted == old(posted) + [SummarizeRequest(Trim(text), model, quantized, maxLength, minLength)]
    {
      var trimmed := Trim(text);
      if trimmed != [] {
        summary := None;
        isBusy := true;
        posted := posted + [SummarizeRequest(trimmed, model, quantized, maxLength, minLength)];
      }
    }

    method SetModel(model: string)
      modifies this
      ensures this.model == model
      ensures quantized == old(quantized) && maxLength == old(maxLength) && minLength == old(minLength)
      ensures summary == old(summary) && isBusy == old(isBusy) && isModelLoading == old(isModelLoading)
      ensures progressItems == old(progressItems) && posted == old(posted) && alerts == old(alerts)
    {
      this.model := model;
    }

    method SetQuantized(quantized: bool)
      modifies this
      ensures this.quantized == quantized
      ensures model == old(model) && maxLength == old(maxLength) && minLength == old(minLength)
      ensures summary == old(summary) && isBusy == old(isBusy) && isModelLoading == old(isModelLoading)
      ensures progressItems == old(progressItems) && posted == old(posted) && alerts == old(alerts)
    {
      this.quantized := quantized;
    }

    method SetMaxLength(maxLength: int)
      modifies this
      ensures this.maxLength == maxLength
      ensures model == old(model) && quantized == old(quantized) && minLength == old(minLength)
      ensures summary == old(summary) && isBusy == old(isBusy) && isModelLoading == old(isModelLoading)
      ensures progressItems == old(progressItems) && posted == old(posted) && alerts == old(alerts)
    {
      this.maxLength := maxLength;
    }

    method SetMinLength(minLength: int)
      modifies this
      ensures this.minLength == minLength
      ensures model == old(model) && quantized == old(quantized) && maxLength == old(maxLength)
      ensures summary == old(summary) && isBusy == old(isBusy) && isModelLoading == old(isModelLoading)
      ensures progressItems == old(progressItems) && posted == old(posted) && alerts == old(alerts)
    {
      this.minLength := minLength;
    }
  }

  /** A request that is posted carries a text with no whitespace at either end. */
  lemma PostedTextTrimmed(text: string)
    requires Trim(text) != []
    ensures var t := Trim(text); !IsSpace(t[0]) && !IsSpace(t[|t| - 1]) && Contains(text, t)
  {
    TrimSpec(text);
  }
}
