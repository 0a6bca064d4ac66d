/** The `ObjectSelector` component: it fills the object pick-lists, records the
    id of every batch job it submits, and shows the result of a completion event
    only when the event belongs to one of those jobs. Results of Apex calls and
    platform events are taken as inputs, each one settled before the next. */
module Selector {
  import opened Wrappers
  import opened ObjectOptions
  import opened Metadata

  class ObjectSelector {
    var standardObjectOptions: seq<ObjectOption>
    var customObjectOptions: seq<ObjectOption>
    var metadataResult: Option<MetadataResult>
    var loading: bool
    var jobIds: seq<string>
    /** Every toast dispatched so far, oldest first. */
    var toasts: seq<Toast>

    /** Every toast shown is well formed; in particular no error toast is blank,
        because an empty service message falls back to the generic one. */
    ghost predicate Valid()
      reads this
    {
      forall k :: 0 <= k < |toasts| ==> WellFormedToast(toasts[k])
    }

    /** The field initialisers: empty lists, no result, not loading, no jobs. */
    constructor ()
      ensures Valid()
      ensures standardObjectOptions == [] && customObjectOptions == []
      ensures metadataResult == None && !loading
      ensures jobIds == [] && toasts == []
    {
      standardObjectOptions, customObjectOptions := [], [];
      metadataResult, loading := None, false;
      jobIds, toasts := [], [];
    }

    /** Relevance of an event: its job id is one this instance submitted. */
    function IsRelevantBatchJob(batchContextId: string): (r: bool)
      reads this
      ensures r <==> exists k :: 0 <= k < |jobIds| && jobIds[k] == batchContextId
    {
      batchContextId in jobIds
    }

    /** There is a result to show: a result is present and holds at least one entry. */
    function HasResults(): (r: bool)
      reads this
      ensures r <==> metadataResult.Some? && metadataResult.value.EntryCount() > 0
    {
      && metadataResult.Some?
      && (|metadataResult.value.fieldMetadata| > 0
          || |metadataResult.value.validationRules| > 0
          || |metadataResult.value.recordTypes| > 0)
    }

    /** Dispatching a toast event records its triple and nothing else. */
    method ShowToast(title: string, message: string, variant: string)
      modifies this
      ensures toasts == old(toasts) + [Toast(title, message, variant)]
      ensures standardObjectOptions == old(standardObjectOptions)
      ensures customObjectOptions == old(customObjectOptions)
      ensures metadataResult == old(metadataResult) && loading == old(loading)
      ensures jobIds == old(jobIds)
    {
      toasts := toasts + [Toast(title, message, variant)];
    }

    /** The wire handler for the object names. With data, both lists are
        rebuilt: each a sorted permutation of its share of the names. Without
        data (an error, or nothing provisioned yet) nothing changes; the error
        is only logged. */
    method WiredObjects(data: Option<seq<string>>, le: (string, string) -> bool)
      requires Valid() && TotalPreorder(le)
      modifies this
      ensures Valid()
      ensures data.None? ==> standardObjectOptions == old(standardObjectOptions)
      ensures data.None? ==> customObjectOptions == old(customObjectOptions)
      ensures data.Some? ==> SortedByLabel(standardObjectOptions, le)
                             && multiset(standardObjectOptions) == multiset(StandardOptions(data.value))
      ensures data.Some? ==> SortedByLabel(customObjectOptions, le)
                             && multiset(customObjectOptions) == multiset(CustomOptions(data.value))
      ensures metadataResult == old(metadataResult) && loading == old(loading)
      ensures jobIds == old(jobIds) && toasts == old(toasts)
    {
      if data.Some? {
        var standard, custom := PartitionNames(data.value);
        var standardArray := new ObjectOption[|standard|](k requires 0 <= k < |standard| => standard[k]);
        var customArray := new ObjectOption[|custom|](k requires 0 <= k < |custom| => custom[k]);
        assert standardArray[..] == standard;
        assert customArray[..] == custom;
        SortOptionsAlphabetically(standardArray, le);
        SortOptionsAlphabetically(customArray, le);
        standardObjectOptions := standardArray[..];
        customObjectOptions := customArray[..];
      }
    }

    /** Starting a standard-object submission: the spinner goes on. The flag
        is shared with the custom path, so any later settlement turns it off. */
    method HandleStdObjectProcessing()
      requires Valid()
      modifies this
      ensures Valid()
      ensures loading
      ensures standardObjectOptions == old(standardObjectOptions)
      ensures customObjectOptions == old(customObjectOptions)
      ensures metadataResult == old(metadataResult)
      ensures jobIds == old(jobIds) && toasts == old(toasts)
    {
      loading := true;
    }

    /** The settlement of a standard-object submission. A job id is appended
        to the tracked ids (no deduplication) and announced; a rejection tracks
        nothing and shows the selected error message. The spinner goes off. */
    method StdObjectProcessingSettled(outcome: SubmissionOutcome)
      requires Valid()
      modifies this
      ensures Valid()
      ensures !loading
      ensures outcome.Resolved? ==> jobIds == old(jobIds) + [outcome.jobId]
      ensures outcome.Resolved? ==> toasts == old(toasts) + [Toast(SUCCESS_TITLE, STANDARD_STARTED_MESSAGE, SUCCESS_VARIANT)]
      ensures outcome.Resolved? ==> IsRelevantBatchJob(outcome.jobId)
      ensures outcome.Rejected? ==> jobIds == old(jobIds)
      ensures outcome.Rejected? ==> toasts == old(toasts) + [Toast(ERROR_TITLE, ErrorMessage(outcome.error), ERROR_VARIANT)]
      ensures forall id :: old(IsRelevantBatchJob(id)) ==> IsRelevantBatchJob(id)
      ensures standardObjectOptions == old(standardObjectOptions)
      ensures customObjectOptions == old(customObjectOptions)
      ensures metadataResult == old(metadataResult)
    {
      match outcome
      case Resolved(jobId) =>
        jobIds := jobIds + [jobId];
        ShowToast(SUCCESS_TITLE, STANDARD_STARTED_MESSAGE, SUCCESS_VARIANT);
        loading := false;
      case Rejected(error) =>
        loading := false;
        var message := ErrorMessage(error);
        ShowToast(ERROR_TITLE, message, ERROR_VARIANT);
    }

    /** Starting a custom-object submission: the spinner goes on (the same
        flag as the standard path). */
    method HandleCustomObjectProcessing()
      requires Valid()
      modifies this
      ensures Valid()
      ensures loading
      ensures standardObjectOptions == old(standardObjectOptions)
      ensures customObjectOptions == old(customObjectOptions)
      ensures metadataResult == old(metadataResult)
      ensures jobIds == old(jobIds) && toasts == old(toasts)
    {
      loading := true;
    }

    /** The settlement of a custom-object submission: as for standard objects,
        except that neither a job id nor an error is announced by a toast
        (the error is only logged). */
    method CustomObjectProcessingSettled(outcome: SubmissionOutcome)
      requires Valid()
      modifies this
      ensures Valid()
      ensures !loading
      ensures outcome.Resolved? ==> jobIds == old(jobIds) + [outcome.jobId]
      ensures outcome.Resolved? ==> IsRelevantBatchJob(outcome.jobId)
      ensures outcome.Rejected? ==> jobIds == old(jobIds)
      ensures forall id :: old(IsRelevantBatchJob(id)) ==> IsRelevantBatchJob(id)
      ensures toasts == old(toasts)
      ensures standardObjectOptions == old(standardObjectOptions)
      ensures customObjectOptions == old(customObjectOptions)
      ensures metadataResult == old(metadataResult)
    {
      match outcome
      case Resolved(jobId) =>
        jobIds := jobIds + [jobId];
        loading := false;
      case Rejected(_) =>
        loading := false;
    }

    /** The platform-event callback. An event of a tracked job REPLACES the
        shown result by its parsed payload (nothing of the previous result is
        kept) and shows one success toast. An event of any other job changes
        nothing, and so does a payload whose parse throws, since the callback
        stops before assigning. The tracked ids never change here. */
    method MessageCallback(event: PlatformEvent)
      requires Valid()
      modifies this
      ensures Valid()
      ensures IsRelevantBatchJob(event.batchJobId) && event.batchJobResult.Parsed? ==>
                metadataResult == event.batchJobResult.value
                && toasts == old(toasts) + [Toast(SUCCESS_TITLE, BATCH_COMPLETED_MESSAGE, SUCCESS_VARIANT)]
      ensures !IsRelevantBatchJob(event.batchJobId) || event.batchJobResult.ParseFailed? ==>
                metadataResult == old(metadataResult) && toasts == old(toasts)
      ensures jobIds == old(jobIds) && loading == old(loading)
      ensures standardObjectOptions == old(standardObjectOptions)
      ensures customObjectOptions == old(customObjectOptions)
    {
      var batchContextId := event.batchJobId;
      if IsRelevantBatchJob(batchContextId) {
        match event.batchJobResult
        case ParseFailed =>
        case Parsed(result) =>
          metadataResult := result;
          ShowToast(SUCCESS_TITLE, BATCH_COMPLETED_MESSAGE, SUCCESS_VARIANT);
      }
    }

    /** The streaming error listener: one error toast with the selected message. */
    method OnTransportError(error: Option<ErrorValue>)
      requires Valid()
      modifies this
      ensures Valid()
      ensures toasts == old(toasts) + [Toast(ERROR_TITLE, ErrorMessage(error), ERROR_VARIANT)]
      ensures standardObjectOptions == old(standardObjectOptions)
      ensures customObjectOptions == old(customObjectOptions)
      ensures metadataResult == old(metadataResult) && loading == old(loading)
      ensures jobIds == old(jobIds)
    {
      var message := ErrorMessage(error);
      ShowToast(ERROR_TITLE, message, ERROR_VARIANT);
    }
  }

  /** A session as a client sees it from the contracts alone: submit a job,
      ignore an event of a foreign job, show the tracked job's result,
      replace it wholesale when a second tracked job completes. */
  method CompletionScenario() {
    var selector := new ObjectSelector();
    selector.HandleStdObjectProcessing();
    assert selector.loading;
    selector.StdObjectProcessingSettled(Resolved("J1"));
    assert selector.jobIds == ["J1"] && !selector.loading;

    var foreign := MetadataResult(["{\"name\":\"Other\"}"], [], []);
    selector.MessageCallback(PlatformEvent("J9", Parsed(Some(foreign))));
    assert selector.metadataResult == None && !selector.HasResults();

    var first := MetadataResult(["{\"name\":\"Name\"}"], [], []);
    selector.MessageCallback(PlatformEvent("J1", Parsed(Some(first))));
    assert selector.metadataResult == Some(first) && selector.HasResults();
    assert selector.toasts[|selector.toasts| - 1] == Toast("Success", "Batch job completed successfully.", "success");

    selector.HandleCustomObjectProcessing();
    selector.CustomObjectProcessingSettled(Resolved("J2"));
    var second := MetadataResult([], ["{\"name\":\"Rule\"}"], []);
    selector.MessageCallback(PlatformEvent("J2", Parsed(Some(second))));
    assert selector.metadataResult == Some(second);
    assert selector.metadataResult.value.fieldMetadata == [];
    assert selector.IsRelevantBatchJob("J1") && selector.IsRelevantBatchJob("J2");

    var empty := MetadataResult([], [], []);
    selector.MessageCallback(PlatformEvent("J1", Parsed(Some(empty))));
    assert !selector.HasResults();
  }

  /** Two overlapping submissions share one spinner: the first settlement
      turns it off while the other call is still outstanding. */
  method OverlappingSubmissionsScenario() {
    var selector := new ObjectSelector();
    selector.HandleStdObjectProcessing();
    selector.HandleCustomObjectProcessing();
    selector.CustomObjectProcessingSettled(Resolved("C1"));
    assert !selector.loading;  // the standard call is still outstanding
    selector.StdObjectProcessingSettled(Rejected(None));
    assert !selector.loading && selector.jobIds == ["C1"];
    assert selector.toasts == [Toast("Error", "Unknown error", "error")];
  }
}
