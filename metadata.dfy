/** The values the selector exchanges with its collaborators: the metadata a
    batch job reports, the completion event that carries it, the errors the
    Apex and streaming layers hand back, and the toasts shown to the user. */
module Metadata {
  import opened Wrappers

  /** One serialized entry of a metadata category; the selector never looks inside. */
  type Descriptor = string

  /** The parsed `BatchJobResult__c` payload of a completion event. */
  datatype MetadataResult = MetadataResult(
    fieldMetadata: seq<Descriptor>,
    validationRules: seq<Descriptor>,
    recordTypes: seq<Descriptor>)
  {
    /** The number of entries over all three categories. */
    function EntryCount(): nat {
      |fieldMetadata| + |validationRules| + |recordTypes|
    }
  }

  /** What parsing the payload text yields: it either throws, or produces a
      value that is `null` (`Parsed(None)`) or a metadata result. */
  datatype ParsedPayload = ParseFailed | Parsed(value: Option<MetadataResult>)

  /** A `BatchJobComplete__e` platform event as delivered to the callback:
      the `BatchJobId__c` field and the parse of `BatchJobResult__c`. */
  datatype PlatformEvent = PlatformEvent(batchJobId: string, batchJobResult: ParsedPayload)

  /** An error handed to a rejection or transport-error callback: the error
      itself, its `body` and the body's `message` may each be missing. */
  datatype ErrorBody = ErrorBody(message: Option<string>)
  datatype ErrorValue = ErrorValue(body: Option<ErrorBody>)

  /** The settled outcome of a `processStandardObjectMetadata` or
      `processCustomObjectMetadata` call: a job id, or the rejection's error. */
  datatype SubmissionOutcome = Resolved(jobId: string) | Rejected(error: Option<ErrorValue>)

  const UNKNOWN_ERROR := "Unknown error"

  /** The error chain carries a truthy message: present and, being a string,
      not empty. */
  predicate HasServiceMessage(error: Option<ErrorValue>) {
    && error.Some?
    && error.value.body.Some?
    && error.value.body.value.message.Some?
    && error.value.body.value.message.value != ""
  }

  /** The message shown for a failure: the error body's message when it is
      truthy, otherwise the generic fallback. Either way it is never empty. */
  function ErrorMessage(error: Option<ErrorValue>): (m: string)
    ensures m != ""
    ensures HasServiceMessage(error) ==> m == error.value.body.value.message.value
    ensures !HasServiceMessage(error) ==> m == UNKNOWN_ERROR
  {
    if HasServiceMessage(error) then error.value.body.value.message.value
    else UNKNOWN_ERROR
  }

  /** A toast, recorded as the `(title, message, variant)` triple it is built from. */
  datatype Toast = Toast(title: string, message: string, variant: string)

  const SUCCESS_TITLE := "Success"
  const SUCCESS_VARIANT := "success"
  const ERROR_TITLE := "Error"
  const ERROR_VARIANT := "error"

  const STANDARD_STARTED_MESSAGE := "Processing of standard objects started."
  const BATCH_COMPLETED_MESSAGE := "Batch job completed successfully."

  /** Every toast the selector shows: a non-empty message under a matching
      title and variant. */
  predicate WellFormedToast(t: Toast) {
    && t.message != ""
    && ((t.title == SUCCESS_TITLE && t.variant == SUCCESS_VARIANT)
        || (t.title == ERROR_TITLE && t.variant == ERROR_VARIANT))
  }
}
