/**
 * The webhook response decoder of celery.task.http: a remote task answers
 * with a JSON object whose "status" says whether it succeeded, and
 * `extract_response` turns that answer into a return value or an exception.
 */
module Webhook {
  import opened Wrappers

  /** A decoded JSON value (floating point numbers are not modelled). */
  datatype Json =
    | JNull
    | JBool(b: bool)
    | JInt(i: int)
    | JStr(s: string)
    | JArray(items: seq<Json>)
    | JObject(fields: map<string, Json>)

  /** The decoded top-level JSON object of a response. */
  type Payload = map<string, Json>

  /** What the `loads` decoder gives back: the payload, or the message of the ValueError it raised. */
  datatype Decoded = Loaded(payload: Payload) | DecodeFailed(message: string)

  /**
   * The exceptions a webhook call can end in. UnknownStatus is the subclass
   * UnknownStatusError of InvalidResponseError (see IsInvalidResponseError);
   * MissingKey is the KeyError that indexing a payload without the key raises;
   * UrlMissing is the error `run` ends in when neither its argument nor the
   * task supplies a URL.
   */
  datatype HttpError =
    | InvalidResponse(message: string)
    | UnknownStatus(status: Json)
    | RemoteExecute(reason: Json)
    | MissingKey(key: string)
    | UrlMissing

  /** `isinstance(e, InvalidResponseError)`: the class itself or its subclass UnknownStatusError. */
  predicate IsInvalidResponseError(e: HttpError) {
    e.InvalidResponse? || e.UnknownStatus?
  }

  const EmptyResponseMessage: string := "Empty response"
  const StatusKey: string := "status"
  const RetvalKey: string := "retval"
  const ReasonKey: string := "reason"
  const SuccessStatus: Json := JStr("success")
  const FailureStatus: Json := JStr("failure")

  /** `payload.get(key)`: Python's None for an absent key is JSON null. */
  function Get(payload: Payload, key: string): Json
  {
    if key in payload then payload[key] else JNull
  }

  /**
   * `extract_response(raw_response, loads)`. A response is falsy exactly when
   * it is empty; `loads` is the JSON decoder, passed in as in the source.
   */
  function ExtractResponse(raw: string, loads: string -> Decoded): (r: Result<Json, HttpError>)
    ensures |raw| == 0 ==> r == Failure(InvalidResponse(EmptyResponseMessage))
    ensures r.Success? ==> |raw| > 0 && loads(raw).Loaded?
                           && StatusKey in loads(raw).payload
                           && loads(raw).payload[StatusKey] == SuccessStatus
                           && RetvalKey in loads(raw).payload
                           && r.value == loads(raw).payload[RetvalKey]
    ensures r.Failure? ==> IsInvalidResponseError(r.error) || r.error.RemoteExecute? || r.error.MissingKey?
  {
    if |raw| == 0 then
      Failure(InvalidResponse(EmptyResponseMessage))
    else
      match loads(raw)
      case DecodeFailed(message) => Failure(InvalidResponse(message))
      case Loaded(payload) =>
        if StatusKey !in payload then
          Failure(MissingKey(StatusKey))
        else
          var status := payload[StatusKey];
          if status == SuccessStatus then
            if RetvalKey in payload then Success(payload[RetvalKey]) else Failure(MissingKey(RetvalKey))
          else if status == FailureStatus then
            Failure(RemoteExecute(Get(payload, ReasonKey)))
          else
            Failure(UnknownStatus(status))
  }

  /** An empty response is refused before the decoder is consulted: no decoder changes the outcome. */
  lemma EmptyResponseNeverDecodes(loads1: string -> Decoded, loads2: string -> Decoded)
    ensures ExtractResponse("", loads1) == ExtractResponse("", loads2)
    ensures ExtractResponse("", loads1) == Failure(InvalidResponse(EmptyResponseMessage))
  {
  }

  /** Every outcome of ExtractResponse, with the condition under which it happens, in both directions. */
  lemma ExtractResponseCases(raw: string, loads: string -> Decoded, v: Json, message: string, key: string)
    ensures ExtractResponse(raw, loads) == Success(v) <==>
      |raw| > 0 && loads(raw).Loaded? && StatusKey in loads(raw).payload
      && loads(raw).payload[StatusKey] == SuccessStatus
      && RetvalKey in loads(raw).payload && loads(raw).payload[RetvalKey] == v
    ensures ExtractResponse(raw, loads) == Failure(InvalidResponse(message)) <==>
      (|raw| == 0 && message == EmptyResponseMessage)
      || (|raw| > 0 && loads(raw) == DecodeFailed(message))
    ensures ExtractResponse(raw, loads) == Failure(RemoteExecute(v)) <==>
      |raw| > 0 && loads(raw).Loaded? && StatusKey in loads(raw).payload
      && loads(raw).payload[StatusKey] == FailureStatus
      && v == Get(loads(raw).payload, ReasonKey)
    ensures ExtractResponse(raw, loads) == Failure(UnknownStatus(v)) <==>
      |raw| > 0 && loads(raw).Loaded? && StatusKey in loads(raw).payload
      && loads(raw).payload[StatusKey] == v && v != SuccessStatus && v != FailureStatus
    ensures ExtractResponse(raw, loads) == Failure(MissingKey(key)) <==>
      |raw| > 0 && loads(raw).Loaded?
      && ((key == StatusKey && StatusKey !in loads(raw).payload)
          || (key == RetvalKey && StatusKey in loads(raw).payload
              && loads(raw).payload[StatusKey] == SuccessStatus && RetvalKey !in loads(raw).payload))
    ensures ExtractResponse(raw, loads) != Failure(UrlMissing)
  {
  }

  /** A decode failure is reported as InvalidResponseError carrying the decoder's message. */
  lemma DecodeFailureIsInvalidResponse(raw: string, loads: string -> Decoded)
    requires |raw| > 0 && loads(raw).DecodeFailed?
    ensures ExtractResponse(raw, loads).Failure?
    ensures IsInvalidResponseError(ExtractResponse(raw, loads).error)
    ensures ExtractResponse(raw, loads).error == InvalidResponse(loads(raw).message)
  {
  }

  /** UnknownStatusError is a kind of InvalidResponseError; RemoteExecuteError is not. */
  lemma ErrorHierarchy(status: Json, reason: Json, message: string)
    ensures IsInvalidResponseError(UnknownStatus(status))
    ensures IsInvalidResponseError(InvalidResponse(message))
    ensures !IsInvalidResponseError(RemoteExecute(reason))
  {
  }

  /** What a well-behaved webhook answers: a return value, or a failure with a reason that may be omitted. */
  datatype Reply = Succeeded(retval: Json) | Failed(reason: Option<Json>)

  /** The JSON object a webhook sends for a reply. */
  function ReplyPayload(reply: Reply): (p: Payload)
    ensures StatusKey in p
    ensures reply.Succeeded? <==> p[StatusKey] == SuccessStatus
  {
    match reply
    case Succeeded(v) => map[StatusKey := SuccessStatus, RetvalKey := v]
    case Failed(None) => map[StatusKey := FailureStatus]
    case Failed(Some(reason)) => map[StatusKey := FailureStatus, ReasonKey := reason]
  }

  /** Decoding a webhook's reply gives back what it sent: the return value, or RemoteExecuteError with the reason (null when omitted). */
  lemma ExtractResponseReadsReply(raw: string, loads: string -> Decoded, reply: Reply)
    requires |raw| > 0 && loads(raw) == Loaded(ReplyPayload(reply))
    ensures reply.Succeeded? ==> ExtractResponse(raw, loads) == Success(reply.retval)
    ensures reply.Failed? && reply.reason.Some? ==>
      ExtractResponse(raw, loads) == Failure(RemoteExecute(reply.reason.value))
    ensures reply == Failed(None) ==> ExtractResponse(raw, loads) == Failure(RemoteExecute(JNull))
  {
  }
}
