/**
 * `OAuth2ExceptionResolver`: answers a handler's `OAuth2Exception` with one
 * `sendError` carrying the exception's HTTP error code, so that the client sees
 * that status instead of a generic server error. The response is the log of the
 * `sendError` calls made on it; whether sending fails with an `IOException` is
 * fixed per response.
 */
module ExceptionResolver {
  import opened Wrappers

  /** The exception a handler threw: an `OAuth2Exception` with its HTTP code and message, or anything else. */
  datatype Exception = OAuth2Exception(httpErrorCode: int, message: Option<string>) | OtherException(message: Option<string>)

  /** `sendError(code)` and `sendError(code, message)`. */
  datatype SendErrorCall = SendError(code: int) | SendErrorWithMessage(code: int, message: string)

  /** The empty `ModelAndView` that tells the dispatcher the exception is handled. */
  datatype ModelAndView = EmptyView

  /** A `MessageSource` for the current locale: the message for a code, if it has one. */
  type MessageSource = string -> Option<string>

  /** `StringUtils.hasLength`: non-null and not empty. */
  predicate HasLength(s: Option<string>) {
    s.Some? && |s.value| > 0
  }

  /** `getMessage(msg, null, msg, locale)`: the message for `msg`, defaulting to `msg` itself. */
  function ResolveMessage(source: Option<MessageSource>, msg: string): (r: string)
    ensures source.None? ==> r == msg
    ensures source.Some? && source.value(msg).None? ==> r == msg
    ensures source.Some? && source.value(msg).Some? ==> r == source.value(msg).value
  {
    if source.None? then msg else source.value(msg).GetOr(msg)
  }

  /** The `sendError` call `resolveException` makes for an exception, if any. */
  function ErrorCall(source: Option<MessageSource>, ex: Exception): (r: Option<SendErrorCall>)
    ensures r.Some? <==> ex.OAuth2Exception?
    ensures r.Some? ==> r.value.code == ex.httpErrorCode
    ensures r.Some? ==> (r.value.SendErrorWithMessage? <==> HasLength(ex.message))
    ensures r.Some? && HasLength(ex.message) ==> r.value.message == ResolveMessage(source, ex.message.value)
  {
    match ex
    case OtherException(_) => None
    case OAuth2Exception(code, msg) =>
      if HasLength(msg) then Some(SendErrorWithMessage(code, ResolveMessage(source, msg.value)))
      else Some(SendError(code))
  }

  class Response {
    var calls: seq<SendErrorCall>
    /** Whether `sendError` throws `IOException` on this response. */
    const ioFailure: bool

    constructor (ioFailure: bool)
      ensures calls == [] && this.ioFailure == ioFailure
    {
      calls := [];
      this.ioFailure := ioFailure;
    }

    /** Records the call; reports false when it threw `IOException`. */
    method Send(call: SendErrorCall) returns (sent: bool)
      modifies this
      ensures calls == old(calls) + [call]
      ensures sent == !ioFailure
    {
      calls := calls + [call];
      sent := !ioFailure;
    }
  }

  class OAuth2ExceptionResolver {
    var messageSource: Option<MessageSource>

    constructor ()
      ensures messageSource == None
    {
      messageSource := None;
    }

    method SetMessageSource(messageSource: Option<MessageSource>)
      modifies this`messageSource
      ensures this.messageSource == messageSource
    {
      this.messageSource := messageSource;
    }

    /**
     * `resolveException`: one `sendError` for an `OAuth2Exception`, none for
     * anything else; the empty view when the send went through, null when it
     * threw (the `IOException` is swallowed) or the exception is not OAuth2's.
     */
    method ResolveException(response: Response, ex: Exception) returns (r: Option<ModelAndView>)
      modifies response
      ensures var call := ErrorCall(messageSource, ex);
        response.calls == old(response.calls) + (if call.Some? then [call.value] else [])
      ensures r == Some(EmptyView) <==> ex.OAuth2Exception? && !response.ioFailure
      ensures r.None? <==> !ex.OAuth2Exception? || response.ioFailure
    {
      if ex.OAuth2Exception? {
        var code := ex.httpErrorCode;
        var msg := ex.message;
        var sent;
        if HasLength(msg) {
          var resolvedMsg := if messageSource.Some? then messageSource.value(msg.value).GetOr(msg.value) else msg.value;
          sent := response.Send(SendErrorWithMessage(code, resolvedMsg));
        } else {
          sent := response.Send(SendError(code));
        }
        if sent {
          return Some(EmptyView);
        }
      }
      return None;
    }
  }

  /** A message source that knows no message leaves every message as it is. */
  lemma UnknownMessagesKeepRaw(source: MessageSource, ex: Exception)
    requires forall code :: source(code).None?
    ensures ErrorCall(Some(source), ex) == ErrorCall(None, ex)
  {
  }

  /** The resolver never sends a message that is empty. */
  lemma NoEmptyMessageSent(source: Option<MessageSource>, ex: Exception)
    requires source.Some? ==> forall code :: source.value(code).Some? ==> |source.value(code).value| > 0
    ensures var call := ErrorCall(source, ex); call.Some? && call.value.SendErrorWithMessage? ==> |call.value.message| > 0
  {
  }
}
