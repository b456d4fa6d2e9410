/**
 * The response classifier: the callback `request` hands to the transport,
 * which turns one attempt's outcome into the `(error, response, body)`
 * triple the retry driver sees.
 */
module Classifier {
  import opened Wrappers
  import opened Strings

  /** The part of a transport response the classifier reads. */
  datatype Response = Response(statusCode: nat)

  /** An error as the caller receives it: the transport's own (known by its code), or raised here. */
  datatype Error = Transport(code: string) | Raised(message: string)

  /** What one transport call produced: a transport error, or a response and its body. */
  datatype Outcome = TransportError(code: string) | Completed(response: Response, body: string)

  /** The arguments of the classifier's callback; `None` is an omitted argument. */
  datatype Reply = Reply(error: Option<Error>, response: Option<Response>, body: Option<string>)

  const RedirectMessage := "Too many redirects. Increase in needle options."
  const StatusPrefix := "Request failed. Status code: "
  const IncompleteMessage := "fullDocument: not full document."
  /** The marker a complete document must contain. */
  const DocumentEnd := "</html>"

  /** `'Request failed. Status code: ' + statusCode + '.'`: the prefix, the code in decimal, a full stop. */
  function StatusMessage(code: nat): (m: string)
    ensures |m| > |StatusPrefix| && m[..|StatusPrefix|] == StatusPrefix && m[|m| - 1] == '.'
    ensures ParseNat(m[|StatusPrefix|..|m| - 1]) == Some(code)
  {
    var digits := NatToString(code);
    var m := StatusPrefix + digits + ".";
    assert m[|StatusPrefix|..|m| - 1] == digits;
    ParseNatToString(code);
    m
  }

  predicate IsRedirect(code: nat) {
    code == 301 || code == 302
  }

  /** The attempt counts as a success: a response that passes every check. */
  predicate Accepted(outcome: Outcome, fullDocument: bool) {
    && outcome.Completed?
    && !IsRedirect(outcome.response.statusCode)
    && outcome.response.statusCode < 400
    && (fullDocument ==> Contains(outcome.body, DocumentEnd))
  }

  /** The classifier callback of `request`, checks in source order. */
  function Classify(outcome: Outcome, fullDocument: bool): (r: Reply)
    ensures outcome.TransportError? ==> r == Reply(Some(Transport(outcome.code)), None, None)
    ensures outcome.Completed? ==> r.response == Some(outcome.response)
    ensures r.body.Some? ==> outcome.Completed? && r.body == Some(outcome.body)
    ensures r.body.Some? <==> Accepted(outcome, fullDocument) || r.error == Some(Raised(IncompleteMessage))
    ensures r.error.None? <==> Accepted(outcome, fullDocument)
  {
    match outcome
    case TransportError(code) => Reply(Some(Transport(code)), None, None)
    case Completed(response, body) =>
      var code := response.statusCode;
      if IsRedirect(code) then
        Reply(Some(Raised(RedirectMessage)), Some(response), None)
      else if code >= 400 then
        StatusMessageDistinct(code);
        Reply(Some(Raised(StatusMessage(code))), Some(response), None)
      else if fullDocument && IndexOf(body, DocumentEnd) == -1 then
        Reply(Some(Raised(IncompleteMessage)), Some(response), Some(body))
      else
        Reply(None, Some(response), Some(body))
  }

  /** Why an attempt ended as it did. */
  datatype Verdict =
    | Succeeded
    | TransportFailure
    | RedirectLimit
    | StatusFailure(code: nat)
    | IncompleteDocument
    | Unrecognised

  /** The rules for an outcome, in order: transport, redirect, status, document. */
  function Cause(outcome: Outcome, fullDocument: bool): Verdict {
    if outcome.TransportError? then TransportFailure
    else if IsRedirect(outcome.response.statusCode) then RedirectLimit
    else if outcome.response.statusCode >= 400 then StatusFailure(outcome.response.statusCode)
    else if fullDocument && !Contains(outcome.body, DocumentEnd) then IncompleteDocument
    else Succeeded
  }

  /** Reads a status-failure message back to its code. */
  function ParseStatusMessage(m: string): Option<nat> {
    if |m| > |StatusPrefix| && m[..|StatusPrefix|] == StatusPrefix && m[|m| - 1] == '.'
    then ParseNat(m[|StatusPrefix|..|m| - 1])
    else None
  }

  /** What a caller can tell from the callback's arguments alone. */
  function Explain(reply: Reply): Verdict {
    match reply.error
    case None => Succeeded
    case Some(Transport(_)) => TransportFailure
    case Some(Raised(m)) =>
      if m == RedirectMessage then RedirectLimit
      else if m == IncompleteMessage then IncompleteDocument
      else match ParseStatusMessage(m)
        case Some(code) => StatusFailure(code)
        case None => Unrecognised
  }

  /** The status-failure message carries its code recoverably. */
  lemma StatusMessageRoundTrip(code: nat)
    ensures ParseStatusMessage(StatusMessage(code)) == Some(code)
  {
  }

  /** The first characters of the three messages differ. */
  lemma MessageInitials(code: nat)
    ensures StatusMessage(code)[0] == 'R'
    ensures RedirectMessage[0] == 'T'
    ensures IncompleteMessage[0] == 'f'
  {
    assert StatusPrefix[0] == 'R';
    assert RedirectMessage == "Too many redirects. Increase in" + " needle options.";
  }

  /** Status-failure messages never collide with the other two messages. */
  lemma StatusMessageDistinct(code: nat)
    ensures StatusMessage(code) != RedirectMessage
    ensures StatusMessage(code) != IncompleteMessage
  {
    MessageInitials(code);
  }

  /** Two codes give the same status-failure message only if they are equal. */
  lemma StatusMessageInjective(a: nat, b: nat)
    requires StatusMessage(a) == StatusMessage(b)
    ensures a == b
  {
    StatusMessageRoundTrip(a);
    StatusMessageRoundTrip(b);
  }

  /** The reply the classifier gives identifies the rule that produced it. */
  lemma ExplainClassify(outcome: Outcome, fullDocument: bool)
    ensures Explain(Classify(outcome, fullDocument)) == Cause(outcome, fullDocument)
  {
    if outcome.Completed? && !IsRedirect(outcome.response.statusCode) && outcome.response.statusCode >= 400 {
      StatusMessageDistinct(outcome.response.statusCode);
      StatusMessageRoundTrip(outcome.response.statusCode);
    }
  }

  /** Redirect statuses are checked before the status-400 rule and carry no body. */
  lemma RedirectIsReported(response: Response, body: string, fullDocument: bool)
    requires IsRedirect(response.statusCode)
    ensures Classify(Completed(response, body), fullDocument) ==
      Reply(Some(Raised("Too many redirects. Increase in needle options.")), Some(response), None)
  {
  }

  /** A 404 is reported with its code in the message. */
  lemma NotFoundIsReported(body: string, fullDocument: bool)
    ensures Classify(Completed(Response(404), body), fullDocument) ==
      Reply(Some(Raised("Request failed. Status code: 404.")), Some(Response(404)), None)
  {
    assert NatToString(4) == "4";
    assert NatToString(40) == "40";
    assert NatToString(404) == "404";
    assert StatusMessage(404) == "Request failed. Status code: 404.";
  }

  /** Statuses from 303 to 399 are successes when only the status is checked. */
  lemma OtherRedirectsSucceed(code: nat, body: string)
    requires 303 <= code < 400
    ensures Classify(Completed(Response(code), body), false) == Reply(None, Some(Response(code)), Some(body))
  {
  }

  /** The document check applies only when asked for. */
  lemma IncompleteDocumentOnlyWhenAsked(body: string)
    requires !Contains(body, DocumentEnd)
    ensures Classify(Completed(Response(200), body), true) ==
      Reply(Some(Raised("fullDocument: not full document.")), Some(Response(200)), Some(body))
    ensures Classify(Completed(Response(200), body), false) == Reply(None, Some(Response(200)), Some(body))
  {
  }
}
