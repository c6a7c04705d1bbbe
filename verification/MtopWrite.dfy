/** One order write over the platform's MTOP endpoint: the request with its single token
    retry, the classification of the answer, and the verdict handed to the order service. */
module MtopWrite {
  import opened OrderPolicy

  /** The parsed JSON body. `ret` is present when the field is a list; `fallback` is the
      text found under the message keys; `dump` is the upper-cased JSON text. */
  datatype Answer =
    | NotAnObject(dump: string)
    | Object(ret: Ret, fallback: string, dump: string)

  datatype Ret = NoList | List(entries: seq<string>)

  /** What one pass through the endpoint meets. The first two happen before any byte is
      sent; a transport failure leaves open whether the platform saw the request. */
  datatype Attempt =
    | MissingToken
    | SigningFailed
    | TransportFailed
    | HttpError
    | NotJson
    | Answered(answer: Answer)

  datatype Kind = Auth | PlatformResponse | Category | RiskControl | PlatformRejected

  datatype Raised =
    | PublishError(kind: Kind, raw: string)
    | RequestError
    | OtherError

  datatype Reply = Got(answer: Answer) | Threw(raised: Raised)

  datatype Verdict =
    | Done(alreadyApplied: bool)
    | Rejected
    | ResultUnknown
    | Broken

  const TOKEN_MARKERS: seq<string> :=
    ["FAIL_SYS_TOKEN_EXOIRED", "FAIL_SYS_TOKEN_EXPIRED", "FAIL_SYS_ILLEGAL_ACCESS", "FAIL_SYS_SESSION_EXPIRED"]
  const RISK_MARKERS: seq<string> := ["RGV587", "RISK", "CAPTCHA", "VALIDATE"]
  const DELIVERED_MARKERS: seq<string> := ["ORDER_ALREADY_DELIVERY", "\U{5DF2}\U{53D1}\U{8D27}\U{6210}\U{529F}"]
  const CATEGORY_ERROR := "FAIL_BIZ_CHANNEL_CAT_ID_PATH_QUERY_ERROR"
  const SUCCESS_PREFIX := "SUCCESS::"

  predicate Contains(text: string, part: string) {
    exists i :: 0 <= i <= |text| && part <= text[i..]
  }

  predicate HasMarker(text: string, markers: seq<string>) {
    exists k :: 0 <= k < |markers| && Contains(text, markers[k])
  }

  predicate IsSuccess(a: Answer) {
    a.Object? && a.ret.List? && exists k :: 0 <= k < |a.ret.entries| && SUCCESS_PREFIX <= a.ret.entries[k]
  }

  function ErrorMessage(a: Answer): string
    requires a.Object?
  {
    if a.ret.List? && a.ret.entries != [] then a.ret.entries[0] else a.fallback
  }

  /** Whether the pass put a request on the wire. */
  predicate Sent(t: Attempt) {
    !t.MissingToken? && !t.SigningFailed?
  }

  function ReplyTo(t: Attempt): Reply {
    match t
    case MissingToken => Threw(PublishError(Auth, "{}"))
    case SigningFailed => Threw(OtherError)
    case TransportFailed => Threw(RequestError)
    case HttpError => Threw(RequestError)
    case NotJson => Threw(PublishError(PlatformResponse, "{}"))
    case Answered(a) => Got(a)
  }

  predicate Retries(t: Attempt) {
    t.Answered? && HasMarker(t.answer.dump, TOKEN_MARKERS)
  }

  /** The pass whose reply the caller sees. */
  function LastAttempt(first: Attempt, second: Attempt): Attempt {
    if Retries(first) then second else first
  }

  /** The requests that went out. */
  function Requests(first: Attempt, second: Attempt): seq<Attempt> {
    (if Sent(first) then [first] else []) +
    (if Retries(first) && Sent(second) then [second] else [])
  }

  /** The HTTP session of one client: every pass so far, in order. */
  class Session {
    var sent: seq<Attempt>

    constructor ()
      ensures sent == []
    {
      sent := [];
    }

    /** Post once, and once more when the answer carries a token marker. */
    method PostMtop(first: Attempt, second: Attempt, allowTokenRetry: bool) returns (r: Reply)
      modifies this
      ensures allowTokenRetry ==>
        && r == ReplyTo(LastAttempt(first, second))
        && sent == old(sent) + Requests(first, second)
      ensures !allowTokenRetry ==> r == ReplyTo(first) && sent == old(sent) + if Sent(first) then [first] else []
      decreases allowTokenRetry
    {
      match first {
        case MissingToken => return Threw(PublishError(Auth, "{}"));
        case SigningFailed => return Threw(OtherError);
        case _ =>
      }
      sent := sent + [first];
      match first {
        case TransportFailed => return Threw(RequestError);
        case HttpError => return Threw(RequestError);
        case NotJson => return Threw(PublishError(PlatformResponse, "{}"));
        case Answered(result) =>
          if allowTokenRetry && HasMarker(result.dump, TOKEN_MARKERS) {
            r := PostMtop(second, second, false);
            return;
          }
          return Got(result);
      }
    }

    /** `execute`: validate, post, classify. */
    method Execute(action: Action, fieldsPresent: bool, first: Attempt, second: Attempt) returns (v: Verdict)
      modifies this
      ensures v == VerdictOf(action, fieldsPresent, first, second)
      ensures sent == old(sent) + if fieldsPresent then Requests(first, second) else []
    {
      if !fieldsPresent {
        return Rejected;
      }
      var reply := PostMtop(first, second, true);
      if reply.Got? {
        var checked := EnsureSuccess(reply.answer);
        if checked.Got? {
          return Done(false);
        }
        reply := checked;
      }
      v := FromException(action, reply.raised);
    }
  }

  function EnsureSuccess(a: Answer): Reply {
    if IsSuccess(a) then Got(a)
    else if a.NotAnObject? then Threw(OtherError)
    else if Contains(ErrorMessage(a), CATEGORY_ERROR) then Threw(PublishError(Category, a.dump))
    else if HasMarker(a.dump, RISK_MARKERS) then Threw(PublishError(RiskControl, a.dump))
    else if HasMarker(a.dump, TOKEN_MARKERS) then Threw(PublishError(Auth, a.dump))
    else Threw(PublishError(PlatformRejected, a.dump))
  }

  function FromPublishError(kind: Kind): Verdict {
    if kind in {Auth, PlatformRejected, RiskControl} then Rejected else ResultUnknown
  }

  /** The handlers around the post. */
  function FromException(action: Action, raised: Raised): Verdict {
    match raised
    case PublishError(kind, raw) =>
      if IsShipping(action) && HasMarker(raw, DELIVERED_MARKERS) then Done(true) else FromPublishError(kind)
    case RequestError => ResultUnknown
    case OtherError => Broken
  }

  /** The verdict as a function of what the two passes met. */
  function VerdictOf(action: Action, fieldsPresent: bool, first: Attempt, second: Attempt): Verdict {
    if !fieldsPresent then Rejected
    else
      var reply := ReplyTo(LastAttempt(first, second));
      var checked := if reply.Got? then EnsureSuccess(reply.answer) else reply;
      if checked.Got? then Done(false) else FromException(action, checked.raised)
  }

  /** A parsed object that is not a success. */
  ghost predicate Refusal(t: Attempt) {
    t.Answered? && t.answer.Object? && !IsSuccess(t.answer)
  }

  lemma NoMarkerInEmptyDump()
    ensures !HasMarker("{}", DELIVERED_MARKERS)
  {
    forall k | 0 <= k < |DELIVERED_MARKERS| ensures !Contains("{}", DELIVERED_MARKERS[k]) {
      assert |DELIVERED_MARKERS[k]| > 2;
    }
  }

  /** A success verdict is reported exactly for a success answer, or, when shipping, for a
      refusal that says the order was already delivered. */
  lemma DoneExactly(action: Action, fieldsPresent: bool, first: Attempt, second: Attempt)
    ensures
      var last := LastAttempt(first, second);
      VerdictOf(action, fieldsPresent, first, second).Done? <==>
        && fieldsPresent && last.Answered?
        && (IsSuccess(last.answer)
            || (Refusal(last) && IsShipping(action) && HasMarker(last.answer.dump, DELIVERED_MARKERS)))
  {
    NoMarkerInEmptyDump();
  }

  /** A parsed refusal that settles the write: neither a category error nor, when shipping, an
      already-delivered notice. */
  ghost predicate Decides(action: Action, t: Attempt) {
    && Refusal(t)
    && !Contains(ErrorMessage(t.answer), CATEGORY_ERROR)
    && !(IsShipping(action) && HasMarker(t.answer.dump, DELIVERED_MARKERS))
  }

  /** A rejection is reported exactly when validation failed, when the token cookie was
      missing before a pass, or when the platform answered with a deciding refusal. */
  lemma RejectedExactly(action: Action, fieldsPresent: bool, first: Attempt, second: Attempt)
    ensures
      var last := LastAttempt(first, second);
      VerdictOf(action, fieldsPresent, first, second).Rejected? <==>
        !fieldsPresent || last.MissingToken? || Decides(action, last)
  {
    NoMarkerInEmptyDump();
  }

  /** A rejection never hides a lost answer: every request that went out was answered with
      parsed JSON, and either none went out or the final one was refused or announced a
      retry that could not be signed. */
  lemma RejectedIsTruthful(action: Action, fieldsPresent: bool, first: Attempt, second: Attempt)
    requires VerdictOf(action, fieldsPresent, first, second).Rejected?
    ensures
      var out := if fieldsPresent then Requests(first, second) else [];
      && (forall t :: t in out ==> t.Answered?)
      && (out == [] || Refusal(out[|out| - 1]) || (Retries(first) && second.MissingToken?))
  {
    RejectedExactly(action, fieldsPresent, first, second);
  }

  /** An unanswered, failed or unreadable final request is never reported as decided. */
  lemma LostAnswerIsUndecided(action: Action, first: Attempt, second: Attempt)
    requires
      var last := LastAttempt(first, second);
      last.TransportFailed? || last.HttpError? || last.NotJson? || (last.Answered? && last.answer.NotAnObject?)
    ensures
      var v := VerdictOf(action, true, first, second);
      v.ResultUnknown? || v.Broken?
  {
    DoneExactly(action, true, first, second);
    RejectedExactly(action, true, first, second);
  }

  /** The platform accepted one of the requests that went out. */
  ghost predicate Accepted(fieldsPresent: bool, first: Attempt, second: Attempt) {
    fieldsPresent && exists t :: t in Requests(first, second) && t.Answered? && IsSuccess(t.answer)
  }

  /** The retry looks at the marker only, so a first success that mentions a marker is posted
      again. A write the platform accepted is reported as rejected exactly when that happens
      and the second pass finds no token or is refused for good. */
  lemma RejectionHidesSuccessExactly(action: Action, fieldsPresent: bool, first: Attempt, second: Attempt)
    ensures
      (VerdictOf(action, fieldsPresent, first, second).Rejected? && Accepted(fieldsPresent, first, second)) <==>
        && fieldsPresent && Retries(first) && IsSuccess(first.answer)
        && (second.MissingToken? || Decides(action, second))
  {
    RejectedExactly(action, fieldsPresent, first, second);
    if fieldsPresent && Retries(first) && IsSuccess(first.answer) {
      assert Requests(first, second)[0] == first;
    }
  }

  // ----- the verdicts in the platform's own words -----

  /** The text has this part somewhere in it. */
  ghost predicate Mentions(text: string, part: string) {
    exists before, after :: text == before + part + after
  }

  lemma ContainsIsMention(text: string, part: string)
    ensures Contains(text, part) <==> Mentions(text, part)
  {
    if i :| 0 <= i <= |text| && part <= text[i..] {
      assert text == text[..i] + part + text[i + |part|..];
    }
    if before, after :| text == before + part + after { ContainsMiddle(before, part, after); }
  }

  ghost predicate SaysSuccess(a: Answer) {
    && a.Object? && a.ret.List?
    && exists k :: 0 <= k < |a.ret.entries| && |a.ret.entries[k]| >= 9 && a.ret.entries[k][..9] == "SUCCESS::"
  }

  ghost predicate SaysTokenExpired(text: string) {
    || Mentions(text, "FAIL_SYS_TOKEN_EXOIRED") || Mentions(text, "FAIL_SYS_TOKEN_EXPIRED")
    || Mentions(text, "FAIL_SYS_ILLEGAL_ACCESS") || Mentions(text, "FAIL_SYS_SESSION_EXPIRED")
  }

  ghost predicate SaysRisk(text: string) {
    Mentions(text, "RGV587") || Mentions(text, "RISK") || Mentions(text, "CAPTCHA") || Mentions(text, "VALIDATE")
  }

  ghost predicate SaysDelivered(text: string) {
    Mentions(text, "ORDER_ALREADY_DELIVERY") || Mentions(text, "\U{5DF2}\U{53D1}\U{8D27}\U{6210}\U{529F}")
  }

  /** The first entry of the ret list, or the message fields, name an unusable category. */
  ghost predicate SaysCategory(a: Answer)
    requires a.Object?
  {
    Mentions(if a.ret.List? && |a.ret.entries| > 0 then a.ret.entries[0] else a.fallback,
             "FAIL_BIZ_CHANNEL_CAT_ID_PATH_QUERY_ERROR")
  }

  lemma SuccessIsSaid(a: Answer)
    ensures IsSuccess(a) <==> SaysSuccess(a)
  {
    if a.Object? && a.ret.List? {
      forall k | 0 <= k < |a.ret.entries|
        ensures SUCCESS_PREFIX <= a.ret.entries[k] <==> |a.ret.entries[k]| >= 9 && a.ret.entries[k][..9] == "SUCCESS::"
      {
      }
    }
  }

  lemma MarkersAre(text: string, markers: seq<string>)
    ensures HasMarker(text, markers) <==> exists k :: 0 <= k < |markers| && Mentions(text, markers[k])
  {
    forall k | 0 <= k < |markers| ensures Contains(text, markers[k]) <==> Mentions(text, markers[k]) {
      ContainsIsMention(text, markers[k]);
    }
  }

  lemma TokenMarkersAre(text: string)
    ensures HasMarker(text, TOKEN_MARKERS) <==> SaysTokenExpired(text)
  {
    MarkersAre(text, TOKEN_MARKERS);
    assert Mentions(text, TOKEN_MARKERS[0]) <==> Mentions(text, "FAIL_SYS_TOKEN_EXOIRED");
    assert Mentions(text, TOKEN_MARKERS[1]) <==> Mentions(text, "FAIL_SYS_TOKEN_EXPIRED");
    assert Mentions(text, TOKEN_MARKERS[2]) <==> Mentions(text, "FAIL_SYS_ILLEGAL_ACCESS");
    assert Mentions(text, TOKEN_MARKERS[3]) <==> Mentions(text, "FAIL_SYS_SESSION_EXPIRED");
  }

  lemma RiskMarkersAre(text: string)
    ensures HasMarker(text, RISK_MARKERS) <==> SaysRisk(text)
  {
    MarkersAre(text, RISK_MARKERS);
    assert Mentions(text, RISK_MARKERS[0]) <==> Mentions(text, "RGV587");
    assert Mentions(text, RISK_MARKERS[1]) <==> Mentions(text, "RISK");
    assert Mentions(text, RISK_MARKERS[2]) <==> Mentions(text, "CAPTCHA");
    assert Mentions(text, RISK_MARKERS[3]) <==> Mentions(text, "VALIDATE");
  }

  lemma DeliveredMarkersAre(text: string)
    ensures HasMarker(text, DELIVERED_MARKERS) <==> SaysDelivered(text)
  {
    MarkersAre(text, DELIVERED_MARKERS);
    assert Mentions(text, DELIVERED_MARKERS[0]) <==> Mentions(text, "ORDER_ALREADY_DELIVERY");
    assert Mentions(text, DELIVERED_MARKERS[1]) <==> Mentions(text, "\U{5DF2}\U{53D1}\U{8D27}\U{6210}\U{529F}");
  }

  lemma CategoryIsSaid(a: Answer)
    requires a.Object?
    ensures Contains(ErrorMessage(a), CATEGORY_ERROR) <==> SaysCategory(a)
  {
    ContainsIsMention(ErrorMessage(a), CATEGORY_ERROR);
  }

  /** The kind of error a refusal raises. */
  lemma RefusalKindByText(a: Answer)
    requires a.Object? && !SaysSuccess(a)
    ensures
      EnsureSuccess(a) == Threw(PublishError(
        if SaysCategory(a) then Category
        else if SaysRisk(a.dump) then RiskControl
        else if SaysTokenExpired(a.dump) then Auth
        else PlatformRejected, a.dump))
  {
    SuccessIsSaid(a);
    CategoryIsSaid(a);
    RiskMarkersAre(a.dump);
    TokenMarkersAre(a.dump);
  }

  /** The pass whose answer counts, and the requests that went out, by the text of the answers. */
  ghost function DecidingPass(first: Attempt, second: Attempt): Attempt {
    if first.Answered? && SaysTokenExpired(first.answer.dump) then second else first
  }

  lemma RetryByText(first: Attempt, second: Attempt)
    ensures LastAttempt(first, second) == DecidingPass(first, second)
    ensures
      var sent := Requests(first, second);
      && (|sent| == 0 <==> first.MissingToken? || first.SigningFailed?)
      && (|sent| > 0 ==> sent[0] == first)
      && (|sent| == 2 <==>
            && first.Answered? && SaysTokenExpired(first.answer.dump)
            && !second.MissingToken? && !second.SigningFailed?)
      && (|sent| == 2 ==> sent[1] == second) && |sent| <= 2
  {
    if first.Answered? { TokenMarkersAre(first.answer.dump); }
  }

  ghost predicate RefusedInText(t: Attempt) {
    t.Answered? && t.answer.Object? && !SaysSuccess(t.answer)
  }

  ghost predicate NoticedAsDelivered(action: Action, t: Attempt) {
    RefusedInText(t) && action in {ConfirmShipping, OfflineShipping, FreeShipping} && SaysDelivered(t.answer.dump)
  }

  /** Every verdict, by what the deciding pass met and the words of its answer. */
  lemma VerdictByText(action: Action, fieldsPresent: bool, first: Attempt, second: Attempt)
    ensures
      var t, v := DecidingPass(first, second), VerdictOf(action, fieldsPresent, first, second);
      && (v == Done(false) <==> fieldsPresent && t.Answered? && SaysSuccess(t.answer))
      && (v == Done(true) <==> fieldsPresent && NoticedAsDelivered(action, t))
      && (v.Rejected? <==>
            || !fieldsPresent || t.MissingToken?
            || (RefusedInText(t) && !SaysCategory(t.answer) && !NoticedAsDelivered(action, t)))
      && (v.ResultUnknown? <==>
            && fieldsPresent
            && (|| t.TransportFailed? || t.HttpError? || t.NotJson?
                || (RefusedInText(t) && SaysCategory(t.answer) && !NoticedAsDelivered(action, t))))
      && (v.Broken? <==> fieldsPresent && (t.SigningFailed? || (t.Answered? && t.answer.NotAnObject?)))
  {
    var t := DecidingPass(first, second);
    RetryByText(first, second);
    NoMarkerInEmptyDump();
    if t.Answered? {
      SuccessIsSaid(t.answer);
      DeliveredMarkersAre(t.answer.dump);
      if t.answer.Object? && !SaysSuccess(t.answer) { RefusalKindByText(t.answer); }
    }
  }

  lemma ContainsMiddle(before: string, part: string, after: string)
    ensures Contains(before + part + after, part)
  {
    var text := before + part + after;
    assert text[|before|..] == part + after;
    assert part <= text[|before|..];
  }

  lemma ShortTextLacks(text: string, part: string)
    requires |text| < |part|
    ensures !Contains(text, part)
  {
  }

  /** Two answers as the platform may send them, each with the text of its own body: the first
      accepts the write and mentions an expired token elsewhere, the second refuses it. */
  lemma RejectionCanHideSuccess() returns (first: Attempt, second: Attempt)
    ensures first.Answered? && first.answer.Object? && first.answer.ret == List(["SUCCESS::OK"])
    ensures first.answer.dump ==
      "{\"RET\": [\"SUCCESS::OK\"], \"DATA\": {\"TRACE\": \"" + "FAIL_SYS_TOKEN_EXPIRED" + "\"}}"
    ensures second == Answered(Object(List(["ORDER_CLOSED"]), "", "{\"RET\": [\"ORDER_CLOSED\"]}"))
    ensures VerdictOf(CloseOrder, true, first, second).Rejected? && Accepted(true, first, second)
  {
    var opening := "{\"RET\": [\"SUCCESS::OK\"], \"DATA\": {\"TRACE\": \"";
    var dump := opening + TOKEN_MARKERS[1] + "\"}}";
    first := Answered(Object(List(["SUCCESS::OK"]), "", dump));
    second := Answered(Object(List(["ORDER_CLOSED"]), "", "{\"RET\": [\"ORDER_CLOSED\"]}"));
    ContainsMiddle(opening, TOKEN_MARKERS[1], "\"}}");
    assert "SUCCESS::OK"[..9] == SUCCESS_PREFIX;
    assert SUCCESS_PREFIX <= first.answer.ret.entries[0];
    assert second.answer.ret.entries[0][0] == 'O' && SUCCESS_PREFIX[0] == 'S';
    ShortTextLacks("ORDER_CLOSED", CATEGORY_ERROR);
    RejectionHidesSuccessExactly(CloseOrder, true, first, second);
  }
}
