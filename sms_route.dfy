/**
  The SMS proxy handler (app/api/moolre/sms/route.ts): it accepts either one
  `recipient`/`message` pair or a `messages` array, strips whitespace from every
  recipient, picks a sender id, sends one bulk request and normalises the
  gateway's answer, which may be JSON with a string or numeric `status`, or an
  HTML error page.
 */
module SmsRoute {
  import opened Wrappers
  import opened Text
  import opened Js

  datatype SmsEntry = SmsEntry(recipient: string, message: string)

  /** The posted body; `messages` is None unless it is an array. */
  datatype SmsBody = SmsBody(recipient: string, message: string, senderId: string, messages: Option<seq<SmsEntry>>)

  /** `SMS_API_KEY` and the configured `DEFAULT_SENDER_ID` ("" when unset). */
  datatype SmsConfig = SmsConfig(apiKey: string, senderId: string)

  datatype SmsPayload = SmsPayload(apiType: int, senderid: string, messages: seq<SmsEntry>)

  /** The parts of the gateway's JSON the handler reads. */
  datatype SmsJson = SmsJson(status: JsValue, message: Message)

  /** The gateway's HTTP answer: its status code, raw text, and `JSON.parse(text)` when that succeeds. */
  datatype SmsUpstream = SmsUpstream(httpStatus: int, text: string, parsed: Option<SmsJson>)

  datatype SmsResponse =
    | SmsFailure(code: int, error: string)
    | SmsNonJson(code: int, error: string, status: int)
    | SmsAccepted(data: SmsJson)
    | SmsRejected(code: int, reason: Message, data: SmsJson)

  const SMS_CONFIG_MISSING: string := "SMS API configuration missing. Please check environment variables."
  const SMS_BODY_REQUIRED: string := "Either (recipient and message) or messages array is required"
  const NON_JSON_PREFIX: string := "API returned non-JSON response: "

  /** `process.env.NEXT_PUBLIC_MOORLE_SMS_SENDER_ID || 'Moolre'` */
  function DefaultSenderId(cfg: SmsConfig): (id: string)
    ensures id != ""
  {
    OrElse(cfg.senderId, "Moolre")
  }

  /** Every recipient with its whitespace removed; the message texts untouched. */
  function StripRecipients(entries: seq<SmsEntry>): (r: seq<SmsEntry>)
    ensures |r| == |entries|
    ensures forall i :: 0 <= i < |r| ==>
      r[i].recipient == RemoveWhitespace(entries[i].recipient) && r[i].message == entries[i].message
  {
    seq(|entries|, i requires 0 <= i < |entries| => SmsEntry(RemoveWhitespace(entries[i].recipient), entries[i].message))
  }

  /** `messagesArray`, or None when neither form was supplied. */
  function MessagesFor(body: SmsBody): (r: Option<seq<SmsEntry>>)
    ensures body.messages.Some? ==> r == Some(StripRecipients(body.messages.value))
    ensures body.messages.None? && body.recipient != "" && body.message != "" ==>
      r == Some([SmsEntry(RemoveWhitespace(body.recipient), body.message)])
    ensures r.None? <==> body.messages.None? && (body.recipient == "" || body.message == "")
  {
    if body.messages.Some? then Some(StripRecipients(body.messages.value))
    else if body.recipient != "" && body.message != "" then
      Some([SmsEntry(RemoveWhitespace(body.recipient), body.message)])
    else None
  }

  /** `(senderId && senderId.trim()) ? senderId.trim() : DEFAULT_SENDER_ID` */
  function SenderIdFor(cfg: SmsConfig, body: SmsBody): (id: string)
    ensures Trim(body.senderId) != "" ==> id == Trim(body.senderId)
    ensures Trim(body.senderId) == "" ==> id == DefaultSenderId(cfg)
    ensures id != ""
  {
    if Trim(body.senderId) != "" then Trim(body.senderId) else DefaultSenderId(cfg)
  }

  /** `typeof status === 'string' ? parseInt(status) : status`, with None for NaN and non-numbers. */
  function NormalizeStatus(v: JsValue): (r: Option<int>)
    ensures v.Num? ==> r == Some(v.n)
    ensures v.Str? ==> r == ParseInt(v.s)
    ensures v.Undefined? || v.Null? ==> r == None
  {
    match v
    case Num(n) => Some(n)
    case Str(s) => ParseInt(s)
    case _ => None
  }

  function NonJsonError(text: string): (e: string)
    ensures |e| == |NON_JSON_PREFIX| + (if |text| < 200 then |text| else 200)
    ensures e[..|NON_JSON_PREFIX|] == NON_JSON_PREFIX && e[|NON_JSON_PREFIX|..] <= text
  {
    NON_JSON_PREFIX + Prefix(text, 200)
  }

  /** `response.status || 500` */
  function CodeOr500(status: int): int {
    if status != 0 then status else 500
  }

  /** `POST /api/moolre/sms` */
  function SmsPost(cfg: SmsConfig, body: Outcome<SmsBody>, upstream: Outcome<SmsUpstream>)
    : (r: Exchange<SmsPayload, SmsResponse>)
    ensures cfg.apiKey == "" ==> r == Exchange(None, SmsFailure(500, SMS_CONFIG_MISSING))
    ensures cfg.apiKey != "" && body.Received? && MessagesFor(body.value).None? ==>
      r == Exchange(None, SmsFailure(400, SMS_BODY_REQUIRED))
    ensures r.sent.Some? <==> cfg.apiKey != "" && body.Received? && MessagesFor(body.value).Some?
    ensures r.sent.Some? ==>
      r.sent.value == SmsPayload(1, SenderIdFor(cfg, body.value), MessagesFor(body.value).value)
    ensures r.reply.SmsAccepted? <==>
      && r.sent.Some? && upstream.Received? && upstream.value.parsed.Some?
      && NormalizeStatus(upstream.value.parsed.value.status) == Some(1)
    ensures r.sent.Some? && upstream.Received? && upstream.value.parsed.None? ==>
      r.reply == SmsNonJson(CodeOr500(upstream.value.httpStatus), NonJsonError(upstream.value.text),
                            upstream.value.httpStatus)
    ensures r.reply.SmsRejected? ==> r.reply.reason == r.reply.data.message.Or("Failed to send SMS")
    ensures cfg.apiKey != "" && body.Thrown? ==> r == Exchange(None, SmsFailure(500, ThrownText(body.reason)))
    ensures r.sent.Some? && upstream.Thrown? ==> r.reply == SmsFailure(500, ThrownText(upstream.reason))
    ensures r.sent.Some? && upstream.Received? && upstream.value.parsed.Some? ==>
      var u := upstream.value;
      var d := u.parsed.value;
      r.reply == (if NormalizeStatus(d.status) == Some(1) then SmsAccepted(d)
                  else SmsRejected(CodeOr500(u.httpStatus), d.message.Or("Failed to send SMS"), d))
  {
    if cfg.apiKey == "" then Exchange(None, SmsFailure(500, SMS_CONFIG_MISSING))
    else match body
      case Thrown(reason) => Exchange(None, SmsFailure(500, ThrownText(reason)))
      case Received(b) =>
        match MessagesFor(b)
        case None => Exchange(None, SmsFailure(400, SMS_BODY_REQUIRED))
        case Some(entries) =>
          var payload := SmsPayload(1, SenderIdFor(cfg, b), entries);
          var reply := match upstream
            case Thrown(reason) => SmsFailure(500, ThrownText(reason))
            case Received(u) =>
              match u.parsed
              case None => SmsNonJson(CodeOr500(u.httpStatus), NonJsonError(u.text), u.httpStatus)
              case Some(data) =>
                if NormalizeStatus(data.status) == Some(1) then SmsAccepted(data)
                else SmsRejected(CodeOr500(u.httpStatus), data.message.Or("Failed to send SMS"), data);
          Exchange(Some(payload), reply)
  }

  // ---------------------------------------------------------------- properties

  /** The numeric and the printed form of every status normalise identically. */
  lemma StatusFormsAgree(n: int)
    ensures NormalizeStatus(Str(IntToString(n))) == NormalizeStatus(Num(n))
    ensures NormalizeStatus(Str(IntToString(n))) == Some(1) <==> n == 1
  {
    ParseIntOfIntToString(n);
  }

  /** `parseInt` is lenient: leading blanks are skipped ... */
  lemma PaddedStatusAccepted()
    ensures NormalizeStatus(Str(" 1")) == Some(1)
  {
    var padded := " 1";
    assert padded[0] == ' ' && padded[1..] == "1";
    assert IsWhitespace(padded[0]);
    TrimStartOfClean("1");
    assert TrimStart(padded) == "1";
    LeadingDigitsOfDigits("1");
    assert DigitsValue("1") == 1;
  }

  /** ... and so is anything after the digits ... */
  lemma TrailingTextIgnored()
    ensures NormalizeStatus(Str("1ok")) == Some(1)
  {
    assert "1" + "ok" == "1ok";
    ParseIntIgnoresTail("1", "ok");
    assert DigitsValue("1") == 1;
    assert ParseInt("1ok") == Some(1);
  }

  /** ... but a status without digits is NaN and never accepted. */
  lemma WordStatusRejected()
    ensures NormalizeStatus(Str("ok")) == None
  {
    TrimStartOfClean("ok");
    assert SignlessPart("ok") == "ok";
    assert LeadingDigits("ok") == [];
  }

  /** An array wins over the single pair; every entry keeps its place and text, with a clean recipient. */
  lemma BulkKeepsOrderAndText(body: SmsBody)
    requires body.messages.Some?
    ensures var r := MessagesFor(body);
      && r.Some? && |r.value| == |body.messages.value|
      && (forall i :: 0 <= i < |r.value| ==> r.value[i].message == body.messages.value[i].message)
      && (forall i :: 0 <= i < |r.value| ==> HasNoWhitespace(r.value[i].recipient))
  {
  }

  /** Sending touches no recipient twice: stripping twice is stripping once. */
  lemma StripRecipientsIdempotent(entries: seq<SmsEntry>)
    ensures StripRecipients(StripRecipients(entries)) == StripRecipients(entries)
  {
    var once := StripRecipients(entries);
    forall i | 0 <= i < |once|
      ensures StripRecipients(once)[i] == once[i]
    {
      RemoveWhitespaceIdempotent(entries[i].recipient);
    }
  }

  /** A blank sender id falls back to the default; padding around a real one is dropped. */
  lemma SenderIdTrimmed(cfg: SmsConfig, body: SmsBody, w: string)
    requires forall i :: 0 <= i < |w| ==> IsWhitespace(w[i])
    requires Trim(body.senderId) != ""
    ensures SenderIdFor(cfg, body.(senderId := w + body.senderId)) == SenderIdFor(cfg, body)
  {
    TrimIgnoresLeadingWhitespace(w, body.senderId);
  }
}
