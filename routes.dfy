/**
  The server-side proxy handlers for transfer, status and validate
  (app/api/moolre/{transfer,status,validate}/route.ts). Each checks the
  configuration, reads the posted body, builds the gateway payload and returns
  the gateway's JSON unchanged. `J` is whatever JSON the gateway answered.
 */
module Routes {
  import opened Wrappers
  import opened Text
  import opened Js
  import opened Gateway

  /** A handler's answer: an HTTP status code and either the gateway's JSON or `{success: false, error}`. */
  datatype HttpReply<J> = HttpReply(code: int, body: RouteBody<J>)
  datatype RouteBody<J> = Forwarded(data: J) | Failed(error: string)

  function ConfigMissingReply<J>(): HttpReply<J> {
    HttpReply(500, Failed(CONFIG_MISSING_ERROR))
  }

  /**
    The common tail of the three handlers: read the body (which may throw), build
    the payload, send it (which may throw) and forward the answer.
   */
  function Forward<B, P, J>(cfg: Config, body: Outcome<B>, build: B -> P, upstream: Outcome<J>)
    : (r: Exchange<P, HttpReply<J>>)
    ensures !Configured(cfg) ==> r == Exchange(None, ConfigMissingReply())
    ensures Configured(cfg) && body.Thrown? ==>
      r == Exchange(None, HttpReply(500, Failed(ThrownText(body.reason))))
    ensures Configured(cfg) && body.Received? ==> r.sent == Some(build(body.value))
    ensures Configured(cfg) && body.Received? && upstream.Received? ==>
      r.reply == HttpReply(200, Forwarded(upstream.value))
    ensures Configured(cfg) && body.Received? && upstream.Thrown? ==>
      r.reply == HttpReply(500, Failed(ThrownText(upstream.reason)))
  {
    if !Configured(cfg) then Exchange(None, ConfigMissingReply())
    else match body
      case Thrown(reason) => Exchange(None, HttpReply(500, Failed(ThrownText(reason))))
      case Received(b) =>
        var reply := match upstream
          case Received(data) => HttpReply(200, Forwarded(data))
          case Thrown(reason) => HttpReply(500, Failed(ThrownText(reason)));
        Exchange(Some(build(b)), reply)
  }

  // ---------------------------------------------------------------- transfer

  datatype TransferPayload = TransferPayload(
    apiType: int, channel: string, currency: string, receiver: string, amount: string,
    externalref: string, reference: string, accountnumber: string, sublistid: string)

  /**
    The body sent to `/open/transact/transfer`. `now` is `Date.now()` and
    `formatAmount` is `parseFloat(amount).toFixed(2)`.
   */
  function TransferPayloadFor(cfg: Config, body: TransferRequest, now: nat, formatAmount: string -> string)
    : (p: TransferPayload)
    ensures p.apiType == 1 && p.channel == IntToString(body.channel)
    ensures p.receiver == body.accountNumber && p.currency == body.currency
    ensures p.accountnumber == cfg.accountNumber && p.amount == formatAmount(body.amount)
    ensures p.sublistid == (if body.channel == BANK && body.bankCode != "" then body.bankCode else "")
    ensures p.externalref == (if body.externalRef != "" then body.externalRef else GeneratedRef(now))
    ensures p.reference == OrElse(body.description, body.reference)
  {
    TransferPayload(
      1, IntToString(body.channel), body.currency, body.accountNumber, formatAmount(body.amount),
      OrElse(body.externalRef, GeneratedRef(now)),
      OrElse(body.description, OrElse(body.reference, "")),
      cfg.accountNumber,
      if body.channel == 2 && body.bankCode != "" then body.bankCode else "")
  }

  /** `POST /api/moolre/transfer` */
  function TransferPost<J>(cfg: Config, body: Outcome<TransferRequest>, now: nat,
                           formatAmount: string -> string, upstream: Outcome<J>)
    : (r: Exchange<TransferPayload, HttpReply<J>>)
    ensures !Configured(cfg) ==> r.sent == None && r.reply.code == 500
    ensures r.sent.Some? ==> body.Received? && r.sent.value == TransferPayloadFor(cfg, body.value, now, formatAmount)
    ensures r.reply.body.Forwarded? <==> Configured(cfg) && body.Received? && upstream.Received?
    ensures r.reply.body.Forwarded? ==> r.reply.body.data == upstream.value
  {
    Forward(cfg, body, (b: TransferRequest) => TransferPayloadFor(cfg, b, now, formatAmount), upstream)
  }

  /** Only a bank transfer with a bank code carries a non-empty `sublistid`. */
  lemma SublistIdOnlyForBank(cfg: Config, body: TransferRequest, now: nat, formatAmount: string -> string)
    ensures TransferPayloadFor(cfg, body, now, formatAmount).sublistid != "" <==>
      body.channel == BANK && body.bankCode != ""
    ensures body.channel != BANK ==> TransferPayloadFor(cfg, body, now, formatAmount).sublistid == ""
  {
  }

  /** The description wins over the reference when both are given. */
  lemma DescriptionTakesPrecedence(cfg: Config, body: TransferRequest, now: nat, formatAmount: string -> string)
    requires body.description != ""
    ensures TransferPayloadFor(cfg, body, now, formatAmount).reference == body.description
  {
  }

  /** A missing configuration answers 500 whatever was posted and whatever the gateway would say. */
  lemma TransferConfigCheckedFirst<J>(cfg: Config, b1: Outcome<TransferRequest>, b2: Outcome<TransferRequest>,
                                      now: nat, formatAmount: string -> string, u1: Outcome<J>, u2: Outcome<J>)
    requires !Configured(cfg)
    ensures TransferPost(cfg, b1, now, formatAmount, u1) == TransferPost(cfg, b2, now, formatAmount, u2)
  {
  }

  // ---------------------------------------------------------------- status

  /** The posted status body: `{transactionId, idType}`. */
  datatype StatusBody = StatusBody(transactionId: string, idType: string)

  /** The `id` sent upstream: a number for parseable transaction ids, else the string. */
  datatype StatusId = IdNum(n: int) | IdStr(s: string)

  datatype StatusPayload = StatusPayload(apiType: int, idtype: int, id: StatusId, accountnumber: string)

  /** `idType === 'transaction' ? parseInt(transactionId) || transactionId : transactionId` */
  function StatusIdFor(body: StatusBody): (id: StatusId)
    ensures body.idType != "transaction" ==> id == IdStr(body.transactionId)
    ensures body.idType == "transaction" ==>
      match ParseInt(body.transactionId)
      case Some(n) => id == (if n != 0 then IdNum(n) else IdStr(body.transactionId))
      case None => id == IdStr(body.transactionId)
  {
    if body.idType == "transaction" then
      match ParseInt(body.transactionId)
      case Some(n) => if n != 0 then IdNum(n) else IdStr(body.transactionId)
      case None => IdStr(body.transactionId)
    else IdStr(body.transactionId)
  }

  function StatusPayloadFor(cfg: Config, body: StatusBody): (p: StatusPayload)
    ensures p.apiType == 1 && p.accountnumber == cfg.accountNumber
    ensures p.idtype == (if body.idType == "transaction" then 2 else 1)
    ensures p.id == StatusIdFor(body)
  {
    StatusPayload(1, if body.idType == "transaction" then 2 else 1, StatusIdFor(body), cfg.accountNumber)
  }

  /** `POST /api/moolre/status` */
  function StatusPost<J>(cfg: Config, body: Outcome<StatusBody>, upstream: Outcome<J>)
    : (r: Exchange<StatusPayload, HttpReply<J>>)
    ensures !Configured(cfg) ==> r.sent == None && r.reply.code == 500
    ensures r.sent.Some? ==> body.Received? && r.sent.value == StatusPayloadFor(cfg, body.value)
    ensures r.reply.body.Forwarded? <==> Configured(cfg) && body.Received? && upstream.Received?
    ensures r.reply.body.Forwarded? ==> r.reply.body.data == upstream.value
  {
    Forward(cfg, body, (b: StatusBody) => StatusPayloadFor(cfg, b), upstream)
  }

  /** A transaction id the client obtained as a number goes back upstream as that number. */
  lemma NumericTransactionIdSentAsNumber(cfg: Config, n: int)
    requires n != 0
    ensures StatusPayloadFor(cfg, StatusBody(IntToString(n), "transaction")) ==
      StatusPayload(1, 2, IdNum(n), cfg.accountNumber)
  {
    ParseIntOfIntToString(n);
  }

  /** The id "0" parses to 0, which is falsy, so the string itself is sent. */
  lemma ZeroTransactionIdSentAsString(cfg: Config)
    ensures StatusPayloadFor(cfg, StatusBody("0", "transaction")).id == IdStr("0")
  {
    ParseIntOfIntToString(0);
    assert IntToString(0) == "0";
  }

  /** An external reference is never converted, even when it looks numeric. */
  lemma ExternalReferenceSentVerbatim(cfg: Config, id: string)
    ensures StatusPayloadFor(cfg, StatusBody(id, IdKindName(ByExternal))) ==
      StatusPayload(1, 1, IdStr(id), cfg.accountNumber)
  {
  }

  // ---------------------------------------------------------------- validate

  /** `sublistid` is None when the key is absent from the payload. */
  datatype ValidatePayload = ValidatePayload(
    apiType: int, receiver: string, channel: string, currency: string,
    accountnumber: string, sublistid: Option<string>)

  function ValidatePayloadFor(cfg: Config, body: NameValidationRequest): (p: ValidatePayload)
    ensures p.apiType == 1 && p.receiver == body.accountNumber
    ensures p.channel == IntToString(body.channel) && p.currency == body.currency
    ensures p.accountnumber == cfg.accountNumber
    ensures p.sublistid.Some? <==> body.channel == BANK && body.bankCode != ""
    ensures p.sublistid.Some? ==> p.sublistid.value == body.bankCode
  {
    ValidatePayload(1, body.accountNumber, IntToString(body.channel), body.currency, cfg.accountNumber,
                    if body.channel == 2 && body.bankCode != "" then Some(body.bankCode) else None)
  }

  /** `POST /api/moolre/validate` */
  function ValidatePost<J>(cfg: Config, body: Outcome<NameValidationRequest>, upstream: Outcome<J>)
    : (r: Exchange<ValidatePayload, HttpReply<J>>)
    ensures !Configured(cfg) ==> r.sent == None && r.reply.code == 500
    ensures r.sent.Some? ==> body.Received? && r.sent.value == ValidatePayloadFor(cfg, body.value)
    ensures r.reply.body.Forwarded? <==> Configured(cfg) && body.Received? && upstream.Received?
    ensures r.reply.body.Forwarded? ==> r.reply.body.data == upstream.value
  {
    Forward(cfg, body, (b: NameValidationRequest) => ValidatePayloadFor(cfg, b), upstream)
  }

  /** Transfer and validation agree on when the bank code travels, but differ in how it is absent. */
  lemma BankCodeRuleShared(cfg: Config, t: TransferRequest, now: nat, formatAmount: string -> string)
    ensures var v := ValidatePayloadFor(cfg, NameValidationRequest(t.accountNumber, t.bankCode, t.channel, t.currency));
      var p := TransferPayloadFor(cfg, t, now, formatAmount);
      (v.sublistid.Some? <==> p.sublistid != "")
      && (v.sublistid.None? ==> p.sublistid == "")
      && (v.sublistid.Some? ==> v.sublistid.value == p.sublistid)
  {
  }

  // ---------------------------------------------------------------- client and proxy together

  /**
    The client's status call feeds the proxy: a query by transaction id whose id is
    a printed non-zero number is sent upstream with `idtype` 2 and that number.
   */
  lemma ClientQueryReachesGateway<J>(cfg: Config, n: int, upstream: Outcome<J>)
    requires Configured(cfg) && n != 0
    ensures var q := StatusQuery(IntToString(n), ByTransaction);
      StatusPost(cfg, Received(StatusBody(q.transactionId, IdKindName(q.idType))), upstream).sent
        == Some(StatusPayload(1, 2, IdNum(n), cfg.accountNumber))
  {
    NumericTransactionIdSentAsNumber(cfg, n);
  }
}
