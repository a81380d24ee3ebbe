/**
  The browser-side gateway client (lib/moolre-api.ts): three calls, each a
  configuration guard followed by one mapping from the JSON the local proxy
  answered to a result record. The HTTP exchange itself is an input: `reply` is
  what `await response.json()` produced, or the exception the `try` caught.
 */
module Gateway {
  import opened Wrappers
  import opened Js

  /** Channel codes of the gateway. */
  const MTN: int := 1
  const BANK: int := 2
  const VODAFONE: int := 6
  const AIRTELTIGO: int := 7

  predicate IsChannel(code: int) {
    code == MTN || code == BANK || code == VODAFONE || code == AIRTELTIGO
  }

  lemma ChannelCodesDistinct()
    ensures MTN != BANK && MTN != VODAFONE && MTN != AIRTELTIGO
    ensures BANK != VODAFONE && BANK != AIRTELTIGO && VODAFONE != AIRTELTIGO
    ensures !IsChannel(0)
  {
  }

  /** The three credentials read from the environment; "" stands for an unset variable. */
  datatype Config = Config(apiKey: string, username: string, accountNumber: string)

  predicate Configured(cfg: Config) {
    cfg.apiKey != "" && cfg.username != "" && cfg.accountNumber != ""
  }

  const CONFIG_MISSING_ERROR: string := "API configuration missing. Please check environment variables."
  const CONFIG_MISSING_MESSAGE: string := "Missing required environment variables"

  // ---------------------------------------------------------------- validate

  datatype NameValidationRequest = NameValidationRequest(
    accountNumber: string, bankCode: string, channel: int, currency: string)

  /** `{status, message, data: accountName}`; a falsy `data` is "". */
  datatype ValidateReply = ValidateReply(status: JsValue, message: Message, data: string)

  datatype NameValidationResult = NameValidationResult(
    success: bool, accountName: string, message: Message, error: Message)

  /** `validateAccountName` */
  function ValidateAccountName(cfg: Config, req: NameValidationRequest, reply: Outcome<ValidateReply>)
    : (r: Exchange<NameValidationRequest, NameValidationResult>)
    ensures !Configured(cfg) ==> (r.sent == None && r.reply ==
      NameValidationResult(false, "", Text(CONFIG_MISSING_MESSAGE), Text(CONFIG_MISSING_ERROR)))
    ensures Configured(cfg) ==> r.sent == Some(req)
    ensures r.reply.success <==>
      Configured(cfg) && reply.Received? && reply.value.status == Num(1) && reply.value.data != ""
    ensures r.reply.success ==>
      && r.reply.accountName == reply.value.data
      && r.reply.message == reply.value.message.Or("Account name validated successfully")
      && r.reply.error == Absent
    ensures Configured(cfg) && reply.Received? && !r.reply.success ==>
      r.reply.accountName == ""
      && r.reply.error == reply.value.message.Or("Validation failed")
      && r.reply.message == reply.value.message.Or("Unable to validate account name")
    ensures Configured(cfg) && reply.Thrown? ==>
      r.reply == NameValidationResult(false, "", Text("Failed to validate account name"),
                                      Text(ThrownText(reply.reason)))
  {
    if !Configured(cfg) then
      Exchange(None, NameValidationResult(false, "", Text(CONFIG_MISSING_MESSAGE), Text(CONFIG_MISSING_ERROR)))
    else
      var result :=
        match reply
        case Thrown(reason) =>
          NameValidationResult(false, "", Text("Failed to validate account name"), Text(ThrownText(reason)))
        case Received(data) =>
          if data.status == Num(1) && data.data != "" then
            NameValidationResult(true, data.data, data.message.Or("Account name validated successfully"), Absent)
          else
            NameValidationResult(false, "", data.message.Or("Unable to validate account name"),
                                 data.message.Or("Validation failed"));
      Exchange(Some(req), result)
  }

  // ---------------------------------------------------------------- transfer

  datatype TransferRequest = TransferRequest(
    accountNumber: string, bankCode: string, channel: int, amount: string, currency: string,
    reference: string, description: string, externalRef: string)

  /** `data.data` of a transfer answer. */
  datatype TransferData = TransferData(transactionid: string, txstatus: JsValue, externalref: string)

  /** `{status, message, data}`; `data` is None when it is falsy. */
  datatype TransferReply = TransferReply(status: JsValue, message: Message, data: Option<TransferData>)

  datatype TransferResult = TransferResult(
    success: bool, transactionId: string, message: Message, amount: string, currency: string,
    error: Message, txstatus: JsValue, externalRef: string)

  function TransferFailure(message: Message, error: Message): TransferResult {
    TransferResult(false, "", message, "", "", error, Undefined, "")
  }

  /** `transferFunds` */
  function TransferFunds(cfg: Config, req: TransferRequest, reply: Outcome<TransferReply>)
    : (r: Exchange<TransferRequest, TransferResult>)
    ensures !Configured(cfg) ==>
      r.sent == None && r.reply == TransferFailure(Text(CONFIG_MISSING_MESSAGE), Text(CONFIG_MISSING_ERROR))
    ensures Configured(cfg) ==> r.sent == Some(req)
    ensures r.reply.success <==>
      Configured(cfg) && reply.Received? && reply.value.status == Num(1) && reply.value.data.Some?
    ensures r.reply.success ==>
      var d := reply.value.data.value;
      && r.reply.transactionId == d.transactionid
      && r.reply.txstatus == d.txstatus
      && r.reply.amount == req.amount && r.reply.currency == req.currency
      && r.reply.externalRef == OrElse(d.externalref, req.externalRef)
      && r.reply.message == reply.value.message.Joined()
      && r.reply.error == Absent
    ensures Configured(cfg) && reply.Received? && !r.reply.success ==>
      r.reply == TransferFailure(reply.value.message.Joined(), reply.value.message.Joined())
    ensures Configured(cfg) && reply.Thrown? ==>
      r.reply == TransferFailure(Text("Failed to process transfer"), Text(ThrownText(reply.reason)))
    ensures !r.reply.message.Lines? && !r.reply.error.Lines?
  {
    if !Configured(cfg) then
      Exchange(None, TransferFailure(Text(CONFIG_MISSING_MESSAGE), Text(CONFIG_MISSING_ERROR)))
    else
      var result :=
        match reply
        case Thrown(reason) =>
          TransferFailure(Text("Failed to process transfer"), Text(ThrownText(reason)))
        case Received(data) =>
          if data.status == Num(1) && data.data.Some? then
            var d := data.data.value;
            TransferResult(true, d.transactionid, data.message.Joined(), req.amount, req.currency,
                           Absent, d.txstatus, OrElse(d.externalref, req.externalRef))
          else
            TransferFailure(data.message.Joined(), data.message.Joined());
      Exchange(Some(req), result)
  }

  // ---------------------------------------------------------------- status

  datatype IdKind = ByTransaction | ByExternal

  /** The `idType` string the client posts: 'transaction' or 'external'. */
  function IdKindName(k: IdKind): (s: string)
    ensures (s == "transaction") <==> k == ByTransaction
    ensures k == ByExternal ==> s == "external"
  {
    match k
    case ByTransaction => "transaction"
    case ByExternal => "external"
  }

  datatype StatusQuery = StatusQuery(transactionId: string, idType: IdKind)

  /** `data.data` of a status answer, with both spellings of the aliased fields. */
  datatype StatusData = StatusData(
    transactionid: string, txstatus: JsValue, externalref: string,
    receiver: string, payee: string, receivername: string, amount: string, value: string)

  datatype StatusReply = StatusReply(status: JsValue, message: Message, data: Option<StatusData>)

  datatype StatusResult = StatusResult(
    success: bool, txstatus: JsValue, transactionId: string, externalRef: string,
    receiver: string, receivername: string, amount: string, message: Message, error: Message)

  function StatusFailure(message: Message, error: Message): StatusResult {
    StatusResult(false, Undefined, "", "", "", "", "", message, error)
  }

  /** `checkTransferStatus` */
  function CheckTransferStatus(cfg: Config, query: StatusQuery, reply: Outcome<StatusReply>)
    : (r: Exchange<StatusQuery, StatusResult>)
    ensures !Configured(cfg) ==>
      r.sent == None && r.reply == StatusFailure(Text(CONFIG_MISSING_MESSAGE), Text(CONFIG_MISSING_ERROR))
    ensures Configured(cfg) ==> r.sent == Some(query)
    ensures r.reply.success <==>
      Configured(cfg) && reply.Received? && reply.value.status == Num(1) && reply.value.data.Some?
    ensures r.reply.success ==>
      var d := reply.value.data.value;
      && r.reply.txstatus == d.txstatus
      && r.reply.transactionId == d.transactionid
      && r.reply.externalRef == d.externalref
      && r.reply.receiver == OrElse(d.receiver, d.payee)
      && r.reply.receivername == d.receivername
      && r.reply.amount == OrElse(d.amount, d.value)
      && r.reply.message == reply.value.message.Joined()
      && r.reply.error == Absent
    ensures Configured(cfg) && reply.Received? && !r.reply.success ==>
      r.reply == StatusFailure(reply.value.message.Joined(), reply.value.message.Joined())
    ensures Configured(cfg) && reply.Thrown? ==>
      r.reply == StatusFailure(Text("Failed to check transfer status"), Text(ThrownText(reply.reason)))
    ensures !r.reply.message.Lines? && !r.reply.error.Lines?
  {
    if !Configured(cfg) then
      Exchange(None, StatusFailure(Text(CONFIG_MISSING_MESSAGE), Text(CONFIG_MISSING_ERROR)))
    else
      var result :=
        match reply
        case Thrown(reason) =>
          StatusFailure(Text("Failed to check transfer status"), Text(ThrownText(reason)))
        case Received(data) =>
          if data.status == Num(1) && data.data.Some? then
            var d := data.data.value;
            StatusResult(true, d.txstatus, d.transactionid, d.externalref, OrElse(d.receiver, d.payee),
                         d.receivername, OrElse(d.amount, d.value), data.message.Joined(), Absent)
          else
            StatusFailure(data.message.Joined(), data.message.Joined());
      Exchange(Some(query), result)
  }

  // ---------------------------------------------------------------- properties

  /** With a credential missing, none of the three calls looks at the answer: nothing was asked. */
  lemma MissingConfigIgnoresReplies(cfg: Config,
      vreq: NameValidationRequest, v1: Outcome<ValidateReply>, v2: Outcome<ValidateReply>,
      treq: TransferRequest, t1: Outcome<TransferReply>, t2: Outcome<TransferReply>,
      q: StatusQuery, s1: Outcome<StatusReply>, s2: Outcome<StatusReply>)
    requires !Configured(cfg)
    ensures ValidateAccountName(cfg, vreq, v1) == ValidateAccountName(cfg, vreq, v2)
    ensures TransferFunds(cfg, treq, t1) == TransferFunds(cfg, treq, t2)
    ensures CheckTransferStatus(cfg, q, s1) == CheckTransferStatus(cfg, q, s2)
    ensures !ValidateAccountName(cfg, vreq, v1).reply.success
    ensures !TransferFunds(cfg, treq, t1).reply.success
    ensures !CheckTransferStatus(cfg, q, s1).reply.success
  {
  }

  /** The client's success test is numeric: a string status "1" is a failure. */
  lemma StringStatusIsFailure(cfg: Config, req: TransferRequest, msg: Message, d: TransferData)
    ensures !TransferFunds(cfg, req, Received(TransferReply(Str("1"), msg, Some(d)))).reply.success
  {
  }

  /** An array message reaches the caller as one string, joined with ". ". */
  lemma ArrayMessageJoined(cfg: Config, q: StatusQuery, d: StatusData)
    requires Configured(cfg)
    ensures CheckTransferStatus(cfg, q, Received(StatusReply(Num(1), Lines(["a", "b"]), Some(d)))).reply.message
      == Text("a. b")
  {
  }
}
