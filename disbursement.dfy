/**
  The transfer form (components/DisbursementForm.tsx): an operator fills in a
  recipient, the bank account name is checked against the gateway, a transfer
  is submitted, and its `txstatus` decides which SMS notices go out and whether
  the status is polled again. The gateway answers are inputs; what the form
  would send or schedule comes back as a list of effects.
 */
module Disbursement {
  import opened Wrappers
  import opened Text
  import opened Js
  import opened Phone
  import opened Gateway

  // ---------------------------------------------------------------- the form's data

  datatype FormData = FormData(
    recipientNumber: string, accountName: string, bankCode: string, channel: int,
    amount: string, currency: string, reference: string, description: string,
    recipientPhone: string, senderPhone: string)

  /** No channel selected (0), currency GHS, every text empty. */
  const INITIAL_FORM: FormData := FormData("", "", "", 0, "", "GHS", "", "", "", "")

  /** The string-valued fields; the channel is set by a number. */
  datatype TextField =
    | RecipientNumber | AccountName | BankCode | Amount | Currency
    | Reference | Description | RecipientPhone | SenderPhone

  datatype Edit = SetText(field: TextField, value: string) | SetChannel(code: int)

  function Get(f: FormData, field: TextField): string {
    match field
    case RecipientNumber => f.recipientNumber
    case AccountName => f.accountName
    case BankCode => f.bankCode
    case Amount => f.amount
    case Currency => f.currency
    case Reference => f.reference
    case Description => f.description
    case RecipientPhone => f.recipientPhone
    case SenderPhone => f.senderPhone
  }

  /** `{ ...prev, [field]: value }`: the edited field takes the value, every other field keeps its own. */
  function ApplyEdit(f: FormData, e: Edit): (g: FormData)
    ensures e.SetChannel? ==> g == f.(channel := e.code)
    ensures e.SetText? ==> g.channel == f.channel && Get(g, e.field) == e.value
    ensures e.SetText? ==> forall other :: other != e.field ==> Get(g, other) == Get(f, other)
  {
    match e
    case SetChannel(code) => f.(channel := code)
    case SetText(field, v) =>
      match field
      case RecipientNumber => f.(recipientNumber := v)
      case AccountName => f.(accountName := v)
      case BankCode => f.(bankCode := v)
      case Amount => f.(amount := v)
      case Currency => f.(currency := v)
      case Reference => f.(reference := v)
      case Description => f.(description := v)
      case RecipientPhone => f.(recipientPhone := v)
      case SenderPhone => f.(senderPhone := v)
  }

  /** The three fields whose change invalidates a name check. */
  predicate ResetsValidation(e: Edit) {
    e.SetText? && (e.field == RecipientNumber || e.field == BankCode || e.field == AccountName)
  }

  /** Two edits of different fields commute. */
  lemma EditsOfDifferentFieldsCommute(f: FormData, a: TextField, x: string, b: TextField, y: string)
    requires a != b
    ensures ApplyEdit(ApplyEdit(f, SetText(a, x)), SetText(b, y)) == ApplyEdit(ApplyEdit(f, SetText(b, y)), SetText(a, x))
  {
    var g1 := ApplyEdit(ApplyEdit(f, SetText(a, x)), SetText(b, y));
    var g2 := ApplyEdit(ApplyEdit(f, SetText(b, y)), SetText(a, x));
    FieldsDetermineForm(g1, g2);
  }

  lemma FieldsDetermineForm(f: FormData, g: FormData)
    requires f.channel == g.channel
    requires forall field :: Get(f, field) == Get(g, field)
    ensures f == g
  {
    assert Get(f, RecipientNumber) == Get(g, RecipientNumber);
    assert Get(f, AccountName) == Get(g, AccountName);
    assert Get(f, BankCode) == Get(g, BankCode);
    assert Get(f, Amount) == Get(g, Amount);
    assert Get(f, Currency) == Get(g, Currency);
    assert Get(f, Reference) == Get(g, Reference);
    assert Get(f, Description) == Get(g, Description);
    assert Get(f, RecipientPhone) == Get(g, RecipientPhone);
    assert Get(f, SenderPhone) == Get(g, SenderPhone);
  }

  // ---------------------------------------------------------------- the name check

  /** `a.trim().toLowerCase() === b.trim().toLowerCase()` */
  predicate NamesMatch(a: string, b: string) {
    NameKey(a) == NameKey(b)
  }

  /** What the comparison keeps of a name. */
  function NameKey(s: string): string {
    ToLower(Trim(s))
  }

  /** The comparison ignores letter case. */
  lemma NamesMatchIgnoresCase(a: string)
    ensures NamesMatch(a, ToUpper(a)) && NamesMatch(ToUpper(a), a)
  {
    TrimOfUpper(a);
    LowerOfUpper(Trim(a));
  }

  /** The comparison ignores padding in front of either name. */
  lemma NamesMatchIgnoresLeadingPadding(w: string, a: string, b: string)
    requires forall i :: 0 <= i < |w| ==> IsWhitespace(w[i])
    ensures NamesMatch(w + a, b) <==> NamesMatch(a, b)
  {
    TrimIgnoresLeadingWhitespace(w, a);
  }

  /** Two trimmed names of one length match when each pair of letters agrees once lower-cased. */
  lemma NamesMatchLetterByLetter(a: string, b: string)
    requires IsTrimmed(a) && IsTrimmed(b)
    requires |a| == |b|
    requires forall i :: 0 <= i < |a| ==> LowerChar(a[i]) == LowerChar(b[i])
    ensures NamesMatch(a, b)
  {
    TrimStartOfClean(a);
    TrimEndOfClean(a);
    TrimStartOfClean(b);
    TrimEndOfClean(b);
    assert ToLower(a) == ToLower(b);
  }

  /** The entered "kwame asante" matches the returned "KWAME ASANTE". */
  lemma LowerCaseEntryMatchesUpperCaseName()
    ensures NamesMatch("kwame asante", "KWAME ASANTE")
  {
    NamesMatchLetterByLetter("kwame asante", "KWAME ASANTE");
  }

  /** A name differing in a letter other than by case does not match. */
  lemma DifferentNamesDoNotMatch()
    ensures !NamesMatch("Kofi", "Kojo")
  {
    TrimStartOfClean("Kofi");
    TrimEndOfClean("Kofi");
    TrimStartOfClean("Kojo");
    TrimEndOfClean("Kojo");
    assert ToLower("Kofi")[2] != ToLower("Kojo")[2];
  }

  /** `validationResponse`; an absent account name is "". */
  datatype ValidationState = ValidationState(isValid: bool, accountName: string, message: Message)

  /** The name check a bank form asks for once account number, bank code and name are filled in. */
  function ValidationRequestFor(f: FormData): (r: Option<NameValidationRequest>)
    ensures r.Some? <==> f.channel == BANK && f.recipientNumber != "" && f.bankCode != "" && f.accountName != ""
    ensures r.Some? ==> r.value == NameValidationRequest(f.recipientNumber, f.bankCode, f.channel, f.currency)
  {
    if f.channel == BANK && f.recipientNumber != "" && f.bankCode != "" && f.accountName != "" then
      Some(NameValidationRequest(f.recipientNumber, f.bankCode, f.channel, f.currency))
    else None
  }

  /**
    What a name check records: the validation shown, whether the names match, the
    returned name (None leaves the previous one in place), and the error raised.
   */
  datatype NameCheck = NameCheck(validation: ValidationState, matches: bool, name: Option<string>, error: Message)

  function NameCheckFor(entered: string, result: NameValidationResult): (c: NameCheck)
    ensures c.validation.isValid <==> result.success && result.accountName != ""
    ensures c.matches <==> c.validation.isValid && NamesMatch(entered, result.accountName)
    ensures c.validation.isValid ==>
      && c.name == Some(result.accountName) && c.validation.accountName == result.accountName
      && (c.matches ==> c.validation.message == Text("Account name matches!") && c.error == Absent)
      && (!c.matches ==>
            && c.validation.message == Text("Account name mismatch. API returned: " + result.accountName)
            && c.error == Text("Name mismatch. Expected: " + result.accountName))
    ensures !c.validation.isValid ==>
      && c.name == None && c.error == Absent
      && c.validation == ValidationState(false, "", result.error.Else(result.message).Or("Validation failed"))
  {
    if result.success && result.accountName != "" then
      var name := result.accountName;
      if NamesMatch(entered, name) then
        NameCheck(ValidationState(true, name, Text("Account name matches!")), true, Some(name), Absent)
      else
        NameCheck(ValidationState(true, name, Text("Account name mismatch. API returned: " + name)), false,
                  Some(name), Text("Name mismatch. Expected: " + name))
    else
      NameCheck(ValidationState(false, "", result.error.Else(result.message).Or("Validation failed")), false, None, Absent)
  }

  // ---------------------------------------------------------------- pre-submission checks

  /** The first of the three pre-submission errors that applies, if any. */
  function PreCheckError(f: FormData): (e: Option<string>)
    ensures e.None? <==>
      && f.channel != 0 && f.recipientNumber != "" && f.amount != ""
      && (f.channel == BANK ==> f.accountName != "" && f.bankCode != "")
    ensures f.channel == 0 ==> e == Some("Please select a payment method")
    ensures f.channel != 0 && (f.recipientNumber == "" || f.amount == "") ==>
      e == Some("Please fill in all required fields")
    ensures f.channel == BANK && f.recipientNumber != "" && f.amount != "" && (f.accountName == "" || f.bankCode == "") ==>
      e == Some("Account name and bank code are required when sending to bank accounts")
  {
    if f.channel == 0 then Some("Please select a payment method")
    else if f.recipientNumber == "" || f.amount == "" then Some("Please fill in all required fields")
    else if f.channel == BANK && (f.accountName == "" || f.bankCode == "") then
      Some("Account name and bank code are required when sending to bank accounts")
    else None
  }

  /** The two `window.confirm` questions a bank transfer may ask. */
  datatype Prompt = NoPrompt | NameMismatchPrompt | UnvalidatedPrompt

  /** Which question, if any, is put to the operator before a transfer. */
  function ConfirmPrompt(f: FormData, nameMatches: bool, validated: bool): (p: Prompt)
    ensures p != NoPrompt <==> f.channel == BANK && f.accountName != "" && (!nameMatches || !validated)
    ensures p == NameMismatchPrompt <==> f.channel == BANK && f.accountName != "" && !nameMatches
  {
    if f.channel != BANK then NoPrompt
    else if !nameMatches && f.accountName != "" then NameMismatchPrompt
    else if !validated && f.accountName != "" then UnvalidatedPrompt
    else NoPrompt
  }

  /**
    A match can only be recorded together with a validation, so the second
    question is never asked in a consistent session.
   */
  lemma UnvalidatedPromptUnreachable(f: FormData, nameMatches: bool, validated: bool)
    requires nameMatches ==> validated
    ensures ConfirmPrompt(f, nameMatches, validated) != UnvalidatedPrompt
  {
  }

  /** The transfer the form asks for; `now` is `Date.now()` for the generated reference. */
  function TransferRequestFor(f: FormData, now: nat): (r: TransferRequest)
    ensures r.accountNumber == f.recipientNumber && r.bankCode == f.bankCode && r.channel == f.channel
    ensures r.amount == f.amount && r.currency == f.currency
    ensures r.reference == f.reference && r.description == f.description
    ensures r.externalRef != ""
    ensures f.reference != "" ==> r.externalRef == f.reference
    ensures f.reference == "" ==> r.externalRef == GeneratedRef(now)
  {
    TransferRequest(f.recipientNumber, f.bankCode, f.channel, f.amount, f.currency,
                    f.reference, f.description, OrElse(f.reference, GeneratedRef(now)))
  }

  /**
    After a successful `transferFunds`, the reference the form records is the
    gateway's or the one it sent: the generated fallback built from a second clock
    reading is never reached.
   */
  lemma RecordedReferenceWasSent(cfg: Config, f: FormData, now: nat, nowRecord: nat, reply: Outcome<TransferReply>)
    requires TransferFunds(cfg, TransferRequestFor(f, now), reply).reply.success
    ensures var r := TransferFunds(cfg, TransferRequestFor(f, now), reply).reply;
      OrElse(r.externalRef, OrElse(f.reference, GeneratedRef(nowRecord)))
        == OrElse(reply.value.data.value.externalref, TransferRequestFor(f, now).externalRef)
  {
  }

  // ---------------------------------------------------------------- SMS notices

  datatype SmsRole = RecipientConfirmation | SenderConfirmation | RecipientFailure

  /** What the form does besides updating its own state. */
  datatype Effect =
    | SendSms(role: SmsRole, recipient: string, text: string)
    | ScheduleStatusCheck(delayMs: nat, transactionId: string, externalRef: string)

  const TXID_LABEL: string := "Transaction ID: "

  /** The notice to a recipient whose transfer failed. */
  function FailureText(currency: string, amount: string, reference: string, txId: string): (t: string)
    ensures "A transfer attempt of " <= t
    ensures EndsWith(t, TXID_LABEL + txId)
  {
    var head := "A transfer attempt of " + currency + " " + amount
      + (if reference != "" then " (Ref: " + reference + ")" else "")
      + " was made to your account but failed due to insufficient balance. ";
    EndsWithAppend(head, TXID_LABEL + txId);
    head + (TXID_LABEL + txId)
  }

  /** The confirmation to the recipient. */
  function RecipientText(currency: string, amount: string, reference: string, txId: string): (t: string)
    ensures "You have received " <= t
    ensures EndsWith(t, TXID_LABEL + txId)
  {
    var head := "You have received " + currency + " " + amount
      + (if reference != "" then ". Ref: " + reference else "") + ". ";
    EndsWithAppend(head, TXID_LABEL + txId);
    head + (TXID_LABEL + txId)
  }

  /** The confirmation to the sender; the reference, when there is one, comes last. */
  function SenderText(currency: string, amount: string, accountName: string, reference: string, txId: string)
    : (t: string)
    ensures "Your transfer of " <= t
    ensures reference == "" ==> EndsWith(t, TXID_LABEL + txId + ".")
    ensures reference != "" ==> EndsWith(t, " Ref: " + reference)
  {
    var head := "Your transfer of " + currency + " " + amount + " to " + accountName
      + " has been successfully processed. ";
    var body := head + (TXID_LABEL + txId + ".");
    EndsWithAppend(head, TXID_LABEL + txId + ".");
    EndsWithAppend(body, " Ref: " + reference);
    if reference != "" then body + (" Ref: " + reference) else body
  }

  /** Two failure notices with the same details name the same transaction. */
  lemma FailureTextIdentifiesTransaction(currency: string, amount: string, reference: string, t1: string, t2: string)
    requires FailureText(currency, amount, reference, t1) == FailureText(currency, amount, reference, t2)
    ensures t1 == t2
  {
    var a := FailureText(currency, amount, reference, t1);
    assert |a| - |t1| == |FailureText(currency, amount, reference, t2)| - |t2|;
    assert (TXID_LABEL + t1)[|TXID_LABEL|..] == t1;
    assert (TXID_LABEL + t2)[|TXID_LABEL|..] == t2;
  }

  /** `recipientPhone || (channel !== BANK ? recipientNumber : '')` */
  function FailureTarget(f: FormData): (to: string)
    ensures f.recipientPhone != "" ==> to == f.recipientPhone
    ensures f.recipientPhone == "" && f.channel != BANK ==> to == f.recipientNumber
    ensures f.recipientPhone == "" && f.channel == BANK ==> to == ""
  {
    OrElse(f.recipientPhone, if f.channel != BANK then f.recipientNumber else "")
  }

  /** `sendFailureSMS`: one notice to the failure target, when it is a phone number. */
  function FailureSmsEffects(f: FormData, txId: string): (effects: seq<Effect>)
    ensures |effects| <= 1
    ensures effects != [] <==> IsPhoneInput(FailureTarget(f))
    ensures effects != [] ==>
      effects == [SendSms(RecipientFailure, FailureTarget(f), FailureText(f.currency, f.amount, f.reference, txId))]
  {
    var to := FailureTarget(f);
    if to != "" && IsPhoneInput(to) then
      [SendSms(RecipientFailure, to, FailureText(f.currency, f.amount, f.reference, txId))]
    else []
  }

  /** `sendConfirmationSMS`: the recipient and the sender are each notified when their phone is valid. */
  function ConfirmationSmsEffects(f: FormData, txId: string): (effects: seq<Effect>)
    ensures |effects| == (if IsPhoneInput(f.recipientPhone) then 1 else 0) + (if IsPhoneInput(f.senderPhone) then 1 else 0)
    ensures (exists e :: e in effects && e.SendSms? && e.role == RecipientConfirmation) <==> IsPhoneInput(f.recipientPhone)
    ensures (exists e :: e in effects && e.SendSms? && e.role == SenderConfirmation) <==> IsPhoneInput(f.senderPhone)
    ensures forall e :: e in effects ==> e.SendSms? && e.role != RecipientFailure
    ensures forall e :: e in effects && e.SendSms? && e.role == RecipientConfirmation ==>
      e == SendSms(RecipientConfirmation, f.recipientPhone, RecipientText(f.currency, f.amount, f.reference, txId))
    ensures forall e :: e in effects && e.SendSms? && e.role == SenderConfirmation ==>
      e == SendSms(SenderConfirmation, f.senderPhone, SenderText(f.currency, f.amount, f.accountName, f.reference, txId))
    ensures IsPhoneInput(f.recipientPhone) ==> effects[0].role == RecipientConfirmation
  {
    var toRecipient :=
      if f.recipientPhone != "" && IsPhoneInput(f.recipientPhone) then
        [SendSms(RecipientConfirmation, f.recipientPhone, RecipientText(f.currency, f.amount, f.reference, txId))]
      else [];
    var toSender :=
      if f.senderPhone != "" && IsPhoneInput(f.senderPhone) then
        [SendSms(SenderConfirmation, f.senderPhone,
                 SenderText(f.currency, f.amount, f.accountName, f.reference, txId))]
      else [];
    toRecipient + toSender
  }

  /**
    The `txstatus` dispatch shared by a submission and a status check: 1 confirms,
    2 reports a failure, 0 reports a failure for mobile money and re-checks a bank
    transfer, anything else does nothing. `smsId` names the transaction in the
    notices and `recheck` is the check to schedule.
   */
  function StatusEffects(f: FormData, txstatus: JsValue, smsId: string, recheck: Effect): (effects: seq<Effect>)
    requires recheck.ScheduleStatusCheck?
    ensures forall e :: e in effects && e.SendSms? ==> IsPhoneInput(e.recipient)
    ensures (exists e :: e in effects && e.ScheduleStatusCheck?) <==> txstatus == Num(0) && f.channel == BANK
    ensures txstatus == Num(0) && f.channel == BANK ==> effects == [recheck]
    ensures txstatus == Num(1) ==> effects == ConfirmationSmsEffects(f, smsId)
    ensures txstatus == Num(2) || (txstatus == Num(0) && f.channel != BANK) ==> effects == FailureSmsEffects(f, smsId)
    ensures txstatus != Num(0) && txstatus != Num(1) && txstatus != Num(2) ==> effects == []
  {
    if txstatus == Num(1) then
      if f.recipientPhone != "" || f.senderPhone != "" then ConfirmationSmsEffects(f, smsId) else []
    else if txstatus == Num(0) then
      if f.channel != BANK then FailureSmsEffects(f, smsId) else [recheck]
    else if txstatus == Num(2) then FailureSmsEffects(f, smsId)
    else []
  }

  /** The failure notice of a mobile-money transfer falls back to the number paid. */
  lemma MobileMoneyFailureNotifiesNumberPaid(f: FormData, txId: string)
    requires f.channel != BANK && f.recipientPhone == "" && IsPhoneInput(f.recipientNumber)
    ensures FailureSmsEffects(f, txId) ==
      [SendSms(RecipientFailure, f.recipientNumber, FailureText(f.currency, f.amount, f.reference, txId))]
  {
  }

  /** A bank account number is never texted: with no recipient phone, a bank failure notifies no one. */
  lemma BankFailureWithoutPhoneIsSilent(f: FormData, txId: string, recheck: Effect)
    requires f.channel == BANK && f.recipientPhone == "" && recheck.ScheduleStatusCheck?
    ensures FailureSmsEffects(f, txId) == []
    ensures StatusEffects(f, Num(2), txId, recheck) == []
  {
  }

  /** With both phone fields left at their initial "", no confirmation is ever sent. */
  lemma NoPhonesNoConfirmation(f: FormData, txId: string, recheck: Effect)
    requires f.recipientPhone == "" && f.senderPhone == "" && recheck.ScheduleStatusCheck?
    ensures StatusEffects(f, Num(1), txId, recheck) == []
    ensures ConfirmationSmsEffects(f, txId) == []
  {
    RejectedShapes("");
  }

  /** The string "1" is not the number 1: it triggers no notice and no re-check. */
  lemma StringStatusDispatchesNothing(f: FormData, txId: string, recheck: Effect)
    requires recheck.ScheduleStatusCheck?
    ensures StatusEffects(f, Str("1"), txId, recheck) == []
    ensures StatusEffects(f, Str("0"), txId, recheck) == []
  {
  }

  // ---------------------------------------------------------------- status display

  /** `statusText`: anything but 1 or 0 reads as failed. */
  function StatusText(txstatus: JsValue): (t: string)
    ensures t == "Successful" <==> txstatus == Num(1)
    ensures t == "Pending" <==> txstatus == Num(0)
    ensures t == "Successful" || t == "Pending" || t == "Failed"
  {
    if txstatus == Num(1) then "Successful" else if txstatus == Num(0) then "Pending" else "Failed"
  }

  /** The property name `statusMap[txstatus]` looks up. */
  function BadgeKey(txstatus: JsValue): string {
    match txstatus
    case Num(n) => IntToString(n)
    case Str(s) => s
    case Null => "null"
    case Undefined => "undefined"
  }

  /**
    The names a plain object literal inherits from `Object.prototype`. Looking one of
    them up on `statusMap` yields a function (or, for `__proto__`, the prototype
    itself): a truthy value without a `text` property.
   */
  const OBJECT_PROTOTYPE_KEYS: set<string> := {
    "constructor", "hasOwnProperty", "isPrototypeOf", "propertyIsEnumerable",
    "toLocaleString", "toString", "valueOf", "__proto__",
    "__defineGetter__", "__defineSetter__", "__lookupGetter__", "__lookupSetter__"
  }

  /**
    `getStatusBadge`: none for undefined, the mapped text for "1", "0", "2", an empty
    badge for an inherited property name (the `|| 'Unknown'` fallback is skipped and
    `status.text` is undefined), else 'Unknown'.
   */
  function StatusBadge(txstatus: JsValue): (b: Option<string>)
    ensures b.None? <==> txstatus.Undefined?
    ensures b.Some? ==> b.value in {"Successful", "Pending", "Failed", "Unknown", ""}
    ensures b == Some("") <==> txstatus.Str? && txstatus.s in OBJECT_PROTOTYPE_KEYS
    ensures !txstatus.Undefined? && BadgeKey(txstatus) == "1" ==> b == Some("Successful")
    ensures !txstatus.Undefined? && BadgeKey(txstatus) == "0" ==> b == Some("Pending")
    ensures !txstatus.Undefined? && BadgeKey(txstatus) == "2" ==> b == Some("Failed")
    ensures
      && !txstatus.Undefined? && BadgeKey(txstatus) !in {"0", "1", "2"}
      && !(txstatus.Str? && txstatus.s in OBJECT_PROTOTYPE_KEYS)
      ==> b == Some("Unknown")
  {
    if txstatus.Undefined? then None
    else
      var key := BadgeKey(txstatus);
      PrintedNumberNotInherited(txstatus);
      Some(if key == "1" then "Successful" else if key == "0" then "Pending"
           else if key == "2" then "Failed" else if key in OBJECT_PROTOTYPE_KEYS then "" else "Unknown")
  }

  /** Only a string can name an inherited property: a number prints as digits, possibly signed. */
  lemma PrintedNumberNotInherited(txstatus: JsValue)
    ensures !txstatus.Str? ==> BadgeKey(txstatus) !in OBJECT_PROTOTYPE_KEYS
  {
    if txstatus.Num? {
      var k := BadgeKey(txstatus);
      assert k[0] == '-' || IsDigit(k[0]) by {
        if txstatus.n < 0 {
          assert k == "-" + NatToString(-txstatus.n);
        } else {
          assert k == NatToString(txstatus.n);
        }
      }
    }
  }

  /** An inherited property name as a status shows an empty badge, not 'Unknown'. */
  lemma InheritedNameShowsEmptyBadge()
    ensures StatusBadge(Str("toString")) == Some("")
    ensures StatusBadge(Str("__proto__")) == Some("")
    ensures StatusBadge(Str("toString")) != StatusBadge(Str("pending"))
  {
    assert "pending" !in OBJECT_PROTOTYPE_KEYS;
  }

  /** On the numbers 0, 1, 2 the badge and the text agree; any other number is 'Unknown' on the badge but 'Failed' in the text. */
  lemma BadgeAndTextOnNumbers(n: int)
    ensures 0 <= n <= 2 ==> StatusBadge(Num(n)) == Some(StatusText(Num(n)))
    ensures !(0 <= n <= 2) ==> StatusBadge(Num(n)) == Some("Unknown") && StatusText(Num(n)) == "Failed"
  {
    assert IntToString(0) == "0" by { assert NatToString(0) == [DigitChar(0)]; }
    assert IntToString(1) == "1" by { assert NatToString(1) == [DigitChar(1)]; }
    assert IntToString(2) == "2" by { assert NatToString(2) == [DigitChar(2)]; }
    PrintedNumberNotInherited(Num(n));
    if !(0 <= n <= 2) {
      if IntToString(n) == "0" { IntToStringInjective(n, 0); }
      if IntToString(n) == "1" { IntToStringInjective(n, 1); }
      if IntToString(n) == "2" { IntToStringInjective(n, 2); }
    }
  }

  /** The badge reads every printed number as that number would be read. */
  lemma BadgeReadsPrintedNumbers(n: int)
    ensures StatusBadge(Str(IntToString(n))) == StatusBadge(Num(n))
  {
    PrintedNumberNotInherited(Num(n));
  }

  /** The badge reads the strings "0", "1" and "2" as their numbers; the text reads them all as failed. */
  lemma BadgeReadsStringsTextDoesNot(n: int)
    requires 0 <= n <= 2
    ensures StatusBadge(Str(IntToString(n))) == Some(StatusText(Num(n)))
    ensures StatusText(Str(IntToString(n))) == "Failed"
    ensures n == 1 ==> StatusBadge(Str("1")) == Some("Successful") && StatusText(Num(1)) == "Successful"
  {
    BadgeAndTextOnNumbers(n);
    BadgeReadsPrintedNumbers(n);
    assert IntToString(1) == "1" by { assert NatToString(1) == [DigitChar(1)]; }
  }

  // ---------------------------------------------------------------- which id to query

  /** `transactionId || lastTransactionId || externalRef || lastExternalRef` */
  function IdToCheck(txArg: string, lastTx: string, refArg: string, lastRef: string): (id: string)
    ensures id == "" <==> txArg == "" && lastTx == "" && refArg == "" && lastRef == ""
    ensures txArg != "" ==> id == txArg
    ensures txArg == "" && lastTx != "" ==> id == lastTx
    ensures txArg == "" && lastTx == "" && refArg != "" ==> id == refArg
    ensures txArg == "" && lastTx == "" && refArg == "" ==> id == lastRef
  {
    OrElse(txArg, OrElse(lastTx, OrElse(refArg, lastRef)))
  }

  /** The query a status check makes, or None when there is nothing to look up. */
  function ChooseQuery(txArg: string, lastTx: string, refArg: string, lastRef: string): (q: Option<StatusQuery>)
    ensures q.None? <==> txArg == "" && lastTx == "" && refArg == "" && lastRef == ""
    ensures q.Some? ==> q.value.transactionId != ""
    ensures q.Some? ==> (q.value.idType == ByTransaction <==> txArg != "" || lastTx != "")
    ensures q.Some? && q.value.idType == ByTransaction ==> q.value.transactionId == OrElse(txArg, lastTx)
    ensures q.Some? && q.value.idType == ByExternal ==> q.value.transactionId == OrElse(refArg, lastRef)
  {
    var id := IdToCheck(txArg, lastTx, refArg, lastRef);
    if id == "" then None
    else
      var useTx := OrElse(txArg, lastTx);
      Some(StatusQuery(OrElse(useTx, id), if useTx != "" then ByTransaction else ByExternal))
  }

  /** A scheduled re-check that carries a transaction id queries that transaction, whatever was done before. */
  lemma RecheckQueriesItsTransaction(txId: string, lastTx: string, refArg: string, lastRef: string)
    requires txId != ""
    ensures ChooseQuery(txId, lastTx, refArg, lastRef) == Some(StatusQuery(txId, ByTransaction))
  {
  }

  /** An external reference is used only when no transaction id is known at all. */
  lemma ExternalOnlyWithoutTransaction(refArg: string, lastRef: string)
    requires refArg != "" || lastRef != ""
    ensures ChooseQuery("", "", refArg, lastRef) == Some(StatusQuery(OrElse(refArg, lastRef), ByExternal))
  {
  }

  // ---------------------------------------------------------------- session state


  /** `disbursementResponse` */
  datatype DisbursementView =
    | DisbursedOk(transactionId: string, message: Message, amount: string, currency: string,
                  txstatus: JsValue, externalRef: string)
    | DisbursedErr(error: Message)

  /** `statusResponse` */
  datatype StatusView =
    | StatusShown(txstatus: JsValue, transactionId: string, externalRef: string, receiver: string,
                  receivername: string, amount: string, message: Message, statusText: string)
    | StatusErr(error: Message)

  /** The form's session; `error` and `successMessage` are Absent when cleared. */
  class DisbursementSession {
    var form: FormData
    var validation: Option<ValidationState>
    var nameMatches: bool
    var validatedName: string
    var lastTransactionId: string
    var lastExternalRef: string
    var error: Message
    var successMessage: Message
    var disbursement: Option<DisbursementView>
    var status: Option<StatusView>

    /** A recorded match always rests on a successful validation of the name now entered. */
    ghost predicate NameCheckConsistent()
      reads this
    {
      nameMatches ==>
        && validation.Some? && validation.value.isValid
        && validation.value.accountName == validatedName
        && NamesMatch(form.accountName, validatedName)
    }

    constructor ()
      ensures form == INITIAL_FORM && validation == None && !nameMatches && validatedName == ""
      ensures lastTransactionId == "" && lastExternalRef == ""
      ensures error == Absent && successMessage == Absent && disbursement == None && status == None
      ensures NameCheckConsistent()
    {
      form := INITIAL_FORM;
      validation := None;
      nameMatches := false;
      validatedName := "";
      lastTransactionId := "";
      lastExternalRef := "";
      error := Absent;
      successMessage := Absent;
      disbursement := None;
      status := None;
    }

    /** `handleInputChange` */
    method EditField(e: Edit)
      modifies this
      ensures form == ApplyEdit(old(form), e)
      ensures error == Absent && successMessage == Absent && disbursement == None
      ensures ResetsValidation(e) ==> validation == None && !nameMatches && validatedName == ""
      ensures !ResetsValidation(e) ==>
        validation == old(validation) && nameMatches == old(nameMatches) && validatedName == old(validatedName)
      ensures lastTransactionId == old(lastTransactionId) && lastExternalRef == old(lastExternalRef)
      ensures status == old(status)
      ensures old(NameCheckConsistent()) ==> NameCheckConsistent()
    {
      form := ApplyEdit(form, e);
      error := Absent;
      successMessage := Absent;
      disbursement := None;
      if ResetsValidation(e) {
        validation := None;
        nameMatches := false;
        validatedName := "";
      } else {
        assert form.accountName == old(form).accountName by {
          if e.SetText? {
            assert Get(form, AccountName) == Get(old(form), AccountName);
          }
        }
      }
    }

    /**
      The debounced name check firing with the gateway's `result`. It runs only for a
      bank transfer with account number, bank code and name filled in; `request` is
      what it asked the gateway.
     */
    method ApplyValidation(result: NameValidationResult) returns (request: Option<NameValidationRequest>)
      modifies this
      ensures request == ValidationRequestFor(old(form))
      ensures request.None? ==>
        validation == old(validation) && nameMatches == old(nameMatches) && validatedName == old(validatedName)
        && error == old(error)
      ensures request.Some? ==>
        var c := NameCheckFor(old(form).accountName, result);
        && validation == Some(c.validation) && nameMatches == c.matches && error == c.error
        && validatedName == c.name.GetOr(old(validatedName))
      ensures form == old(form) && lastTransactionId == old(lastTransactionId) && lastExternalRef == old(lastExternalRef)
      ensures successMessage == old(successMessage) && disbursement == old(disbursement) && status == old(status)
      ensures request.Some? ==> NameCheckConsistent()
      ensures old(NameCheckConsistent()) ==> NameCheckConsistent()
    {
      request := ValidationRequestFor(form);
      if request.None? {
        return;
      }
      var c := NameCheckFor(form.accountName, result);
      error := c.error;
      validation := Some(c.validation);
      nameMatches := c.matches;
      validatedName := c.name.GetOr(validatedName);
    }

    /**
      `handleDisburse`. `confirm` is the operator's answer to a question, `now` and
      `nowRecord` the two clock readings, `result` what `transferFunds` returned.
     */
    method Disburse(confirm: bool, now: nat, nowRecord: nat, result: TransferResult)
      returns (request: Option<TransferRequest>, prompt: Prompt, effects: seq<Effect>)
      modifies this
      ensures PreCheckError(old(form)).Some? ==>
        && request.None? && prompt == NoPrompt && effects == [] && error == Text(PreCheckError(old(form)).value)
        && successMessage == old(successMessage) && disbursement == old(disbursement)
      ensures PreCheckError(old(form)).None? ==> prompt == ConfirmPrompt(old(form), old(nameMatches), old(validation).Some?)
      ensures request.Some? <==> PreCheckError(old(form)).None? && (prompt == NoPrompt || confirm)
      ensures request.Some? ==> request.value == TransferRequestFor(old(form), now)
      ensures request.None? && PreCheckError(old(form)).None? ==>
        error == old(error) && successMessage == old(successMessage) && disbursement == old(disbursement)
      ensures request.None? || !(result.success && result.transactionId != "") ==>
        lastTransactionId == old(lastTransactionId) && lastExternalRef == old(lastExternalRef)
      ensures request.Some? && result.success && result.transactionId != "" ==>
        && lastTransactionId == result.transactionId
        && lastExternalRef == OrElse(result.externalRef, OrElse(old(form).reference, GeneratedRef(nowRecord)))
        && error == Absent
        && successMessage == result.message.Or("Transfer completed successfully")
        && disbursement == Some(DisbursedOk(result.transactionId, successMessage,
             OrElse(result.amount, old(form).amount), OrElse(result.currency, old(form).currency),
             result.txstatus, result.externalRef))
        && effects == StatusEffects(old(form), result.txstatus, result.transactionId,
             ScheduleStatusCheck(3000, result.transactionId, OrElse(result.externalRef, old(form).reference)))
      ensures request.Some? && !(result.success && result.transactionId != "") ==>
        && error == result.error.Else(result.message).Or("Transfer failed")
        && successMessage == Absent && disbursement == Some(DisbursedErr(error)) && effects == []
      ensures request.None? ==> effects == []
      ensures form == old(form) && validation == old(validation) && nameMatches == old(nameMatches)
      ensures validatedName == old(validatedName) && status == old(status)
      ensures old(NameCheckConsistent()) ==> NameCheckConsistent()
    {
      request, prompt, effects := None, NoPrompt, [];
      var problem := PreCheckError(form);
      if problem.Some? {
        error := Text(problem.value);
        return;
      }
      prompt := ConfirmPrompt(form, nameMatches, validation.Some?);
      if prompt != NoPrompt && !confirm {
        return;
      }
      request := Some(TransferRequestFor(form, now));
      Record(result, nowRecord);
      assert form == old(form);
      if result.success && result.transactionId != "" {
        effects := StatusEffects(form, result.txstatus, result.transactionId,
          ScheduleStatusCheck(3000, result.transactionId, OrElse(result.externalRef, form.reference)));
      }
    }

    /** What a sent transfer leaves in the session once `transferFunds` has answered. */
    method Record(result: TransferResult, nowRecord: nat)
      modifies this
      ensures !(result.success && result.transactionId != "") ==>
        lastTransactionId == old(lastTransactionId) && lastExternalRef == old(lastExternalRef)
      ensures result.success && result.transactionId != "" ==>
        && lastTransactionId == result.transactionId
        && lastExternalRef == OrElse(result.externalRef, OrElse(old(form).reference, GeneratedRef(nowRecord)))
        && error == Absent
        && successMessage == result.message.Or("Transfer completed successfully")
        && disbursement == Some(DisbursedOk(result.transactionId, successMessage,
             OrElse(result.amount, old(form).amount), OrElse(result.currency, old(form).currency),
             result.txstatus, result.externalRef))
      ensures !(result.success && result.transactionId != "") ==>
        && error == result.error.Else(result.message).Or("Transfer failed")
        && successMessage == Absent && disbursement == Some(DisbursedErr(error))
      ensures form == old(form) && validation == old(validation) && nameMatches == old(nameMatches)
      ensures validatedName == old(validatedName) && status == old(status)
    {
      error := Absent;
      successMessage := Absent;
      disbursement := None;
      if result.success && result.transactionId != "" {
        lastTransactionId := result.transactionId;
        lastExternalRef := OrElse(result.externalRef, OrElse(form.reference, GeneratedRef(nowRecord)));
        var message := result.message.Or("Transfer completed successfully");
        successMessage := message;
        error := Absent;
        disbursement := Some(DisbursedOk(result.transactionId, message,
          OrElse(result.amount, form.amount), OrElse(result.currency, form.currency),
          result.txstatus, result.externalRef));
      } else {
        var message := result.error.Else(result.message).Or("Transfer failed");
        error := message;
        successMessage := Absent;
        disbursement := Some(DisbursedErr(message));
      }
    }

    /**
      `handleCheckStatus(txArg, refArg)`; "" is an omitted argument and `result` is
      what `checkTransferStatus` returned.
     */
    method CheckStatus(txArg: string, refArg: string, result: StatusResult)
      returns (query: Option<StatusQuery>, effects: seq<Effect>)
      modifies this
      ensures query == ChooseQuery(txArg, old(lastTransactionId), refArg, old(lastExternalRef))
      ensures query.None? ==>
        effects == [] && error == Text("No transaction ID or reference available to check status")
        && status == old(status)
      ensures query.Some? && result.success ==>
        && error == Absent
        && status == Some(StatusShown(result.txstatus, result.transactionId, result.externalRef, result.receiver,
             result.receivername, result.amount, result.message, StatusText(result.txstatus)))
        && effects == StatusEffects(form, result.txstatus,
             OrElse(result.transactionId, IdToCheck(txArg, lastTransactionId, refArg, lastExternalRef)),
             ScheduleStatusCheck(5000, txArg, refArg))
      ensures query.Some? && !result.success ==>
        && error == result.error.Else(result.message).Or("Failed to check status")
        && status == Some(StatusErr(result.error.Else(result.message))) && effects == []
      ensures form == old(form) && validation == old(validation) && nameMatches == old(nameMatches)
      ensures validatedName == old(validatedName) && successMessage == old(successMessage)
      ensures lastTransactionId == old(lastTransactionId) && lastExternalRef == old(lastExternalRef)
      ensures disbursement == old(disbursement)
      ensures old(NameCheckConsistent()) ==> NameCheckConsistent()
    {
      effects := [];
      query := ChooseQuery(txArg, lastTransactionId, refArg, lastExternalRef);
      if query.None? {
        error := Text("No transaction ID or reference available to check status");
        return;
      }
      error := Absent;
      status := None;
      var idToCheck := IdToCheck(txArg, lastTransactionId, refArg, lastExternalRef);
      if result.success {
        status := Some(StatusShown(result.txstatus, result.transactionId, result.externalRef, result.receiver,
          result.receivername, result.amount, result.message, StatusText(result.txstatus)));
        effects := StatusEffects(form, result.txstatus, OrElse(result.transactionId, idToCheck),
          ScheduleStatusCheck(5000, txArg, refArg));
      } else {
        error := result.error.Else(result.message).Or("Failed to check status");
        status := Some(StatusErr(result.error.Else(result.message)));
      }
    }
  }
}
