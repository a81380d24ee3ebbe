# Moolre disbursement and SMS integration — a Dafny model

This project models the payment and notification core of a small Next.js
integration with the Moolre payment gateway. An operator uses it to pay out
to bank accounts and mobile-money wallets and to send SMS to a directory of
contacts. The model has four layers.

- **The gateway client** (`lib/moolre-api.ts`, module `Gateway`):
  - the four channel codes (MTN 1, bank 2, Vodafone 6, AirtelTigo 7);
  - `validateAccountName`, `transferFunds` and `checkTransferStatus`. Each refuses to run without `API_KEY`, `USERNAME` and `YOUR_ACCOUNT_NUMBER`, and each maps the gateway's JSON reply, or the exception it threw, to a result record.
- **The server-side proxy handlers** (modules `Routes`, `SmsRoute` and `Contacts`):
  - `transfer`, `status` and `validate` build the gateway payload and forward the gateway's JSON unchanged;
  - `sms` normalises single and bulk messages, picks the sender id, detects a non-JSON reply and normalises the `status` field;
  - `network/contacts` is an in-memory contact list with `GET`, `POST` and `DELETE`. It is class `Contacts.ContactDirectory`, and pure specifications beside it state that stored phones stay distinct and well formed.
- **The disbursement form** (`components/DisbursementForm.tsx`, module `Disbursement`):
  - field editing and the validation it resets;
  - the case- and padding-insensitive account-name comparison;
  - the pre-submission checks and confirmation prompts;
  - the transfer request;
  - the failure and confirmation SMS decided after a transfer;
  - the status check with its re-check by external reference or transaction id;
  - the status text and badge.

  The React state is class `Disbursement.DisbursementSession`. Each handler is a method specified by pure functions.
- **The SMS form** (`components/SMSForm.tsx`, module `SmsForm`):
  - contact selection toggling;
  - the send checks for single-phone and network modes;
  - the bulk list;
  - the 160-character limit;
  - the add-contact checks;
  - the selection clean-up after a delete.

  Its state is class `SmsForm.SmsComposer`.

It also has three supporting modules:

- `Text` holds the JavaScript string operations the code relies on: `trim`, `toLowerCase`, `replace(/\s/g, '')`, `parseInt`, `toString` and `substring`.
- `Phone` holds the phone rule `/^\+?[1-9]\d{1,14}$/`.
- `Js` holds JSON values, truthiness and `||` on strings.

Every network call is an input. The model takes the answer (`Outcome.Received`) or the exception (`Outcome.Thrown`) as a parameter, and returns the request it would have sent (`Exchange.sent`, None when none is sent) beside its reply. Timers, SMS sends and status re-checks are returned as `Effect` values instead of being run.

The gateway's `status` arrives as a number or as a string, and the code treats the two forms differently in different places:

- **The SMS handler** parses a string status before comparing it with 1 (`SmsRoute.NormalizeStatus`, `SmsRoute.StatusFormsAgree`).
- **The gateway client** accepts only the number 1 (`Gateway.StringStatusIsFailure`), and the form's status text reads only numbers.
- **The form's badge** looks the status up as an object key, so it reads every printed number, the strings "1", "0" and "2" among them, like the number itself (`Disbursement.BadgeReadsPrintedNumbers`, `Disbursement.BadgeReadsStringsTextDoesNot`). A string naming a property every object inherits, such as "toString", finds that property instead of the 'Unknown' fallback and shows an empty badge (`Disbursement.InheritedNameShowsEmptyBadge`).

Only the SMS handler reads the gateway's body as text and reports a reply that is not JSON. The other handlers and the client assume JSON.

The form has fields `recipientPhone` and `senderPhone` but no input for them. Both therefore stay `''` unless a caller of the model sets them. The model keeps them as ordinary fields.

## Model

| member | source | states |
|---|---|---|
| Gateway.ChannelCodesDistinct | lib/moolre-api.ts:12-17 | The four channel codes are pairwise distinct, and 0 (the form's initial value) is none of them. |
| Gateway.ValidateAccountName | lib/moolre-api.ts:67-118 | No configuration: fails with the configuration error and sends nothing. Success iff the status is the number 1 and `data` is a non-empty name. The account name is then that name, and the message defaults to 'Account name validated successfully'. On failure the error is the message or 'Validation failed', and the message is the message or 'Unable to validate account name'. An exception becomes a failure with its own fixed text. |
| Gateway.TransferFunds | lib/moolre-api.ts:120-176 | No configuration: fails and sends nothing. Success iff numeric status 1 and `data` is present. A success echoes the request's amount and currency, and takes `externalRef` from the reply, else from the request. An array message is joined with '. '. An exception becomes a failure. |
| Gateway.IdKindName | lib/moolre-api.ts:179-182 | The kind is sent as 'transaction' exactly for a query by transaction id, and as 'external' for a query by external reference. |
| Gateway.CheckTransferStatus | lib/moolre-api.ts:178-230 | No configuration: fails and sends nothing. Success iff numeric status 1 and `data` is present. The receiver is `receiver`, else `payee`. The amount is `amount`, else `value`. Messages are joined. An exception becomes a failure. |
| Gateway.MissingConfigIgnoresReplies | lib/moolre-api.ts:74-80 | Without configuration, every operation gives the same result whatever the gateway would answer, and sends nothing. |
| Gateway.StringStatusIsFailure | lib/moolre-api.ts:152 | The client does not normalise: a transfer reply with the string status "1" is a failure, whatever its data. |
| Gateway.ArrayMessageJoined | lib/moolre-api.ts:214 | A status reply whose message is the array ["a", "b"] reaches the caller as "a. b". |
| Routes.Forward | app/api/moolre/transfer/route.ts:8-63 | The shape shared by the three proxies. A missing configuration answers 500 before the body is read. A body that cannot be read answers 500. Otherwise the built payload is sent, and the gateway's JSON comes back unchanged with 200, or an exception gives 500. |
| Routes.TransferPayloadFor | app/api/moolre/transfer/route.ts:23-39 | type 1, the channel as a string, receiver = accountNumber, the configured account, and the formatted amount. `externalref` is the supplied one or `TXN-<now>`. `reference` is description, else reference, else ''. `sublistid` is the bank code exactly for a bank transfer with a bank code. |
| Routes.TransferPost | app/api/moolre/transfer/route.ts:8-63 | A missing configuration gives 500 with no request. Whatever is sent is the payload above. The reply is forwarded iff configured, the body was read and the gateway answered. What is forwarded is the gateway's JSON unchanged. |
| Routes.SublistIdOnlyForBank | app/api/moolre/transfer/route.ts:35-39 | `sublistid` is non-empty iff the channel is BANK and a bank code is given. It is empty for every other channel. |
| Routes.DescriptionTakesPrecedence | app/api/moolre/transfer/route.ts:30 | A non-empty description is the payload's reference, whatever the reference field holds. |
| Routes.TransferConfigCheckedFirst | app/api/moolre/transfer/route.ts:9-17 | With the configuration missing, the answer does not depend on the body or on the gateway. |
| Routes.StatusIdFor | app/api/moolre/status/route.ts:24-26 | For 'transaction', the id is the integer parse when it is a non-zero number, else the original string. For any other kind, it is the string unchanged. |
| Routes.StatusPayloadFor | app/api/moolre/status/route.ts:28-33 | type 1, `idtype` 2 for 'transaction' and 1 otherwise, the id above, and the configured account. |
| Routes.StatusPost | app/api/moolre/status/route.ts:8-57 | A missing configuration gives 500 with no request. The payload is as above. The gateway's JSON is forwarded unchanged iff it answered. |
| Routes.NumericTransactionIdSentAsNumber | app/api/moolre/status/route.ts:24-26 | A printed non-zero integer sent as a transaction id goes upstream as that number. |
| Routes.ZeroTransactionIdSentAsString | app/api/moolre/status/route.ts:24-26 | "0" parses to the falsy 0, so the string "0" is sent. |
| Routes.ExternalReferenceSentVerbatim | app/api/moolre/status/route.ts:24-30 | An external reference is sent as the unchanged string with `idtype` 1, even when it looks numeric. |
| Routes.ValidatePayloadFor | app/api/moolre/validate/route.ts:23-34 | type 1, receiver, the channel as a string, currency and the configured account. The `sublistid` key is present, equal to the bank code, iff the channel is BANK and the code is non-empty. |
| Routes.ValidatePost | app/api/moolre/validate/route.ts:8-58 | A missing configuration gives 500 with no request. The payload is as above. The gateway's JSON is forwarded unchanged iff it answered. |
| Routes.BankCodeRuleShared | app/api/moolre/validate/route.ts:32-34 | Validation and transfer send the bank code in the same cases. Validation omits the key where transfer sends ''. |
| Routes.ClientQueryReachesGateway | lib/moolre-api.ts:191-194 | The client's query by transaction id, passed through the status proxy, reaches the gateway as `idtype` 2 with the numeric id. |
| SmsRoute.DefaultSenderId | app/api/moolre/sms/route.ts:5 | The default sender id is the configured one, else 'Moolre'. It is never empty. |
| SmsRoute.StripRecipients | app/api/moolre/sms/route.ts:26-29 | Same length. Each entry keeps its message and gets its recipient with all whitespace removed. |
| SmsRoute.MessagesFor | app/api/moolre/sms/route.ts:25-45 | An array wins and is stripped. Otherwise a non-empty recipient and a non-empty message give one stripped entry. The result is None iff there is no array and either the recipient or the message is missing. |
| SmsRoute.SenderIdFor | app/api/moolre/sms/route.ts:50 | The trimmed sender id when it is not blank, else the default. Never empty. |
| SmsRoute.NormalizeStatus | app/api/moolre/sms/route.ts:88 | A number is kept. A string is parsed with `parseInt` (None for NaN). Anything else is None. |
| SmsRoute.NonJsonError | app/api/moolre/sms/route.ts:80 | The prefix followed by the first 200 characters of the body, or the whole body when it is shorter. |
| SmsRoute.SmsPost | app/api/moolre/sms/route.ts:7-116 | No API key: 500 and nothing sent. An unreadable body: 500 with the exception's text. No usable messages: 400 and nothing sent. A request is sent iff configured, the body was read and messages exist. The request is type 1, the sender id and the messages. A thrown upstream call gives 500 with its text. A non-JSON reply gives the upstream code (or 500) and the excerpt. A JSON reply gives `SmsAccepted` with that JSON iff its normalised status is 1. Otherwise it gives `SmsRejected` with the upstream code (or 500), the message or 'Failed to send SMS', and that JSON. |
| SmsRoute.StatusFormsAgree | app/api/moolre/sms/route.ts:88-90 | For every integer n, the printed string of n normalises like the number n, and it is accepted iff n = 1. |
| SmsRoute.PaddedStatusAccepted | app/api/moolre/sms/route.ts:88 | `parseInt` skips leading blanks: " 1" is accepted. |
| SmsRoute.TrailingTextIgnored | app/api/moolre/sms/route.ts:88 | `parseInt` stops at the first non-digit: "1ok" is accepted. |
| SmsRoute.WordStatusRejected | app/api/moolre/sms/route.ts:88-104 | A status without leading digits is NaN and never accepted. |
| SmsRoute.BulkKeepsOrderAndText | app/api/moolre/sms/route.ts:25-31 | A bulk request keeps the number, order and text of the messages, and no recipient contains whitespace. |
| SmsRoute.StripRecipientsIdempotent | app/api/moolre/sms/route.ts:28 | Stripping recipients twice is stripping them once. |
| SmsRoute.SenderIdTrimmed | app/api/moolre/sms/route.ts:50 | Leading whitespace added to a real sender id does not change the id sent. |
| Contacts.IndexOfId | app/api/moolre/network/contacts/route.ts:69 | `findIndex`: -1 iff no contact has the id. Otherwise the first index holding it. |
| Contacts.FirstIndexUnique | app/api/moolre/network/contacts/route.ts:69 | Any index that is the first with the id, or -1 when none has it, is the `findIndex` result. |
| Contacts.PostSpec | app/api/moolre/network/contacts/route.ts:11-55 | A contact is added iff the body was read, the name and phone are non-empty, the phone passes the rule after stripping, and the stripped phone is not already stored. The added contact (trimmed name, stripped phone) is appended at the end. Otherwise the list is unchanged and the answer is an error, 400 for every rejected body. |
| Contacts.DeleteSpec | app/api/moolre/network/contacts/route.ts:57-85 | A missing id gives 400. An unknown id gives 404. In both the list is unchanged. Otherwise the first contact with the id is removed and the rest keep their order. |
| Contacts.PostKeepsDirectoryValid | app/api/moolre/network/contacts/route.ts:32-48 | A POST keeps every stored contact well formed (trimmed name, valid stripped phone) and the stored phones pairwise distinct. |
| Contacts.AppendKeepsValid | app/api/moolre/network/contacts/route.ts:47-48 | Appending a well-formed contact whose phone is new keeps the directory valid. |
| Contacts.DeleteKeepsDirectoryValid | app/api/moolre/network/contacts/route.ts:77-78 | A DELETE keeps the directory valid. |
| Contacts.RemoveAtKeepsValid | app/api/moolre/network/contacts/route.ts:77-78 | Removing any one entry keeps the directory valid. |
| Contacts.DeleteRemovesFirstMatch | app/api/moolre/network/contacts/route.ts:69-78 | A successful DELETE removes exactly one entry, the first with the id. The entries before it and after it are unchanged. |
| Contacts.PostThenDeleteRestores | app/api/moolre/network/contacts/route.ts:32-78 | Deleting a freshly posted contact by its id (an id not already used) restores the directory. |
| Contacts.IndexOfFreshAppended | app/api/moolre/network/contacts/route.ts:69 | An id not yet present, once appended, is found at the last index. |
| Contacts.WhitespaceVariantIsDuplicate | app/api/moolre/network/contacts/route.ts:39-45 | A stored phone posted again behind leading whitespace is rejected as a duplicate, with 400. |
| Contacts.ContactDirectory.constructor | app/api/moolre/network/contacts/route.ts:5 | The list starts empty and valid. |
| Contacts.ContactDirectory.Get | app/api/moolre/network/contacts/route.ts:7-9 | GET answers the stored list and changes nothing. |
| Contacts.ContactDirectory.FindByPhone | app/api/moolre/network/contacts/route.ts:39 | The loop's answer is true iff some stored contact has that phone. |
| Contacts.ContactDirectory.FindIndexById | app/api/moolre/network/contacts/route.ts:69 | The loop returns the first index with the id, or -1, which equals `IndexOfId`. |
| Contacts.ContactDirectory.Post | app/api/moolre/network/contacts/route.ts:11-55 | The new list and the reply are those of `PostSpec`, and validity is kept. |
| Contacts.ContactDirectory.Delete | app/api/moolre/network/contacts/route.ts:57-85 | The new list and the reply are those of `DeleteSpec`, and validity is kept. |
| Disbursement.ApplyEdit | components/DisbursementForm.tsx:62-66 | The edited field takes the new value and every other field is unchanged. |
| Disbursement.EditsOfDifferentFieldsCommute | components/DisbursementForm.tsx:62-66 | Edits of two different fields give the same form in either order. |
| Disbursement.FieldsDetermineForm | components/DisbursementForm.tsx:32-43 | Two forms that agree on the channel and on every text field are equal, so `ApplyEdit` describes the whole new form. |
| Disbursement.NamesMatchIgnoresCase | components/DisbursementForm.tsx:112-114 | An entered name matches its upper-cased form, in both directions. |
| Disbursement.NamesMatchIgnoresLeadingPadding | components/DisbursementForm.tsx:112-114 | Leading whitespace before the entered name does not change whether it matches. |
| Disbursement.NamesMatchLetterByLetter | components/DisbursementForm.tsx:112-114 | Two names without surrounding whitespace, of one length, match when every pair of characters is equal after ASCII lower-casing. |
| Disbursement.LowerCaseEntryMatchesUpperCaseName | components/DisbursementForm.tsx:112-114 | "kwame asante" matches "KWAME ASANTE". |
| Disbursement.DifferentNamesDoNotMatch | components/DisbursementForm.tsx:112-114 | "Kofi" does not match "Kojo". |
| Disbursement.ValidationRequestFor | components/DisbursementForm.tsx:79-100 | A validation is requested iff the channel is BANK and the account number, bank code and account name are all filled. The request carries those values and the currency. |
| Disbursement.NameCheckFor | components/DisbursementForm.tsx:108-134 | A success with a non-empty returned name validates it. The match flag is then the case- and padding-insensitive comparison, with 'Account name matches!' on a match, and the mismatch message and 'Name mismatch. Expected: …' error otherwise. Anything else gives no validation, no name and the error, else the message, else 'Validation failed'. |
| Disbursement.PreCheckError | components/DisbursementForm.tsx:378-393 | No channel, a missing amount or account number, or a bank transfer missing its name or bank code each gives its own error. The error is None iff none of these holds. |
| Disbursement.ConfirmPrompt | components/DisbursementForm.tsx:396-410 | A question is asked iff the transfer is to a bank, an account name is entered, and the name did not match or was not validated. It is the mismatch question iff the name did not match. |
| Disbursement.UnvalidatedPromptUnreachable | components/DisbursementForm.tsx:402-409 | Whenever a match implies a validation, which every state of the session keeps, the second question is never asked. |
| Disbursement.TransferRequestFor | components/DisbursementForm.tsx:421-430 | The request carries the form's fields. Its external reference is the form's reference, else `TXN-<now>`, and is never empty. |
| Disbursement.RecordedReferenceWasSent | components/DisbursementForm.tsx:434 | After a successful transfer, the recorded external reference is the gateway's or the one sent. The fallback from a second clock reading is never reached. |
| Disbursement.FailureText | components/DisbursementForm.tsx:221 | The failure SMS opens with its fixed greeting and ends with the transaction-id line. |
| Disbursement.RecipientText | components/DisbursementForm.tsx:280-285 | The recipient confirmation opens with its fixed greeting and ends with the transaction-id line. |
| Disbursement.SenderText | components/DisbursementForm.tsx:327-332 | The sender confirmation opens with its fixed greeting and ends with the transaction-id line. |
| Disbursement.FailureTextIdentifiesTransaction | components/DisbursementForm.tsx:221 | Different transaction ids give different failure texts. |
| Disbursement.FailureTarget | components/DisbursementForm.tsx:214 | The recipient phone, else the account number for a non-bank channel, else no one. |
| Disbursement.FailureSmsEffects | components/DisbursementForm.tsx:210-260 | Exactly one failure SMS to the target when the target passes the phone rule after stripping, else none. |
| Disbursement.ConfirmationSmsEffects | components/DisbursementForm.tsx:262-373 | One SMS for each of the recipient and sender phones that passes the rule, and no other. The recipient confirmation goes to `recipientPhone` with `RecipientText`. The sender confirmation goes to `senderPhone` with `SenderText`. The two are decided independently, and the recipient's comes first. |
| Disbursement.StatusEffects | components/DisbursementForm.tsx:455-468 | Status 1 sends the confirmations. Status 2 sends the failure SMS. Status 0 schedules the re-check for a bank transfer, and for any other channel sends the failure SMS. Any other status does nothing. A re-check is scheduled iff the status is 0 for a bank transfer, and every SMS goes to a phone that passes the rule. |
| Disbursement.MobileMoneyFailureNotifiesNumberPaid | components/DisbursementForm.tsx:214-216 | A failed mobile-money transfer with no recipient phone notifies the number paid, when that number is a valid phone. |
| Disbursement.BankFailureWithoutPhoneIsSilent | components/DisbursementForm.tsx:214-218 | A failed bank transfer with no recipient phone sends no SMS. |
| Disbursement.NoPhonesNoConfirmation | components/DisbursementForm.tsx:276-326 | With neither phone filled, a successful transfer sends no confirmation. |
| Disbursement.StringStatusDispatchesNothing | components/DisbursementForm.tsx:455-468 | A string `txstatus` (even "1") triggers no SMS and no re-check. |
| Disbursement.StatusText | components/DisbursementForm.tsx:518 | 'Successful' iff the number 1. 'Pending' iff the number 0. 'Failed' otherwise. |
| Disbursement.StatusBadge | components/DisbursementForm.tsx:555-569 | No badge iff the status is undefined. Otherwise the status's property key (`BadgeKey`) decides: "1" gives 'Successful', "0" 'Pending' and "2" 'Failed'. A string naming an `Object.prototype` property gives an empty badge, and only such a string does. Every other key, null's among them, gives 'Unknown'. |
| Disbursement.PrintedNumberNotInherited | components/DisbursementForm.tsx:564 | The key a number, null or undefined status is looked up under is never an inherited property name. |
| Disbursement.InheritedNameShowsEmptyBadge | components/DisbursementForm.tsx:564-568 | "toString" and "__proto__" show an empty badge, unlike an unmapped word, which shows 'Unknown'. |
| Disbursement.BadgeReadsPrintedNumbers | components/DisbursementForm.tsx:564 | For every integer n, the badge of the string printed from n is the badge of the number n. |
| Disbursement.BadgeAndTextOnNumbers | components/DisbursementForm.tsx:518-564 | On the numbers 0, 1 and 2 the badge shows the status text. On any other number the badge is 'Unknown' while the text is 'Failed'. |
| Disbursement.BadgeReadsStringsTextDoesNot | components/DisbursementForm.tsx:518-564 | For n in 0, 1, 2, the string printed from n gets the badge showing the text of the number n, while the text of that string is 'Failed'. |
| Disbursement.IdToCheck | components/DisbursementForm.tsx:490-491 | The first non-empty of the transaction-id argument, the last transaction id, the reference argument and the last external reference, in that order, else the last external reference. It is empty iff all four are. |
| Disbursement.ChooseQuery | components/DisbursementForm.tsx:490-507 | A query by transaction id iff either transaction id is set. Otherwise a query by external reference when either reference is set. Otherwise None. |
| Disbursement.RecheckQueriesItsTransaction | components/DisbursementForm.tsx:490-507 | A re-check given a transaction id queries that id by transaction, whatever else is stored. |
| Disbursement.ExternalOnlyWithoutTransaction | components/DisbursementForm.tsx:490-507 | With no transaction id known, a query goes by external reference: the argument, else the last one recorded. |
| Disbursement.DisbursementSession.constructor | components/DisbursementForm.tsx:32-60 | The initial form (no channel, currency GHS, everything else empty) and no validation, status or errors. |
| Disbursement.DisbursementSession.EditField | components/DisbursementForm.tsx:62-74 | The form becomes `ApplyEdit`. Editing the account number, bank code or account name clears the validation, the match flag and the validated name, and no other edit does. |
| Disbursement.DisbursementSession.ApplyValidation | components/DisbursementForm.tsx:77-152 | Makes the request of `ValidationRequestFor`. When a request is made, the state takes the result of `NameCheckFor`. |
| Disbursement.DisbursementSession.Record | components/DisbursementForm.tsx:413-480 | The error, success message and result are cleared first. On success with a transaction id, the ids are recorded, the message defaults to 'Transfer completed successfully' and the result is `DisbursedOk` with amount and currency falling back to the form's. Otherwise the ids are kept and the error is the error, else the message, else 'Transfer failed'. Form, validation and status are unchanged. |
| Disbursement.DisbursementSession.Disburse | components/DisbursementForm.tsx:375-487 | A pre-check error is recorded and nothing is sent, with the success message and result unchanged. A declined prompt sends nothing and changes nothing. Otherwise it sends `TransferRequestFor`. On success with a transaction id, it records the ids and returns `StatusEffects` with the 3000 ms re-check. Otherwise the error becomes the error, else the message, else 'Transfer failed'. Form and validation are unchanged. |
| Disbursement.DisbursementSession.CheckStatus | components/DisbursementForm.tsx:489-553 | With no id it sets its error and sends nothing. Otherwise it sends `ChooseQuery`. On success it shows the status with `StatusText` and returns the effects with the 5000 ms re-check of the same arguments. On failure it records the error, else the message, else 'Failed to check status'. |
| SmsForm.RemoveAll | components/SMSForm.tsx:127 | The filter's result is no longer than the selection, no longer holds the id, and holds every other id exactly when the selection does. |
| SmsForm.RemoveAllOfAbsent | components/SMSForm.tsx:127 | Filtering out an absent id changes nothing. |
| SmsForm.RemoveAllAppend | components/SMSForm.tsx:127 | The filter distributes over concatenation. |
| SmsForm.RemoveAllKeepsNoDuplicates | components/SMSForm.tsx:127 | Filtering keeps a duplicate-free selection duplicate-free. |
| SmsForm.AppendFreshKeepsNoDuplicates | components/SMSForm.tsx:129 | Appending an absent id keeps the selection duplicate-free. |
| SmsForm.Toggle | components/SMSForm.tsx:124-132 | The id is in the result iff it was not selected, every other id is kept as it was, and an unselected id is appended at the end. |
| SmsForm.ToggleTwiceRestores | components/SMSForm.tsx:124-132 | Toggling an unselected id twice restores the selection. |
| SmsForm.ToggleKeepsNoDuplicates | components/SMSForm.tsx:124-132 | Toggling keeps the selection duplicate-free. |
| SmsForm.SelectedContacts | components/SMSForm.tsx:195-196 | Exactly the directory contacts whose id is selected. Their order is the directory's, by `SelectedContactsAppend`. |
| SmsForm.SelectedContactsAppend | components/SMSForm.tsx:195-196 | A contact added at the end of the directory appears at the end of the selected contacts when its id is selected, and not at all otherwise. |
| SmsForm.EmptySelectionSelectsNothing | components/SMSForm.tsx:195-196 | For every directory, selecting nothing gives no contacts. |
| SmsForm.SelectedContactsExtremes | components/SMSForm.tsx:195-196 | Selecting nothing gives no contacts. Selecting every id gives the whole directory. |
| SmsForm.BulkMessages | components/SMSForm.tsx:194-198 | One entry per selected contact, in the same order, addressed to that contact's phone and carrying the one message. |
| SmsForm.BulkMessagesGoToSelected | components/SMSForm.tsx:194-198 | Every bulk entry is the message addressed to the phone of some directory contact whose id is selected. |
| SmsForm.BulkListReachesGatewayUnchanged | components/SMSForm.tsx:194-204 | For a valid directory, the SMS proxy forwards the bulk list exactly as built, because stored phones carry no whitespace. |
| SmsForm.LengthLimitBoundary | components/SMSForm.tsx:238-240 | 160 characters is allowed and 161 is too long. |
| SmsForm.SendCheck | components/SMSForm.tsx:137-158 | An empty message, a missing or invalid phone in phone mode, and an empty selection in network mode each give their own error. The result is None iff the send may go ahead. |
| SmsForm.SendRequestFor | components/SMSForm.tsx:160-204 | Phone mode sends the recipient, message and sender id. Network mode sends the bulk list and the sender id. |
| SmsForm.SentRequestIsWellFormed | components/SMSForm.tsx:137-204 | A request that passed the checks is one the proxy accepts: it yields messages. |
| SmsForm.StaleSelectionPostsEmptyList | components/SMSForm.tsx:150-198 | With a non-empty selection that names no directory contact, the checks pass and an empty bulk list is posted. |
| SmsForm.AddContactCheck | components/SMSForm.tsx:62-71 | A missing name or phone, or an invalid phone, gives its error. The result is None iff the contact may be posted. |
| SmsForm.AddContactChecksAgree | app/api/moolre/network/contacts/route.ts:16-30 | For every name and phone, the client check passes iff the directory either adds the contact or rejects it only as a duplicate phone. |
| SmsForm.SendFailureText | components/SMSForm.tsx:181-232 | A failed reply shows its error, else its message, else 'Failed to send SMS'. A thrown exception shows its message, even an empty one, and a non-Error throw shows 'Failed to send SMS'. |
| SmsForm.SmsComposer.constructor | components/SMSForm.tsx:24-38 | Phone mode, empty fields, no contacts, no selection, an empty entry form that is hidden, and no error. |
| SmsForm.SmsComposer.Load | components/SMSForm.tsx:45-58 | A successful list replaces the contacts. Otherwise the contacts are unchanged. |
| SmsForm.SmsComposer.EditField | components/SMSForm.tsx:118-122 | The edited field takes the value, the error is cleared, and nothing else changes. |
| SmsForm.SmsComposer.SetMode | components/SMSForm.tsx:265-285 | Switches the mode and clears the error. Fields, contacts and selection are unchanged. |
| SmsForm.SmsComposer.SelectContact | components/SMSForm.tsx:124-132 | The selection becomes `Toggle`. It stays duplicate-free. |
| SmsForm.SmsComposer.SendSms | components/SMSForm.tsx:134-236 | A failing check sets its error and sends nothing. Otherwise it sends `SendRequestFor`. A phone send that is delivered resets all fields. A network send that is delivered clears the message and the selection. A failure sets `SendFailureText`. |
| SmsForm.SmsComposer.AddContact | components/SMSForm.tsx:60-101 | A failing check sets its error and sends nothing. A success clears the entry fields, hides the form and reloads the list. A failure sets the error. |
| SmsForm.SmsComposer.DeleteContact | components/SMSForm.tsx:103-116 | A successful delete reloads the list and removes the id from the selection. A failure leaves the selection. |
| Phone.ValidPhoneShape | app/api/moolre/network/contacts/route.ts:24 | A valid phone has 2 to 16 characters, all digits except an optional leading '+', and no whitespace. |
| Phone.ValidPhoneIsClean | app/api/moolre/network/contacts/route.ts:24-25 | A valid phone is unchanged by whitespace removal. |
| Phone.PhoneInputIgnoresWhitespace | components/SMSForm.tsx:148-149 | Whitespace inserted anywhere in an input does not change whether it passes. |
| Phone.AllWhitespaceRemoved | app/api/moolre/network/contacts/route.ts:25 | A string made only of whitespace is removed entirely. |
| Phone.DigitStringsAccepted | app/api/moolre/network/contacts/route.ts:24 | 2 to 15 digits not starting with 0 pass, with or without a leading '+'. |
| Phone.RejectedShapes | app/api/moolre/network/contacts/route.ts:24 | The empty input, a lone '+', any digits starting with 0, and a single digit are all rejected. |
| Js.Message.Joined | lib/moolre-api.ts:156 | A scalar message passes through unchanged. An array becomes the text of its parts joined with '. '. |
| Js.JoinedSingleton | lib/moolre-api.ts:156 | A one-element array joins to that element. |
| Js.JoinedIdempotent | lib/moolre-api.ts:156 | Joining an already joined message changes nothing. |
| Js.Message.Else | components/DisbursementForm.tsx:471 | `a \|\| b` on messages: a when truthy, else b. |
| Js.Message.Or | lib/moolre-api.ts:107 | A message with a literal fallback: the message's text when truthy, else the fallback. |
| Js.OrElse | app/api/moolre/transfer/route.ts:29 | `a \|\| b` on strings: a when non-empty, else b. |
| Js.ThrownText | lib/moolre-api.ts:111-117 | The caught error's message when there is one, else 'Network error'. |
| Js.GeneratedRef | app/api/moolre/transfer/route.ts:29 | `TXN-` followed by the printed clock reading, so it is never empty. |
| Text.RemoveWhitespace | app/api/moolre/sms/route.ts:28 | `replace(/\s/g, '')`: the result contains no whitespace and is no longer than the input. |
| Text.RemoveWhitespaceIdempotent | app/api/moolre/sms/route.ts:28 | Removing whitespace twice is removing it once. |
| Text.Trim | app/api/moolre/network/contacts/route.ts:34 | `trim()`: the result is the slice of the input between a whitespace-only margin on each side, and has no whitespace at either end. |
| Text.TrimOfPadded | app/api/moolre/network/contacts/route.ts:34 | Surrounding a trimmed string with whitespace on both sides and trimming gives the string back. |
| Text.TrimIdempotent | app/api/moolre/network/contacts/route.ts:34 | Trimming twice is trimming once. |
| Text.ToLower | components/DisbursementForm.tsx:112-113 | `toLowerCase()`: same length, and each character is replaced by its lower-case form. |
| Text.ParseInt | app/api/moolre/status/route.ts:25 | `parseInt`: NaN (None) iff no digit follows the leading whitespace and the optional sign. |
| Text.IntToString | app/api/moolre/transfer/route.ts:25 | `toString()` on an integer is never empty. `ParseIntOfIntToString` shows that `parseInt` reads it back. |
| Text.LeadingDigitsOfDigitsThen | app/api/moolre/sms/route.ts:88 | The run of digits `parseInt` reads ends at the first non-digit: digits followed by text that starts with a non-digit yield exactly those digits. |
| Text.ParseIntIgnoresTail | app/api/moolre/sms/route.ts:88 | `parseInt` of digits followed by text starting with a non-digit is the value of those digits. |
| Text.ParseIntOfIntToString | app/api/moolre/status/route.ts:25 | `parseInt` reverses `toString` for every integer. |
| Text.Prefix | app/api/moolre/sms/route.ts:80 | `substring(0, n)`: the first n characters, or the whole string when it is shorter. |
| Text.Join | lib/moolre-api.ts:156 | `join(sep)`: a single part joins to itself, and no parts join to ''. `JoinAppend` gives every longer case. |
| Text.JoinAppend | lib/moolre-api.ts:156 | Joining one more part appends the separator and that part to the join of the others. |

## Left out

- Network calls (`fetch`) are not performed. Each gateway or proxy answer is a parameter, and the model returns the request it would have sent. Status-code plumbing beyond the codes the handlers return is not modelled.
- JSON parsing in the SMS handler is an input: the parsed reply, or None when the body is not JSON.
- Timers (`setTimeout`/`clearTimeout`) are not modelled. A scheduled status re-check is returned as a `ScheduleStatusCheck` effect with its delay.
- The 500 ms debounce of the name check, and when the effect fires again, are not modelled. `ApplyValidation` is the timer callback firing on the current form.
- Concurrency is not modelled:
  - the interleaving of asynchronous React state updates;
  - the parallel SMS sends and the timing of their completion counters (`isSendingSMS`, the SMS counts and the per-SMS result records);
  - a status re-check that outlives the transfer it was scheduled for. No re-check is ever cancelled, and repeated pending answers would poll without bound.
  - the form a scheduled re-check reads. In the code, the timer calls the handler captured by the render that scheduled it (DisbursementForm.tsx lines 462-464 and 525-527), so the re-check reads the form as it was then. `Disbursement.DisbursementSession.CheckStatus` reads the session's current form, which differs only if the form was edited in between.
- `window.confirm` is a boolean parameter.
- `Date.now()` and `Math.random()` are not modelled as such.
  - Clock readings are parameters (`now`, `nowRecord`).
  - The contact id is a parameter (`newId`). The code does not guarantee ids are unique, so the model does not assume it.
  - `toISOString` time stamps go only into the SMS completion records, which are left out.
- `parseFloat(amount).toFixed(2)` is a formatting function passed in as `formatAmount`, so floating point is not modelled.
- `ParseInt` reads only decimal digits. The hexadecimal `0x` prefix, radix detection and results too large for a double are not modelled, nor is the fractional part that `parseInt` would stop at.
- Text.ToLower: maps only the ASCII letters. Unicode case mapping is not modelled.
- String lengths count characters. JavaScript counts UTF-16 code units, which differ outside the Basic Multilingual Plane; this affects the 160-character limit and the 200-character excerpt.
- JSON values are modelled as `JsValue` (undefined, null, integer or string). Booleans, objects and fractional numbers in gateway fields are not modelled.
- In the SMS handler, the gateway's other JSON fields are spread over the reply and could override `success` and `error`. The model keeps the gateway's data beside the handler's verdict rather than merging the two objects.
- `handleValidateName` is not modelled, because no control in the form calls it. The automatic check in the effect covers the same comparison.
- The `catch` blocks of `handleDisburse`, `handleCheckStatus` and the name-check effect are not modelled. The client functions they call catch every exception themselves.
- The response panel is not modelled (`setResponse`, the recipient and sender SMS responses); it only holds replies for display.
- The rendering is not modelled: the JSX of both forms, every component under `components/ui` (including the status display in `components/ui/ResponseDisplay.tsx`, whose one decision repeats the SMS handler's normalisation) and `app/page.tsx`.
- The HTML `maxLength` attributes on the inputs are not modelled.
- Console logging is not modelled. Environment variables are a `Config` / `SmsConfig` record in which '' means unset.
- `SmsForm.SendReply` is an abstraction of the proxy's JSON as the form reads it (`ok`, `success`, `error`, `message`). The form is not composed with `SmsRoute.SmsPost` beyond `SmsForm.BulkListReachesGatewayUnchanged` and `SmsForm.SentRequestIsWellFormed`.
- Disbursement.FailureText: its contract states the fixed opening and the closing transaction-id line, not the whole wording, which the body holds.
- Disbursement.RecipientText: its contract states the fixed opening and the closing transaction-id line, not the whole wording with the amount and reference.
- Disbursement.SenderText: its contract states the fixed opening and the closing transaction-id line, not the whole wording with the amount and recipient.
