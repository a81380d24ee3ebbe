/**
  The SMS form (components/SMSForm.tsx): a message goes either to one typed
  phone number or to the contacts selected from the directory. The form checks
  its input before sending, builds the bulk list from the selection, and keeps
  the selection free of repeated ids.
 */
module SmsForm {
  import opened Wrappers
  import opened Text
  import opened Js
  import opened Phone
  import opened Contacts
  import opened SmsRoute

  // ---------------------------------------------------------------- the selection

  predicate NoDuplicates(s: seq<string>) {
    forall i, j :: 0 <= i < j < |s| ==> s[i] != s[j]
  }

  /** `sel.filter(x => x !== id)` */
  function RemoveAll(sel: seq<string>, id: string): (r: seq<string>)
    ensures |r| <= |sel|
    ensures id !in r
    ensures forall x :: x != id ==> (x in r <==> x in sel)
  {
    if sel == [] then []
    else (if sel[0] == id then [] else [sel[0]]) + RemoveAll(sel[1..], id)
  }

  /** Filtering out an id that is not there changes nothing. */
  lemma {:induction false} RemoveAllOfAbsent(sel: seq<string>, id: string)
    requires id !in sel
    ensures RemoveAll(sel, id) == sel
  {
    if sel != [] {
      assert sel[0] != id;
      RemoveAllOfAbsent(sel[1..], id);
    }
  }

  lemma {:induction false} RemoveAllAppend(a: seq<string>, b: seq<string>, id: string)
    ensures RemoveAll(a + b, id) == RemoveAll(a, id) + RemoveAll(b, id)
  {
    if a == [] {
      assert a + b == b;
    } else {
      assert (a + b)[0] == a[0];
      assert (a + b)[1..] == a[1..] + b;
      RemoveAllAppend(a[1..], b, id);
    }
  }

  lemma {:induction false} RemoveAllKeepsNoDuplicates(sel: seq<string>, id: string)
    requires NoDuplicates(sel)
    ensures NoDuplicates(RemoveAll(sel, id))
  {
    if sel != [] {
      var tail := sel[1..];
      assert NoDuplicates(tail) by {
        forall i, j | 0 <= i < j < |tail|
          ensures tail[i] != tail[j]
        {
          assert tail[i] == sel[i + 1] && tail[j] == sel[j + 1];
        }
      }
      RemoveAllKeepsNoDuplicates(tail, id);
      assert sel[0] !in tail by {
        forall j | 0 <= j < |tail|
          ensures tail[j] != sel[0]
        {
          assert tail[j] == sel[j + 1];
        }
      }
      var rest := RemoveAll(tail, id);
      if sel[0] != id {
        assert sel[0] !in rest;
        AppendFreshKeepsNoDuplicates([sel[0]], rest);
      } else {
        assert [] + rest == rest;
      }
    }
  }

  lemma AppendFreshKeepsNoDuplicates(a: seq<string>, b: seq<string>)
    requires NoDuplicates(a) && NoDuplicates(b)
    requires forall x :: x in a ==> x !in b
    ensures NoDuplicates(a + b)
  {
    var ab := a + b;
    forall i, j | 0 <= i < j < |ab|
      ensures ab[i] != ab[j]
    {
      if j < |a| {
        assert ab[i] == a[i] && ab[j] == a[j];
      } else if i >= |a| {
        assert ab[i] == b[i - |a|] && ab[j] == b[j - |a|];
      } else {
        assert ab[i] == a[i] && ab[j] == b[j - |a|];
        assert a[i] in a;
      }
    }
  }

  /** `handleContactSelect`: an unselected id is appended, a selected one is removed everywhere. */
  function Toggle(sel: seq<string>, id: string): (r: seq<string>)
    ensures id in r <==> id !in sel
    ensures forall x :: x != id ==> (x in r <==> x in sel)
    ensures id !in sel ==> r == sel + [id]
  {
    if id in sel then RemoveAll(sel, id) else sel + [id]
  }

  /** Selecting and then deselecting a contact restores the selection exactly. */
  lemma ToggleTwiceRestores(sel: seq<string>, id: string)
    requires id !in sel
    ensures Toggle(Toggle(sel, id), id) == sel
  {
    RemoveAllAppend(sel, [id], id);
    RemoveAllOfAbsent(sel, id);
    assert RemoveAll([id], id) == [];
  }

  /** The selection never holds an id twice. */
  lemma ToggleKeepsNoDuplicates(sel: seq<string>, id: string)
    requires NoDuplicates(sel)
    ensures NoDuplicates(Toggle(sel, id))
  {
    if id in sel {
      RemoveAllKeepsNoDuplicates(sel, id);
    } else {
      AppendFreshKeepsNoDuplicates(sel, [id]);
    }
  }

  // ---------------------------------------------------------------- the bulk list

  /** `networkContacts.filter(c => selectedContactIds.includes(c.id))` */
  function SelectedContacts(contacts: seq<Contact>, sel: seq<string>): (r: seq<Contact>)
    ensures |r| <= |contacts|
    ensures forall c :: c in r <==> c in contacts && c.id in sel
  {
    if contacts == [] then []
    else (if contacts[0].id in sel then [contacts[0]] else []) + SelectedContacts(contacts[1..], sel)
  }

  /** The filter keeps directory order: a contact added at the end is selected at the end. */
  lemma {:induction false} SelectedContactsAppend(contacts: seq<Contact>, c: Contact, sel: seq<string>)
    ensures SelectedContacts(contacts + [c], sel) ==
      SelectedContacts(contacts, sel) + (if c.id in sel then [c] else [])
  {
    if contacts == [] {
      assert [] + [c] == [c];
    } else {
      assert (contacts + [c])[0] == contacts[0];
      assert (contacts + [c])[1..] == contacts[1..] + [c];
      SelectedContactsAppend(contacts[1..], c, sel);
    }
  }

  /** An empty selection selects nothing, whatever the directory holds. */
  lemma {:induction false} EmptySelectionSelectsNothing(contacts: seq<Contact>)
    ensures SelectedContacts(contacts, []) == []
  {
    if contacts != [] {
      EmptySelectionSelectsNothing(contacts[1..]);
    }
  }

  /** An empty selection selects nothing, and selecting every id selects the whole directory. */
  lemma {:induction false} SelectedContactsExtremes(contacts: seq<Contact>, sel: seq<string>)
    requires forall i :: 0 <= i < |contacts| ==> contacts[i].id in sel
    ensures SelectedContacts(contacts, sel) == contacts
    ensures SelectedContacts(contacts, []) == []
  {
    EmptySelectionSelectsNothing(contacts);
    if contacts != [] {
      SelectedContactsExtremes(contacts[1..], sel);
    }
  }

  /** `selectedContacts.map(c => ({recipient: c.phone, message}))` */
  function BulkMessages(contacts: seq<Contact>, sel: seq<string>, message: string): (r: seq<SmsEntry>)
    ensures |r| == |SelectedContacts(contacts, sel)|
    ensures forall i :: 0 <= i < |r| ==>
      r[i].recipient == SelectedContacts(contacts, sel)[i].phone && r[i].message == message
  {
    var chosen := SelectedContacts(contacts, sel);
    seq(|chosen|, i requires 0 <= i < |chosen| => SmsEntry(chosen[i].phone, message))
  }

  /** Every bulk entry goes to a selected directory contact and carries the one message typed. */
  lemma BulkMessagesGoToSelected(contacts: seq<Contact>, sel: seq<string>, message: string, i: nat)
    requires i < |BulkMessages(contacts, sel, message)|
    ensures var e := BulkMessages(contacts, sel, message)[i];
      exists c :: c in contacts && c.id in sel && e == SmsEntry(c.phone, message)
  {
    var c := SelectedContacts(contacts, sel)[i];
    assert c in SelectedContacts(contacts, sel);
  }

  /**
    Stored phones are already clean, so the SMS handler's whitespace removal leaves
    the bulk list the form built unchanged.
   */
  lemma BulkListReachesGatewayUnchanged(contacts: seq<Contact>, sel: seq<string>, message: string, senderId: string)
    requires ValidDirectory(contacts)
    ensures var bulk := BulkMessages(contacts, sel, message);
      MessagesFor(SmsBody("", "", senderId, Some(bulk))) == Some(bulk)
  {
    var bulk := BulkMessages(contacts, sel, message);
    var chosen := SelectedContacts(contacts, sel);
    forall i | 0 <= i < |bulk|
      ensures StripRecipients(bulk)[i] == bulk[i]
    {
      assert chosen[i] in chosen;
      var k :| 0 <= k < |contacts| && contacts[k] == chosen[i];
      assert WellFormed(contacts[k]);
      ValidPhoneIsClean(chosen[i].phone);
    }
    assert StripRecipients(bulk) == bulk;
  }

  // ---------------------------------------------------------------- checks

  const MAX_MESSAGE_LENGTH: nat := 160

  /** `characterCount > maxLength` */
  predicate IsMessageTooLong(message: string) {
    |message| > MAX_MESSAGE_LENGTH
  }

  /** The send button: disabled for an overlong message or while a send is in flight. */
  predicate SubmitDisabled(message: string, sending: bool) {
    IsMessageTooLong(message) || sending
  }

  /** 160 characters still fit; one more disables sending. */
  lemma LengthLimitBoundary(message: string, c: char)
    requires |message| == MAX_MESSAGE_LENGTH
    ensures !SubmitDisabled(message, false)
    ensures SubmitDisabled(message + [c], false)
  {
  }

  datatype SendMode = PhoneMode | NetworkMode

  datatype SmsFields = SmsFields(recipient: string, message: string, senderId: string)

  const EMPTY_FIELDS: SmsFields := SmsFields("", "", "")

  /** The first pre-send error that applies, if any. */
  function SendCheck(mode: SendMode, fields: SmsFields, sel: seq<string>): (e: Option<string>)
    ensures e.None? <==>
      && fields.message != ""
      && (mode == PhoneMode ==> IsPhoneInput(fields.recipient))
      && (mode == NetworkMode ==> sel != [])
    ensures fields.message == "" ==> e == Some("Message is required")
    ensures fields.message != "" && mode == PhoneMode && fields.recipient == "" ==>
      e == Some("Recipient phone number is required")
    ensures fields.message != "" && mode == PhoneMode && fields.recipient != "" && !IsPhoneInput(fields.recipient) ==>
      e == Some("Please enter a valid phone number")
    ensures fields.message != "" && mode == NetworkMode && sel == [] ==>
      e == Some("Please select at least one contact from your network")
  {
    RejectedShapes("");
    if fields.message == "" then Some("Message is required")
    else match mode
      case PhoneMode =>
        if fields.recipient == "" then Some("Recipient phone number is required")
        else if !IsPhoneInput(fields.recipient) then Some("Please enter a valid phone number")
        else None
      case NetworkMode =>
        if |sel| == 0 then Some("Please select at least one contact from your network") else None
  }

  /** The body the form posts to the SMS handler, or None when a check fails. */
  function SendRequestFor(mode: SendMode, fields: SmsFields, contacts: seq<Contact>, sel: seq<string>)
    : (r: Option<SmsBody>)
    ensures r.None? <==> SendCheck(mode, fields, sel).Some?
    ensures r.Some? && mode == PhoneMode ==> r.value == SmsBody(fields.recipient, fields.message, fields.senderId, None)
    ensures r.Some? && mode == NetworkMode ==>
      r.value == SmsBody("", "", fields.senderId, Some(BulkMessages(contacts, sel, fields.message)))
  {
    if SendCheck(mode, fields, sel).Some? then None
    else if mode == PhoneMode then Some(SmsBody(fields.recipient, fields.message, fields.senderId, None))
    else Some(SmsBody("", "", fields.senderId, Some(BulkMessages(contacts, sel, fields.message))))
  }

  /**
    What the form lets through the handler accepts as a request: it is never
    answered "Either (recipient and message) or messages array is required".
   */
  lemma SentRequestIsWellFormed(mode: SendMode, fields: SmsFields, contacts: seq<Contact>, sel: seq<string>)
    requires SendRequestFor(mode, fields, contacts, sel).Some?
    ensures MessagesFor(SendRequestFor(mode, fields, contacts, sel).value).Some?
  {
    RejectedShapes("");
  }

  /** A selection whose contacts were all deleted still passes the check and posts an empty list. */
  lemma StaleSelectionPostsEmptyList(fields: SmsFields, sel: seq<string>)
    requires fields.message != "" && sel != []
    ensures SendRequestFor(NetworkMode, fields, [], sel) == Some(SmsBody("", "", fields.senderId, Some([])))
  {
  }

  /** `handleAddContact`'s checks. */
  function AddContactCheck(name: string, phone: string): (e: Option<string>)
    ensures e.None? <==> name != "" && phone != "" && IsPhoneInput(phone)
    ensures name == "" || phone == "" ==> e == Some("Name and phone are required")
    ensures name != "" && phone != "" && !IsPhoneInput(phone) ==> e == Some("Please enter a valid phone number")
  {
    if name == "" || phone == "" then Some("Name and phone are required")
    else if !IsPhoneInput(phone) then Some("Please enter a valid phone number")
    else None
  }

  /**
    The form and the directory apply the same rules: what the form lets through is
    either stored or refused only as a duplicate, and what it refuses the directory
    would refuse as well.
   */
  lemma AddContactChecksAgree(cs: seq<Contact>, name: string, phone: string, newId: string)
    ensures var reply := PostSpec(cs, Received(ContactBody(name, phone)), newId).reply;
      AddContactCheck(name, phone).None? <==>
        reply.ContactAdded? || reply == ContactError(400, "Contact with this phone number already exists")
  {
  }

  // ---------------------------------------------------------------- the form's state

  /** Only the codes and fields of an SMS answer the form reads. */
  datatype SendReply = SendReply(ok: bool, success: bool, error: string, message: string)

  /** `response.ok && data.success` */
  predicate Delivered(reply: Outcome<SendReply>) {
    reply.Received? && reply.value.ok && reply.value.success
  }

  /** `data.error || data.message || 'Failed to send SMS'`, or the exception's message. */
  function SendFailureText(reply: Outcome<SendReply>): (t: string)
    ensures reply.Received? ==> t == OrElse(reply.value.error, OrElse(reply.value.message, "Failed to send SMS"))
    ensures reply.Received? ==> t != ""
    ensures reply.Thrown? ==> t == reply.reason.GetOr("Failed to send SMS")
  {
    match reply
    case Thrown(reason) => reason.GetOr("Failed to send SMS")
    case Received(r) => OrElse(r.error, OrElse(r.message, "Failed to send SMS"))
  }

  /** `response.ok` for the directory's answers. */
  predicate DirectoryOk(reply: Outcome<ContactReply>) {
    reply.Received? && !reply.value.ContactError?
  }

  datatype FieldName = RecipientField | MessageField | SenderIdField

  class SmsComposer {
    var mode: SendMode
    var fields: SmsFields
    var contacts: seq<Contact>
    var selected: seq<string>
    var newName: string
    var newPhone: string
    var showAddContact: bool
    var error: string

    ghost predicate Valid()
      reads this
    {
      NoDuplicates(selected)
    }

    constructor ()
      ensures mode == PhoneMode && fields == EMPTY_FIELDS && contacts == [] && selected == []
      ensures newName == "" && newPhone == "" && !showAddContact && error == ""
      ensures Valid()
    {
      mode := PhoneMode;
      fields := EMPTY_FIELDS;
      contacts := [];
      selected := [];
      newName := "";
      newPhone := "";
      showAddContact := false;
      error := "";
    }

    /** `loadContacts`: an answered list replaces the contacts, a failed load keeps them. */
    method Load(list: Option<seq<Contact>>)
      modifies this
      ensures contacts == list.GetOr(old(contacts))
      ensures mode == old(mode) && fields == old(fields) && selected == old(selected) && error == old(error)
      ensures newName == old(newName) && newPhone == old(newPhone) && showAddContact == old(showAddContact)
    {
      contacts := list.GetOr(contacts);
    }

    /** `handleInputChange`: one field takes the value and the error is cleared. */
    method EditField(field: FieldName, value: string)
      modifies this
      ensures fields == match field
        case RecipientField => old(fields).(recipient := value)
        case MessageField => old(fields).(message := value)
        case SenderIdField => old(fields).(senderId := value)
      ensures error == ""
      ensures mode == old(mode) && contacts == old(contacts) && selected == old(selected)
      ensures newName == old(newName) && newPhone == old(newPhone) && showAddContact == old(showAddContact)
    {
      match field {
        case RecipientField => fields := fields.(recipient := value);
        case MessageField => fields := fields.(message := value);
        case SenderIdField => fields := fields.(senderId := value);
      }
      error := "";
    }

    /** The two mode buttons: switch the mode and clear the error. */
    method SetMode(m: SendMode)
      modifies this
      ensures mode == m && error == ""
      ensures fields == old(fields) && contacts == old(contacts) && selected == old(selected)
      ensures newName == old(newName) && newPhone == old(newPhone) && showAddContact == old(showAddContact)
    {
      mode := m;
      error := "";
    }

    /** `handleContactSelect` */
    method SelectContact(id: string)
      requires Valid()
      modifies this
      ensures Valid()
      ensures selected == Toggle(old(selected), id)
      ensures mode == old(mode) && fields == old(fields) && contacts == old(contacts) && error == old(error)
      ensures newName == old(newName) && newPhone == old(newPhone) && showAddContact == old(showAddContact)
    {
      ToggleKeepsNoDuplicates(selected, id);
      selected := Toggle(selected, id);
    }

    /** `handleSendSMS`; `reply` is the SMS handler's answer, or the exception. */
    method SendSms(reply: Outcome<SendReply>) returns (request: Option<SmsBody>)
      requires Valid()
      modifies this
      ensures Valid()
      ensures request == SendRequestFor(old(mode), old(fields), old(contacts), old(selected))
      ensures request.None? ==>
        error == SendCheck(old(mode), old(fields), old(selected)).value
        && fields == old(fields) && selected == old(selected)
      ensures request.Some? && Delivered(reply) && old(mode) == PhoneMode ==>
        error == "" && fields == EMPTY_FIELDS && selected == old(selected)
      ensures request.Some? && Delivered(reply) && old(mode) == NetworkMode ==>
        error == "" && fields == old(fields).(message := "") && selected == []
      ensures request.Some? && !Delivered(reply) ==>
        error == SendFailureText(reply) && fields == old(fields) && selected == old(selected)
      ensures mode == old(mode) && contacts == old(contacts)
      ensures newName == old(newName) && newPhone == old(newPhone) && showAddContact == old(showAddContact)
    {
      request := SendRequestFor(mode, fields, contacts, selected);
      var problem := SendCheck(mode, fields, selected);
      if problem.Some? {
        error := problem.value;
        return;
      }
      error := "";
      if !Delivered(reply) {
        error := SendFailureText(reply);
        return;
      }
      if mode == PhoneMode {
        fields := EMPTY_FIELDS;
      } else {
        fields := fields.(message := "");
        selected := [];
      }
    }

    /** `handleAddContact`; `reply` is the directory's answer and `list` the reload that follows success. */
    method AddContact(reply: Outcome<ContactReply>, list: Option<seq<Contact>>) returns (request: Option<ContactBody>)
      requires Valid()
      modifies this
      ensures Valid()
      ensures request.None? <==> AddContactCheck(old(newName), old(newPhone)).Some?
      ensures request.None? ==>
        error == AddContactCheck(old(newName), old(newPhone)).value && contacts == old(contacts)
        && newName == old(newName) && newPhone == old(newPhone) && showAddContact == old(showAddContact)
      ensures request.Some? ==> request.value == ContactBody(old(newName), old(newPhone))
      ensures request.Some? && DirectoryOk(reply) ==>
        error == "" && contacts == list.GetOr(old(contacts))
        && newName == "" && newPhone == "" && !showAddContact
      ensures request.Some? && !DirectoryOk(reply) ==>
        && contacts == old(contacts) && newName == old(newName) && newPhone == old(newPhone)
        && showAddContact == old(showAddContact)
        && error == match reply
             case Thrown(reason) => reason.GetOr("Failed to add contact")
             case Received(r) => OrElse(r.error, "Failed to add contact")
      ensures mode == old(mode) && fields == old(fields) && selected == old(selected)
    {
      var problem := AddContactCheck(newName, newPhone);
      if problem.Some? {
        error := problem.value;
        return None;
      }
      request := Some(ContactBody(newName, newPhone));
      error := "";
      match reply
      case Thrown(reason) =>
        error := reason.GetOr("Failed to add contact");
      case Received(r) =>
        if r.ContactError? {
          error := OrElse(r.error, "Failed to add contact");
        } else {
          contacts := list.GetOr(contacts);
          newName := "";
          newPhone := "";
          showAddContact := false;
        }
    }

    /** `handleDeleteContact`: on success the list is reloaded and the id leaves the selection. */
    method DeleteContact(id: string, reply: Outcome<ContactReply>, list: Option<seq<Contact>>)
      requires Valid()
      modifies this
      ensures Valid()
      ensures DirectoryOk(reply) ==> contacts == list.GetOr(old(contacts)) && selected == RemoveAll(old(selected), id)
      ensures !DirectoryOk(reply) ==> contacts == old(contacts) && selected == old(selected)
      ensures id !in selected || !DirectoryOk(reply)
      ensures mode == old(mode) && fields == old(fields) && error == old(error)
      ensures newName == old(newName) && newPhone == old(newPhone) && showAddContact == old(showAddContact)
    {
      if DirectoryOk(reply) {
        contacts := list.GetOr(contacts);
        RemoveAllKeepsNoDuplicates(selected, id);
        selected := RemoveAll(selected, id);
      }
    }
  }
}
