/**
  The in-memory contact directory (app/api/moolre/network/contacts/route.ts):
  a module-level list that `POST` appends to after validation and a duplicate
  check, and that `DELETE` splices one entry out of.
 */
module Contacts {
  import opened Wrappers
  import opened Text
  import opened Js
  import opened Phone

  datatype Contact = Contact(id: string, name: string, phone: string)

  /** The posted `{name, phone}`; a missing field is "". */
  datatype ContactBody = ContactBody(name: string, phone: string)

  datatype ContactReply =
    | ContactList(contacts: seq<Contact>)
    | ContactAdded(contact: Contact)
    | ContactDeleted
    | ContactError(code: int, error: string)

  predicate PhonesDistinct(cs: seq<Contact>) {
    forall i, j :: 0 <= i < j < |cs| ==> cs[i].phone != cs[j].phone
  }

  /** What every stored contact looks like: a trimmed name and a clean, valid phone. */
  predicate WellFormed(c: Contact) {
    IsTrimmed(c.name) && IsValidPhone(c.phone)
  }

  predicate ValidDirectory(cs: seq<Contact>) {
    PhonesDistinct(cs) && forall i :: 0 <= i < |cs| ==> WellFormed(cs[i])
  }

  predicate HasPhone(cs: seq<Contact>, phone: string) {
    exists i :: 0 <= i < |cs| && cs[i].phone == phone
  }

  /** `findIndex(c => c.id === id)`: the first index with that id, or -1. */
  function IndexOfId(cs: seq<Contact>, id: string): (k: int)
    ensures -1 <= k < |cs|
    ensures k == -1 <==> forall i :: 0 <= i < |cs| ==> cs[i].id != id
    ensures k >= 0 ==> cs[k].id == id && forall i :: 0 <= i < k ==> cs[i].id != id
  {
    if cs == [] then -1
    else if cs[0].id == id then 0
    else
      var k := IndexOfId(cs[1..], id);
      if k == -1 then -1 else k + 1
  }

  /** Whatever finds the first index with an id finds `IndexOfId`. */
  lemma FirstIndexUnique(cs: seq<Contact>, id: string, k: int)
    requires -1 <= k < |cs|
    requires k == -1 ==> forall i :: 0 <= i < |cs| ==> cs[i].id != id
    requires k >= 0 ==> cs[k].id == id && forall i :: 0 <= i < k ==> cs[i].id != id
    ensures k == IndexOfId(cs, id)
  {
    var m := IndexOfId(cs, id);
    if k >= 0 && m >= 0 {
      if k < m { assert false; }
      if m < k { assert false; }
    }
  }

  /** The contact a successful `POST` stores; `id` is the generated `contact-<time>-<random>`. */
  function NewContact(id: string, body: ContactBody): Contact {
    Contact(id, Trim(body.name), RemoveWhitespace(body.phone))
  }

  datatype Posted = Posted(reply: ContactReply, contacts: seq<Contact>)

  /** The answer of `POST` and the list it leaves behind. */
  function PostSpec(cs: seq<Contact>, body: Outcome<ContactBody>, newId: string): (r: Posted)
    ensures r.reply.ContactAdded? <==>
      && body.Received? && body.value.name != "" && body.value.phone != ""
      && IsPhoneInput(body.value.phone) && !HasPhone(cs, RemoveWhitespace(body.value.phone))
    ensures r.reply.ContactAdded? ==>
      r.reply.contact == NewContact(newId, body.value) && r.contacts == cs + [r.reply.contact]
    ensures !r.reply.ContactAdded? ==> r.contacts == cs && r.reply.ContactError?
    ensures r.reply.ContactError? && body.Received? ==> r.reply.code == 400
  {
    match body
    case Thrown(reason) => Posted(ContactError(500, reason.GetOr("Failed to add contact")), cs)
    case Received(b) =>
      if b.name == "" || b.phone == "" then Posted(ContactError(400, "Name and phone are required"), cs)
      else if !IsPhoneInput(b.phone) then Posted(ContactError(400, "Invalid phone number format"), cs)
      else
        var c := NewContact(newId, b);
        if HasPhone(cs, c.phone) then Posted(ContactError(400, "Contact with this phone number already exists"), cs)
        else Posted(ContactAdded(c), cs + [c])
  }

  /** The answer of `DELETE ?id=...` and the list it leaves behind; "" is a missing id. */
  function DeleteSpec(cs: seq<Contact>, id: string): (r: Posted)
    ensures r.reply.ContactDeleted? <==> id != "" && IndexOfId(cs, id) != -1
    ensures r.reply.ContactDeleted? ==>
      var k := IndexOfId(cs, id); r.contacts == cs[..k] + cs[k + 1..]
    ensures !r.reply.ContactDeleted? ==> r.contacts == cs && r.reply.ContactError?
    ensures r.reply.ContactError? ==> r.reply.code == (if id == "" then 400 else 404)
  {
    if id == "" then Posted(ContactError(400, "Contact ID is required"), cs)
    else
      var k := IndexOfId(cs, id);
      if k == -1 then Posted(ContactError(404, "Contact not found"), cs)
      else Posted(ContactDeleted, cs[..k] + cs[k + 1..])
  }

  // ---------------------------------------------------------------- properties of the list

  /** A successful `POST` keeps phones pairwise distinct and every entry well formed. */
  lemma PostKeepsDirectoryValid(cs: seq<Contact>, body: Outcome<ContactBody>, newId: string)
    requires ValidDirectory(cs)
    ensures ValidDirectory(PostSpec(cs, body, newId).contacts)
  {
    var r := PostSpec(cs, body, newId);
    if r.reply.ContactAdded? {
      var c := r.reply.contact;
      RemoveWhitespaceIdempotent(body.value.phone);
      assert WellFormed(c);
      assert !HasPhone(cs, c.phone);
      AppendKeepsValid(cs, c);
    }
  }

  lemma AppendKeepsValid(cs: seq<Contact>, c: Contact)
    requires ValidDirectory(cs) && WellFormed(c) && !HasPhone(cs, c.phone)
    ensures ValidDirectory(cs + [c])
  {
    var cs' := cs + [c];
    forall i | 0 <= i < |cs'|
      ensures WellFormed(cs'[i])
    {
      if i < |cs| {
        assert cs'[i] == cs[i];
      }
    }
    forall i, j | 0 <= i < j < |cs'|
      ensures cs'[i].phone != cs'[j].phone
    {
      assert cs'[i] == cs[i];
      if j < |cs| {
        assert cs'[j] == cs[j];
      }
    }
  }

  /** Removing one entry keeps the rest distinct and well formed. */
  lemma DeleteKeepsDirectoryValid(cs: seq<Contact>, id: string)
    requires ValidDirectory(cs)
    ensures ValidDirectory(DeleteSpec(cs, id).contacts)
  {
    var r := DeleteSpec(cs, id);
    if r.reply.ContactDeleted? {
      RemoveAtKeepsValid(cs, IndexOfId(cs, id));
    }
  }

  lemma RemoveAtKeepsValid(cs: seq<Contact>, k: nat)
    requires ValidDirectory(cs) && k < |cs|
    ensures ValidDirectory(cs[..k] + cs[k + 1..])
  {
    var cs' := cs[..k] + cs[k + 1..];
    assert |cs'| == |cs| - 1;
    forall i | 0 <= i < |cs'|
      ensures cs'[i] == cs[if i < k then i else i + 1]
    {
    }
    forall i | 0 <= i < |cs'|
      ensures WellFormed(cs'[i])
    {
      assert cs'[i] == cs[if i < k then i else i + 1];
    }
    forall i, j | 0 <= i < j < |cs'|
      ensures cs'[i].phone != cs'[j].phone
    {
      var i0 := if i < k then i else i + 1;
      var j0 := if j < k then j else j + 1;
      assert cs'[i] == cs[i0] && cs'[j] == cs[j0] && i0 < j0;
    }
  }

  /** `DELETE` removes exactly the first entry with the id; the others keep their relative order. */
  lemma DeleteRemovesFirstMatch(cs: seq<Contact>, id: string)
    requires id != "" && IndexOfId(cs, id) != -1
    ensures var k := IndexOfId(cs, id); var cs' := DeleteSpec(cs, id).contacts;
      && |cs'| == |cs| - 1
      && (forall i :: 0 <= i < k ==> cs'[i] == cs[i])
      && (forall i :: k <= i < |cs'| ==> cs'[i] == cs[i + 1])
      && multiset(cs') + multiset{cs[k]} == multiset(cs)
  {
    var k := IndexOfId(cs, id);
    RemoveAtShifts(cs, k);
  }

  lemma RemoveAtShifts(cs: seq<Contact>, k: nat)
    requires k < |cs|
    ensures var cs' := cs[..k] + cs[k + 1..];
      && |cs'| == |cs| - 1
      && (forall i :: 0 <= i < k ==> cs'[i] == cs[i])
      && (forall i :: k <= i < |cs'| ==> cs'[i] == cs[i + 1])
      && multiset(cs') + multiset{cs[k]} == multiset(cs)
  {
    var before, after := cs[..k], cs[k + 1..];
    var cs' := before + after;
    forall i | k <= i < |cs'|
      ensures cs'[i] == cs[i + 1]
    {
      assert cs'[i] == after[i - k];
    }
    assert cs == before + [cs[k]] + after;
  }

  /** Adding a contact under a fresh id and then deleting that id gives back the original list. */
  lemma {:induction false} PostThenDeleteRestores(cs: seq<Contact>, body: Outcome<ContactBody>, newId: string)
    requires newId != "" && IndexOfId(cs, newId) == -1
    requires PostSpec(cs, body, newId).reply.ContactAdded?
    ensures DeleteSpec(PostSpec(cs, body, newId).contacts, newId).contacts == cs
  {
    var c := NewContact(newId, body.value);
    IndexOfFreshAppended(cs, c);
    assert (cs + [c])[..|cs|] == cs;
  }

  lemma {:induction false} IndexOfFreshAppended(cs: seq<Contact>, c: Contact)
    requires IndexOfId(cs, c.id) == -1
    ensures IndexOfId(cs + [c], c.id) == |cs|
  {
    if cs != [] {
      assert (cs + [c])[1..] == cs[1..] + [c];
      IndexOfFreshAppended(cs[1..], c);
    }
  }

  /** A phone that differs only by whitespace from a stored one is a duplicate. */
  lemma WhitespaceVariantIsDuplicate(cs: seq<Contact>, body: ContactBody, w: string, newId: string)
    requires ValidDirectory(cs) && |cs| > 0 && body.name != ""
    requires forall i :: 0 <= i < |w| ==> IsWhitespace(w[i])
    requires body.phone == w + cs[0].phone
    ensures PostSpec(cs, Received(body), newId).reply == ContactError(400, "Contact with this phone number already exists")
  {
    RemoveWhitespaceAppend(w, cs[0].phone);
    AllWhitespaceRemoved(w);
    ValidPhoneIsClean(cs[0].phone);
    assert RemoveWhitespace(body.phone) == cs[0].phone;
    assert HasPhone(cs, cs[0].phone);
  }

  // ---------------------------------------------------------------- the route's state

  class ContactDirectory {
    var contacts: seq<Contact>

    ghost predicate Valid()
      reads this
    {
      ValidDirectory(contacts)
    }

    constructor ()
      ensures Valid() && contacts == []
    {
      contacts := [];
    }

    /** `GET`: the list as it is. */
    method Get() returns (reply: ContactReply)
      ensures reply == ContactList(contacts)
    {
      reply := ContactList(contacts);
    }

    /** `contacts.find(c => c.phone === phone)` */
    method FindByPhone(phone: string) returns (found: bool)
      ensures found <==> HasPhone(contacts, phone)
    {
      var i := 0;
      found := false;
      while i < |contacts| && !found
        invariant 0 <= i <= |contacts|
        invariant found ==> HasPhone(contacts, phone)
        invariant !found ==> forall j :: 0 <= j < i ==> contacts[j].phone != phone
      {
        if contacts[i].phone == phone {
          found := true;
        }
        i := i + 1;
      }
    }

    /** `contacts.findIndex(c => c.id === id)` */
    method FindIndexById(id: string) returns (index: int)
      ensures -1 <= index < |contacts|
      ensures index == -1 <==> forall i :: 0 <= i < |contacts| ==> contacts[i].id != id
      ensures index >= 0 ==> contacts[index].id == id && forall i :: 0 <= i < index ==> contacts[i].id != id
      ensures index == IndexOfId(contacts, id)
    {
      index := 0;
      while index < |contacts| && contacts[index].id != id
        invariant 0 <= index <= |contacts|
        invariant forall i :: 0 <= i < index ==> contacts[i].id != id
      {
        index := index + 1;
      }
      if index == |contacts| {
        index := -1;
      }
      FirstIndexUnique(contacts, id, index);
    }

    /** `POST`: validate, reject a duplicate phone, else push the new contact. */
    method Post(body: Outcome<ContactBody>, newId: string) returns (reply: ContactReply)
      requires Valid()
      modifies this
      ensures Valid()
      ensures var spec := PostSpec(old(contacts), body, newId);
        reply == spec.reply && contacts == spec.contacts
    {
      PostKeepsDirectoryValid(contacts, body, newId);
      if body.Thrown? {
        reply := ContactError(500, body.reason.GetOr("Failed to add contact"));
        return;
      }
      var b := body.value;
      if b.name == "" || b.phone == "" {
        reply := ContactError(400, "Name and phone are required");
        return;
      }
      if !IsPhoneInput(b.phone) {
        reply := ContactError(400, "Invalid phone number format");
        return;
      }
      var c := NewContact(newId, b);
      var exists_ := FindByPhone(c.phone);
      if exists_ {
        reply := ContactError(400, "Contact with this phone number already exists");
        return;
      }
      contacts := contacts + [c];
      reply := ContactAdded(c);
    }

    /** `DELETE ?id=...`: find the first entry with the id and splice it out. */
    method Delete(id: string) returns (reply: ContactReply)
      requires Valid()
      modifies this
      ensures Valid()
      ensures var spec := DeleteSpec(old(contacts), id);
        reply == spec.reply && contacts == spec.contacts
    {
      DeleteKeepsDirectoryValid(contacts, id);
      if id == "" {
        reply := ContactError(400, "Contact ID is required");
        return;
      }
      var index := FindIndexById(id);
      if index == -1 {
        reply := ContactError(404, "Contact not found");
        return;
      }
      contacts := contacts[..index] + contacts[index + 1..];
      reply := ContactDeleted;
    }
  }
}
