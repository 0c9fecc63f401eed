/**
 * The contact collection and the service functions over it. The MongoDB
 * collection is a sequence of records in storage (insertion) order; every
 * query is a filter document, and the ones the handlers use always carry the
 * caller as `owner`.
 */
module ContactService {
  import opened Wrappers
  import opened JsValues
  import opened Identity

  type ContactId = nat

  /** A stored contact. Text fields are optional: an update may null them. */
  datatype Contact = Contact(
    id: ContactId,
    name: Option<string>,
    email: Option<string>,
    phone: Option<string>,
    favorite: bool,
    owner: UserId)

  /** The `{name, email, phone}` part of a request body; `None` is `undefined`. */
  datatype Fields = Fields(name: Option<string>, email: Option<string>, phone: Option<string>)

  /** An update document: the three text fields, or the favorite flag alone. */
  datatype Patch = SetFields(fields: Fields) | SetFavorite(favorite: bool)

  /** A filter `{_id: id, owner: owner}`; `owner == None` filters on `_id` alone. */
  datatype Filter = Filter(id: ContactId, owner: Option<UserId>)

  /** The favorite condition of a list query. */
  datatype FavoriteFilter = AnyFavorite | FavoriteIs(value: bool)

  predicate Selected(c: Contact, owner: UserId, f: FavoriteFilter) {
    c.owner == owner && (f.FavoriteIs? ==> c.favorite == f.value)
  }

  predicate Matches(c: Contact, f: Filter) {
    c.id == f.id && (f.owner.Some? ==> c.owner == f.owner.value)
  }

  predicate ContactIdsDistinct(rs: seq<Contact>) {
    forall i, j :: 0 <= i < j < |rs| ==> rs[i].id != rs[j].id
  }

  /** `Contact.find(...)`: the selected records, in storage order. */
  function Select(rs: seq<Contact>, owner: UserId, f: FavoriteFilter): (r: seq<Contact>)
    ensures |r| <= |rs|
    ensures forall c :: c in r <==> c in rs && Selected(c, owner, f)
  {
    if rs == [] then []
    else if Selected(rs[0], owner, f) then [rs[0]] + Select(rs[1..], owner, f)
    else Select(rs[1..], owner, f)
  }

  /** Selection keeps storage order: it distributes over concatenation. */
  lemma {:induction false} SelectAppend(a: seq<Contact>, b: seq<Contact>, owner: UserId, f: FavoriteFilter)
    ensures Select(a + b, owner, f) == Select(a, owner, f) + Select(b, owner, f)
  {
    if a == [] {
      assert a + b == b;
    } else {
      assert (a + b)[0] == a[0];
      assert (a + b)[1..] == a[1..] + b;
      SelectAppend(a[1..], b, owner, f);
    }
  }

  /** The favorite condition `getAllContacts` derives from its `favorite` argument. */
  function FavoriteFilterOf(favorite: Option<string>): FavoriteFilter {
    if Truthy(favorite) then
      if favorite.value == "false" then FavoriteIs(false) else FavoriteIs(true)
    else AnyFavorite
  }

  /**
   * `getAllContacts`: the caller's contacts; a truthy `favorite` keeps only
   * the non-favorites when it is "false" and only the favorites otherwise.
   */
  function GetAllContacts(rs: seq<Contact>, owner: UserId, favorite: Option<string>): (r: seq<Contact>)
    ensures forall c :: c in r <==>
      c in rs && c.owner == owner && (Truthy(favorite) ==> c.favorite == (favorite.value != "false"))
  {
    Select(rs, owner, FavoriteFilterOf(favorite))
  }

  /**
   * A record appended to the collection comes last in every list it is
   * selected by, and leaves every other list as it was.
   */
  lemma {:induction false} GetAllContactsAppend(rs: seq<Contact>, c: Contact, owner: UserId, favorite: Option<string>)
    ensures Selected(c, owner, FavoriteFilterOf(favorite)) ==>
      GetAllContacts(rs + [c], owner, favorite) == GetAllContacts(rs, owner, favorite) + [c]
    ensures !Selected(c, owner, FavoriteFilterOf(favorite)) ==>
      GetAllContacts(rs + [c], owner, favorite) == GetAllContacts(rs, owner, favorite)
  {
    var f := FavoriteFilterOf(favorite);
    SelectAppend(rs, [c], owner, f);
    assert [c][1..] == [];
    assert Select([c][1..], owner, f) == [];
  }

  /** Index of the first record the filter matches. */
  function Find(rs: seq<Contact>, f: Filter): (r: Option<nat>)
    ensures r.Some? ==> r.value < |rs| && Matches(rs[r.value], f)
    ensures r.Some? ==> forall j :: 0 <= j < r.value ==> !Matches(rs[j], f)
    ensures r.None? <==> forall j :: 0 <= j < |rs| ==> !Matches(rs[j], f)
  {
    if rs == [] then None
    else if Matches(rs[0], f) then Some(0)
    else match Find(rs[1..], f)
      case None => None
      case Some(k) => Some(k + 1)
  }

  /** `findOne`: the record the filter matches, if any. */
  function Found(rs: seq<Contact>, f: Filter): (r: Option<Contact>)
    ensures r.Some? ==> r.value in rs && Matches(r.value, f)
    ensures r.None? <==> forall c :: c in rs ==> !Matches(c, f)
  {
    match Find(rs, f)
    case None => None
    case Some(i) => Some(rs[i])
  }

  /**
   * `getContactById`: `findById` casts the `{_id, owner}` object it is given to
   * its `_id`, so the lookup is by id alone and ignores the owner.
   */
  function GetContactById(rs: seq<Contact>, contactId: ContactId, owner: UserId): (r: Option<Contact>)
    ensures r.Some? ==> r.value in rs && r.value.id == contactId
    ensures r.None? <==> forall c :: c in rs ==> c.id != contactId
  {
    Found(rs, Filter(contactId, None))
  }

  /** The record `addContact` inserts: the body's fields, not a favorite, owned by the caller. */
  function NewContact(id: ContactId, fields: Fields, owner: UserId): Contact {
    Contact(id, fields.name, fields.email, fields.phone, false, owner)
  }

  function RemoveAt(rs: seq<Contact>, i: nat): (r: seq<Contact>)
    requires i < |rs|
    ensures |r| == |rs| - 1
    ensures forall k :: 0 <= k < |r| ==> r[k] == if k < i then rs[k] else rs[k + 1]
  {
    rs[..i] + rs[i + 1..]
  }

  /** The collection after `findOneAndDelete(f)`. */
  function Deleted(rs: seq<Contact>, f: Filter): seq<Contact> {
    match Find(rs, f)
    case None => rs
    case Some(i) => RemoveAt(rs, i)
  }

  /**
   * A delete removes at most one record, the one the filter matches, and
   * keeps the others in order; with distinct ids every match is gone.
   */
  lemma DeletedKeepsOthers(rs: seq<Contact>, f: Filter)
    ensures Found(rs, f).None? ==> Deleted(rs, f) == rs
    ensures Found(rs, f).Some? ==>
      |Deleted(rs, f)| == |rs| - 1 && multiset(Deleted(rs, f)) + multiset{Found(rs, f).value} == multiset(rs)
    ensures ContactIdsDistinct(rs) ==> forall c :: c in Deleted(rs, f) <==> c in rs && !Matches(c, f)
  {
    match Find(rs, f)
    case None =>
    case Some(i) =>
      assert rs == rs[..i] + [rs[i]] + rs[i + 1..];
      var r := Deleted(rs, f);
      if ContactIdsDistinct(rs) {
        forall c ensures c in r <==> c in rs && !Matches(c, f) {
          if c in r {
            var k :| 0 <= k < |r| && r[k] == c;
            assert c == rs[if k < i then k else k + 1];
          }
          if c in rs && !Matches(c, f) {
            var j :| 0 <= j < |rs| && rs[j] == c;
            assert j != i;
            assert r[if j < i then j else j - 1] == c;
          }
        }
      }
  }

  /** Write the patch into a record; absent text fields are kept or nulled per `keepAbsent`. */
  function ApplyPatch(c: Contact, p: Patch, keepAbsent: bool): (r: Contact)
    ensures r.id == c.id && r.owner == c.owner
    ensures p.SetFavorite? ==> r == c.(favorite := p.favorite)
    ensures p.SetFields? ==> r.favorite == c.favorite
    ensures p.SetFields? && p.fields.name.Some? ==> r.name == p.fields.name
    ensures p.SetFields? && p.fields.email.Some? ==> r.email == p.fields.email
    ensures p.SetFields? && p.fields.phone.Some? ==> r.phone == p.fields.phone
  {
    match p
    case SetFavorite(b) => c.(favorite := b)
    case SetFields(fs) =>
      c.(name := Merge(c.name, fs.name, keepAbsent),
         email := Merge(c.email, fs.email, keepAbsent),
         phone := Merge(c.phone, fs.phone, keepAbsent))
  }

  function Merge(current: Option<string>, given: Option<string>, keepAbsent: bool): Option<string> {
    if given.Some? then given else if keepAbsent then current else None
  }

  /** The collection after `findOneAndUpdate(f, p)`. */
  function Updated(rs: seq<Contact>, f: Filter, p: Patch, keepAbsent: bool): seq<Contact> {
    match Find(rs, f)
    case None => rs
    case Some(i) => rs[i := ApplyPatch(rs[i], p, keepAbsent)]
  }

  /** What `findOneAndUpdate(f, p, {new: true})` returns: the record after the update. */
  function UpdatedRecord(rs: seq<Contact>, f: Filter, p: Patch, keepAbsent: bool): (r: Option<Contact>)
    ensures r.Some? <==> Found(rs, f).Some?
    ensures r.Some? ==> r.value == ApplyPatch(Found(rs, f).value, p, keepAbsent)
    ensures r.Some? ==> r.value in Updated(rs, f, p, keepAbsent) && Matches(r.value, f)
  {
    match Find(rs, f)
    case None => None
    case Some(i) =>
      assert Updated(rs, f, p, keepAbsent)[i] == ApplyPatch(rs[i], p, keepAbsent);
      Some(ApplyPatch(rs[i], p, keepAbsent))
  }

  /**
   * An update changes at most one record, the one the filter matches, keeps
   * every record at its place and every id; with distinct ids, no record the
   * filter does not match changes.
   */
  lemma UpdatedKeepsOthers(rs: seq<Contact>, f: Filter, p: Patch, keepAbsent: bool)
    ensures |Updated(rs, f, p, keepAbsent)| == |rs|
    ensures forall j :: 0 <= j < |rs| ==> Updated(rs, f, p, keepAbsent)[j].id == rs[j].id
    ensures forall j :: 0 <= j < |rs| && Find(rs, f) != Some(j) ==> Updated(rs, f, p, keepAbsent)[j] == rs[j]
    ensures ContactIdsDistinct(rs) ==>
      forall j :: 0 <= j < |rs| && !Matches(rs[j], f) ==> Updated(rs, f, p, keepAbsent)[j] == rs[j]
  {
    if ContactIdsDistinct(rs) && Find(rs, f).Some? {
      var i := Find(rs, f).value;
      forall j | 0 <= j < |rs| && !Matches(rs[j], f) ensures j != i { }
    }
  }

  /**
   * Owner isolation: a record owned by someone other than the caller is never
   * listed, found, deleted or changed by a query scoped to the caller.
   */
  lemma OwnerIsolation(rs: seq<Contact>, caller: UserId, c: Contact,
                       id: ContactId, favorite: Option<string>, p: Patch, keepAbsent: bool)
    requires c in rs && c.owner != caller
    ensures c !in GetAllContacts(rs, caller, favorite)
    ensures Found(rs, Filter(id, Some(caller))) != Some(c)
    ensures UpdatedRecord(rs, Filter(id, Some(caller)), p, keepAbsent) != Some(c)
    ensures c in Deleted(rs, Filter(id, Some(caller)))
    ensures c in Updated(rs, Filter(id, Some(caller)), p, keepAbsent)
  {
    var f := Filter(id, Some(caller));
    var j :| 0 <= j < |rs| && rs[j] == c;
    match Find(rs, f)
    case None =>
    case Some(i) =>
      assert i != j;
      assert RemoveAt(rs, i)[if j < i then j else j - 1] == c;
      assert Updated(rs, f, p, keepAbsent)[j] == c;
  }

  /**
   * The contact collection: its records in storage order and the next
   * identifier to hand out (identifiers are never reused).
   */
  class ContactCollection {
    var records: seq<Contact>
    var nextId: ContactId

    ghost predicate Valid()
      reads this
    {
      ContactIdsDistinct(records) && forall c :: c in records ==> c.id < nextId
    }

    constructor ()
      ensures Valid() && records == [] && nextId == 0
    {
      records := [];
      nextId := 0;
    }

    /** `addContact`: insert one new record at the end of the collection. */
    method AddContact(fields: Fields, owner: UserId) returns (c: Contact)
      requires Valid()
      modifies this
      ensures Valid()
      ensures c == NewContact(old(nextId), fields, owner)
      ensures records == old(records) + [c] && nextId == old(nextId) + 1
    {
      c := NewContact(nextId, fields, owner);
      records := records + [c];
      nextId := nextId + 1;
    }

    /** `removeContact` / `findOneAndDelete`: delete the matching record and return it. */
    method RemoveContact(f: Filter) returns (removed: Option<Contact>)
      requires Valid()
      modifies this
      ensures Valid() && nextId == old(nextId)
      ensures removed == Found(old(records), f)
      ensures records == Deleted(old(records), f)
    {
      removed := Found(records, f);
      var i := Find(records, f);
      if i.Some? {
        records := RemoveAt(records, i.value);
      }
    }

    /**
     * `updateContact` and `updateFavorite` (the same `findOneAndUpdate` with
     * `new: true`): patch the matching record and return its new state.
     */
    method UpdateContact(f: Filter, p: Patch, keepAbsent: bool) returns (updated: Option<Contact>)
      requires Valid()
      modifies this
      ensures Valid() && nextId == old(nextId)
      ensures updated == UpdatedRecord(old(records), f, p, keepAbsent)
      ensures records == Updated(old(records), f, p, keepAbsent)
    {
      updated := UpdatedRecord(records, f, p, keepAbsent);
      var i := Find(records, f);
      if i.Some? {
        records := records[i.value := ApplyPatch(records[i.value], p, keepAbsent)];
      }
    }
  }
}
