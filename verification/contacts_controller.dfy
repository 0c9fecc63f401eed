/**
 * The contact request handlers. Each one runs as a single atomic step against
 * a ContactCollection on behalf of the authenticated caller `owner`, and
 * answers with a Reply. A Joi schema's verdict on the request body is the
 * `schemaError` argument (its `error.message`, or `None` when the body passes).
 */
module ContactsController {
  import opened Wrappers
  import opened Http
  import opened JsValues
  import opened Identity
  import opened ContactService

  /** The `page`, `limit` and `favorite` query parameters; `None` is absent. */
  datatype ListQuery = ListQuery(page: Option<string>, limit: Option<string>, favorite: Option<string>)

  /** A reply together with the collection a handler leaves behind. */
  datatype Outcome<+T> = Outcome(reply: Reply<T>, records: seq<Contact>)

  const FavoriteNotBoolean := "favorite must be boolean"
  // The paginated branch spells its message this way.
  const FavoriteNotBooleanPaged := "faavorite must be boolean"
  const NotANumber := "page and limit must be a number"
  const NegativeSkip := "skip must be non-negative"
  const MissingName := "missing required name field"
  const MissingFields := "missing fields"
  const MissingFavorite := "missing field favorite"

  function Abs(n: int): nat {
    if n < 0 then -n else n
  }

  /**
   * `.skip(skip).limit(limit)`: the records from position `skip` on, at most
   * `|limit|` of them; a limit of 0 means no limit.
   */
  function Window(xs: seq<Contact>, skip: nat, limit: int): (r: seq<Contact>)
    ensures r == [] || skip + |r| <= |xs|
    ensures forall k :: 0 <= k < |r| ==> r[k] == xs[skip + k]
    ensures limit != 0 ==> |r| <= Abs(limit)
    ensures skip + |r| >= |xs| || (limit != 0 && |r| == Abs(limit))
  {
    if skip >= |xs| then []
    else if limit == 0 || |xs| - skip <= Abs(limit) then xs[skip..]
    else xs[skip..skip + Abs(limit)]
  }

  /** Page `page` of `limit` records: skip `(page - 1) * limit`; the store refuses a negative skip. */
  function Paginate(xs: seq<Contact>, page: int, limit: int): Reply<seq<Contact>> {
    var skip := (page - 1) * limit;
    if skip < 0 then Err(500, NegativeSkip) else Ok(200, Window(xs, skip, limit))
  }

  /** The two paginated rows of `get`: numbers first, then the window. */
  function PagedList(rs: seq<Contact>, owner: UserId, q: ListQuery): Reply<seq<Contact>>
    requires Truthy(q.page) && Truthy(q.limit)
  {
    var page, limit := ParseNumber(q.page.value), ParseNumber(q.limit.value);
    if page.None? || limit.None? then Err(400, NotANumber)
    else Paginate(GetAllContacts(rs, owner, q.favorite), page.value, limit.value)
  }

  /**
   * `get`: the list-query policy over `page`, `limit` and `favorite`, each
   * present when truthy. `favorite` is checked to be a boolean literal only
   * when `page` and `limit` are both present or both absent; the numbers are
   * checked only when both are present; with exactly one of them the
   * unpaginated list is returned, still filtered by `favorite`.
   */
  function List(rs: seq<Contact>, owner: UserId, q: ListQuery): (r: Reply<seq<Contact>>)
    ensures !r.NoResponse?
    ensures r.Ok? ==> r.status == 200 && forall c :: c in r.data ==> c in rs && c.owner == owner
    ensures Truthy(q.favorite) && Truthy(q.page) == Truthy(q.limit) && !IsBooleanLiteral(q.favorite.value) ==>
      r == Err(400, if Truthy(q.page) then FavoriteNotBooleanPaged else FavoriteNotBoolean)
    ensures (Truthy(q.page) && Truthy(q.limit) && (!Truthy(q.favorite) || IsBooleanLiteral(q.favorite.value)) &&
             (!IsDecimal(q.page.value) || !IsDecimal(q.limit.value))) ==> r == Err(400, NotANumber)
    ensures Truthy(q.page) != Truthy(q.limit) ==> r == Ok(200, GetAllContacts(rs, owner, q.favorite))
    ensures !Truthy(q.page) && !Truthy(q.limit) && (!Truthy(q.favorite) || IsBooleanLiteral(q.favorite.value)) ==>
      r == Ok(200, GetAllContacts(rs, owner, q.favorite))
    ensures r.Err? && r.status == 500 ==> Truthy(q.page) && Truthy(q.limit)
  {
    var paged, limited, filtered := Truthy(q.page), Truthy(q.limit), Truthy(q.favorite);
    if !paged && !limited && filtered then
      if !IsBooleanLiteral(q.favorite.value) then Err(400, FavoriteNotBoolean)
      else Ok(200, GetAllContacts(rs, owner, q.favorite))
    else if paged && limited && !filtered then
      PagedList(rs, owner, q)
    else if paged && limited && filtered then
      if !IsBooleanLiteral(q.favorite.value) then Err(400, FavoriteNotBooleanPaged)
      else PagedList(rs, owner, q)
    else
      Ok(200, GetAllContacts(rs, owner, q.favorite))
  }

  /**
   * With valid `page` and `limit` (and a valid or absent `favorite`) the reply
   * is the window of the caller's list that starts at `(page - 1) * limit`.
   */
  lemma ListPaginates(rs: seq<Contact>, owner: UserId, q: ListQuery, page: int, limit: int)
    requires Truthy(q.page) && Truthy(q.limit)
    requires !Truthy(q.favorite) || IsBooleanLiteral(q.favorite.value)
    requires ParseNumber(q.page.value) == Some(page) && ParseNumber(q.limit.value) == Some(limit)
    ensures (page - 1) * limit < 0 ==> List(rs, owner, q) == Err(500, NegativeSkip)
    ensures (page - 1) * limit >= 0 ==>
      List(rs, owner, q) == Ok(200, Window(GetAllContacts(rs, owner, q.favorite), (page - 1) * limit, limit))
  {
  }

  /** Page 2 of 2 over five listed contacts is the third and fourth of them. */
  lemma SecondPageOfFive(rs: seq<Contact>, owner: UserId)
    requires |GetAllContacts(rs, owner, None)| == 5
    ensures List(rs, owner, ListQuery(Some("2"), Some("2"), None)) == Ok(200, GetAllContacts(rs, owner, None)[2..4])
  {
    var q := ListQuery(Some("2"), Some("2"), None);
    assert AllDigits("2");
    assert ParseNumber("2") == Some(2) by {
      assert "2"[..0] == [];
    }
    ListPaginates(rs, owner, q, 2, 2);
  }

  /** `getById` with the owner in the lookup: the caller's contact, or 404. */
  function GetById(rs: seq<Contact>, owner: UserId, contactId: ContactId): (r: Reply<Contact>)
    ensures r.Ok? ==> r.status == 200 && r.data in rs && r.data.id == contactId && r.data.owner == owner
    ensures !r.Ok? ==> r == Err(404, NotFound) && forall c :: c in rs && c.id == contactId ==> c.owner != owner
  {
    match Found(rs, Filter(contactId, Some(owner)))
    case Some(c) => Ok(200, c)
    case None => Err(404, NotFound)
  }

  /**
   * `getById` as written: the service looks the id up without the owner and
   * an absent contact is a 200 with `null`.
   */
  function GetByIdAsWritten(rs: seq<Contact>, owner: UserId, contactId: ContactId): (r: Reply<Option<Contact>>)
    ensures r.Ok? && r.status == 200
    ensures r.data.Some? ==> r.data.value in rs && r.data.value.id == contactId
    ensures r.data.None? <==> forall c :: c in rs ==> c.id != contactId
  {
    Ok(200, GetContactById(rs, contactId, owner))
  }

  /** As written, a caller reads another identity's contact, and a missing one is a 200. */
  lemma GetByIdAsWrittenIgnoresOwner()
    ensures var c := Contact(7, Some("Ann"), None, None, false, 1);
      GetByIdAsWritten([c], 2, 7) == Ok(200, Some(c)) && GetById([c], 2, 7) == Err(404, NotFound)
    ensures GetByIdAsWritten([], 2, 7) == Ok(200, None)
  {
    var c := Contact(7, Some("Ann"), None, None, false, 1);
    assert Find([c], Filter(7, None)) == Some(0);
  }

  /** `add`: a body the schema rejects creates nothing; otherwise one contact owned by the caller. */
  method Add(db: ContactCollection, owner: UserId, body: Fields, schemaError: Option<string>)
    returns (reply: Reply<seq<Contact>>)
    requires db.Valid()
    modifies db
    ensures db.Valid()
    ensures schemaError.Some? ==>
      reply == Err(400, MissingName) && db.records == old(db.records) && db.nextId == old(db.nextId)
    ensures schemaError.None? ==>
      reply == Ok(201, [NewContact(old(db.nextId), body, owner)]) && db.records == old(db.records) + reply.data
    ensures schemaError.None? ==>
      |db.records| == |old(db.records)| + 1 && db.records[|db.records| - 1].owner == owner &&
      forall c :: c in old(db.records) ==> db.records[|db.records| - 1].id != c.id
  {
    if schemaError.Some? {
      return Err(400, MissingName);
    }
    var contact := db.AddContact(body, owner);
    reply := Ok(201, [contact]);
  }

  /** `remove`: delete the caller's contact with that id and return it, or 404 with nothing deleted. */
  method Remove(db: ContactCollection, owner: UserId, contactId: ContactId) returns (reply: Reply<Contact>)
    requires db.Valid()
    modifies db
    ensures db.Valid() && db.nextId == old(db.nextId)
    ensures db.records == Deleted(old(db.records), Filter(contactId, Some(owner)))
    ensures reply.Ok? <==> Found(old(db.records), Filter(contactId, Some(owner))).Some?
    ensures reply.Ok? ==>
      (reply.status == 200 && reply.data in old(db.records) && reply.data !in db.records &&
       reply.data.id == contactId && reply.data.owner == owner)
    ensures reply.Ok? ==> forall c :: c in old(db.records) && c != reply.data ==> c in db.records
    ensures !reply.Ok? ==> reply == Err(404, NotFound) && db.records == old(db.records)
  {
    var f := Filter(contactId, Some(owner));
    DeletedKeepsOthers(db.records, f);
    var removed := db.RemoveContact(f);
    match removed
    case Some(c) =>
      reply := Ok(200, c);
    case None =>
      reply := Err(404, NotFound);
  }

  /** At least one of `name`, `email`, `phone` is truthy. */
  predicate AnyTruthy(body: Fields) {
    Truthy(body.name) || Truthy(body.email) || Truthy(body.phone)
  }

  /**
   * `updateContact`, returning after the schema's 400: a rejected body, or
   * one with none of the three fields, changes nothing; otherwise the
   * caller's contact with that id is patched and its new state returned
   * (`null` when there is none).
   */
  method UpdateContact(db: ContactCollection, owner: UserId, contactId: ContactId, body: Fields,
                       schemaError: Option<string>, keepAbsent: bool)
    returns (reply: Reply<Option<Contact>>)
    requires db.Valid()
    modifies db
    ensures db.Valid() && db.nextId == old(db.nextId)
    ensures schemaError.Some? ==> reply == Err(400, schemaError.value) && db.records == old(db.records)
    ensures schemaError.None? && !AnyTruthy(body) ==> reply == Err(400, MissingFields) && db.records == old(db.records)
    ensures schemaError.None? && AnyTruthy(body) ==>
      var f := Filter(contactId, Some(owner));
      reply == Ok(200, UpdatedRecord(old(db.records), f, SetFields(body), keepAbsent)) &&
      db.records == Updated(old(db.records), f, SetFields(body), keepAbsent)
  {
    if schemaError.Some? {
      return Err(400, schemaError.value);
    }
    if !AnyTruthy(body) {
      return Err(400, MissingFields);
    }
    var contact := db.UpdateContact(Filter(contactId, Some(owner)), SetFields(body), keepAbsent);
    reply := Ok(200, contact);
  }

  /**
   * `updateContact` as written: after sending the schema's 400 the handler
   * carries on, so a rejected body with a truthy field is still written.
   */
  function UpdateContactAsWritten(rs: seq<Contact>, owner: UserId, contactId: ContactId, body: Fields,
                                  schemaError: Option<string>, keepAbsent: bool): (o: Outcome<Option<Contact>>)
    ensures schemaError.Some? ==> o.reply == Err(400, schemaError.value)
    ensures AnyTruthy(body) ==> o.records == Updated(rs, Filter(contactId, Some(owner)), SetFields(body), keepAbsent)
    ensures !AnyTruthy(body) ==> o.records == rs
  {
    var f := Filter(contactId, Some(owner));
    if schemaError.Some? then
      // The 400 has gone out; the second send (or the update) follows anyway.
      Outcome(Err(400, schemaError.value), if AnyTruthy(body) then Updated(rs, f, SetFields(body), keepAbsent) else rs)
    else if !AnyTruthy(body) then Outcome(Err(400, MissingFields), rs)
    else Outcome(Ok(200, UpdatedRecord(rs, f, SetFields(body), keepAbsent)), Updated(rs, f, SetFields(body), keepAbsent))
  }

  /** As written, a body the schema rejects is reported as 400 and stored all the same. */
  lemma UpdateContactAsWrittenStoresRejectedBody()
    ensures var c := Contact(7, Some("Ann"), None, None, false, 1);
      var o := UpdateContactAsWritten([c], 1, 7, Fields(Some("Bob"), Some("not-an-email"), None),
                                      Some("\"email\" must be a valid email"), true);
      o.reply.Err? && o.reply.status == 400 &&
      o.records == [c.(name := Some("Bob"), email := Some("not-an-email"))]
  {
    var c := Contact(7, Some("Ann"), None, None, false, 1);
    assert Find([c], Filter(7, Some(1))) == Some(0);
  }

  /**
   * `updateFavorite`, returning after the schema's 400: a body without the
   * `favorite` key, or one the schema rejects, changes nothing; otherwise only
   * the `favorite` field of the caller's contact with that id is written.
   */
  method UpdateFavorite(db: ContactCollection, owner: UserId, contactId: ContactId, favorite: Option<bool>,
                        schemaError: Option<string>)
    returns (reply: Reply<Option<Contact>>)
    requires db.Valid()
    modifies db
    ensures db.Valid() && db.nextId == old(db.nextId)
    ensures favorite.None? ==> reply == Err(400, MissingFavorite) && db.records == old(db.records)
    ensures favorite.Some? && schemaError.Some? ==>
      reply == Err(400, schemaError.value) && db.records == old(db.records)
    ensures favorite.Some? && schemaError.None? ==>
      var f := Filter(contactId, Some(owner));
      reply == Ok(200, UpdatedRecord(old(db.records), f, SetFavorite(favorite.value), true)) &&
      db.records == Updated(old(db.records), f, SetFavorite(favorite.value), true)
    ensures favorite.Some? && schemaError.None? && reply.data.Some? ==>
      reply.data.value.favorite == favorite.value && reply.data.value.owner == owner
  {
    if favorite.None? {
      return Err(400, MissingFavorite);
    }
    if schemaError.Some? {
      return Err(400, schemaError.value);
    }
    var contact := db.UpdateContact(Filter(contactId, Some(owner)), SetFavorite(favorite.value), true);
    reply := Ok(200, contact);
  }

  /**
   * `updateFavorite` as written: after sending the schema's 400 the handler
   * carries on and writes the flag.
   */
  function UpdateFavoriteAsWritten(rs: seq<Contact>, owner: UserId, contactId: ContactId, favorite: Option<bool>,
                                   schemaError: Option<string>): (o: Outcome<Option<Contact>>)
    ensures favorite.None? ==> o == Outcome(Err(400, MissingFavorite), rs)
    ensures favorite.Some? ==> o.records == Updated(rs, Filter(contactId, Some(owner)), SetFavorite(favorite.value), true)
    ensures favorite.Some? && schemaError.Some? ==> o.reply == Err(400, schemaError.value)
  {
    var f := Filter(contactId, Some(owner));
    if favorite.None? then Outcome(Err(400, MissingFavorite), rs)
    else if schemaError.Some? then
      // The 400 has gone out; the update follows anyway.
      Outcome(Err(400, schemaError.value), Updated(rs, f, SetFavorite(favorite.value), true))
    else Outcome(Ok(200, UpdatedRecord(rs, f, SetFavorite(favorite.value), true)),
                 Updated(rs, f, SetFavorite(favorite.value), true))
  }

  /** As written, `{favorite: true, name: "x"}`, which the schema rejects, still sets the flag. */
  lemma UpdateFavoriteAsWrittenStoresRejectedBody()
    ensures var c := Contact(7, Some("Ann"), None, None, false, 1);
      var o := UpdateFavoriteAsWritten([c], 1, 7, Some(true), Some("\"name\" is not allowed"));
      o.reply.Err? && o.reply.status == 400 && o.records == [c.(favorite := true)]
  {
    var c := Contact(7, Some("Ann"), None, None, false, 1);
    assert Find([c], Filter(7, Some(1))) == Some(0);
  }
}
