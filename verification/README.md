# Owner-scoped contacts and single-session users

This is a Dafny model of the core of a multi-tenant address-book REST service. Each registered user owns a private set of contacts, and every contact request is scoped to the authenticated caller.

The model covers three parts:

- **Contact service.** The filter queries and single-record mutations over the contact collection (`service/index.js`). `ContactService` models the MongoDB collection as a sequence of records in storage (insertion) order. Filters are datatypes: `{_id, owner}` becomes `Filter`, and the favorite condition becomes `FavoriteFilter`. `ContactCollection` is a class whose methods change `records` in place.
- **Contact handlers** (`controller/contacts.js`).
  - `List` is the decision table of the list query over `page`, `limit` and `favorite`, with its pagination window.
  - `GetById` is the lookup of one contact.
  - `Add`, `Remove`, `UpdateContact` and `UpdateFavorite` are methods over a `ContactCollection`.
- **User handlers** (`controller/users.js`).
  - `UserCollection` holds the user records. Each record has one `token` slot.
  - `Signup`, `Login`, `Logout` and `Subs` are methods. `Signup` creates a new user record, sets its password and saves it. `Login`, `Logout` and `Subs` each assign a field on a fetched record and save it.
  - `Check` is a read.

Every handler is one atomic step. It answers with an `Http.Reply`: `Ok(status, data)`, `Err(status, message)`, or `NoResponse` when the handler ends without answering.

The code reaches several collaborators that are not shown: the Joi schemas, JWT signing, password hashing and the clock. They are inputs to the model:

- **Joi schemas.** A schema's verdict on a body is the argument `schemaError: Option<string>`. It is Joi's `error.message`, or `None` when the body passes. The validated value is taken to equal the body.
- **JWT signing.** A token is `Jwt(id, email, issuedAt)`. `issuedAt` is a clock argument, and the signature is not modelled.
- **Password hashing.** `setPassword` is the argument `hashPassword: string -> string`, and `validatePassword` is the argument `validatePassword: (string, string) -> bool`.
- **Identifiers.** New ids are drawn from a counter (`nextId`) that never reuses a value.

Each collection has a `Valid()` invariant, which every method keeps:

- Contact ids are distinct and below `nextId`.
- User ids and emails are distinct.
- A stored token always carries its own user's `{id, email}`.

## Decisions where the code is ambiguous

- **Exactly one of `page`/`limit`.** The list is returned without pagination. `favorite` is not checked to be `"true"`/`"false"`, but it is still passed to `getAllContacts`. So `favorite="maybe"` lists the favorites (`List`, controller/contacts.js:54).
- **Negative skip.** `skip = (page-1)*limit` can be negative. The database rejects it, and the handler's `catch` forwards that error to the 500 handler.
  - A `limit` of 0 means no limit.
  - A negative `limit` means its magnitude.
- **Update with no matching record.** `findOneAndUpdate` gives `null`, so `UpdateContact` and `UpdateFavorite` answer 200 with `null`, not 404.
- **No verification check.** Login does not check any verification state, and the model follows the code.
- **Hard-coded subscription.** Login reports the subscription as `"starter"` whatever the user's subscription is (controller/users.js:58).
- **`check` without a user.** When no user has the id, `check` sends nothing (`NoResponse`).
- **Missing user in `logout`/`subs`.** A missing user makes the field assignment throw inside `try`, which becomes a 500.
- **Undefined fields in an update.** How `findOneAndUpdate` treats `undefined` fields depends on Mongoose options, so the argument `keepAbsent` chooses: merge (keep the field) or overwrite (null it). The contracts claim only what holds either way:
  - the given fields are written;
  - id, owner and favorite are kept;
  - only the matched record changes.
- **Source defects.** The four defects listed under "## Findings" are modelled twice: once as written, and once corrected. The handlers the rest of the model uses are the corrected ones.

## Model

| member | source | states |
|---|---|---|
| `ContactService.Select` | service/index.js:6-14 | a record is listed iff it belongs to the caller and meets the favorite condition |
| `ContactService.SelectAppend` | service/index.js:6-14 | listing keeps storage order: the list of a concatenation is the concatenation of the lists |
| `ContactService.GetAllContacts` | service/index.js:6-15 | falsy `favorite`: exactly the caller's records; `"false"`: the caller's non-favorites; any other truthy value: the caller's favorites |
| `ContactService.GetAllContactsAppend` | service/index.js:13 | a newly appended record of the caller comes last in the lists that select it and changes no other list |
| `ContactService.Find` | service/index.js:22-29 | the first index whose record matches the `{_id, owner}` filter, `None` iff none matches |
| `ContactService.Found` | service/index.js:22-29 | the matched record is in the collection and matches, `None` iff no record matches |
| `ContactService.GetContactById` | service/index.js:17-18 | the lookup `findById` performs is by id alone: it returns a record with that id whoever owns it |
| `ContactService.DeletedKeepsOthers` | service/index.js:22-23 | a delete removes at most the one matched record (multiset and length accounting); with distinct ids the survivors are exactly the unmatched records |
| `ContactService.ApplyPatch` | service/index.js:25-29 | a patch keeps id and owner; a favorite patch changes only `favorite`; a field patch writes every given field and keeps `favorite` |
| `ContactService.UpdatedRecord` | service/index.js:25-29 | with `new: true` the result is the matched record with the patch applied, present iff a record matched |
| `ContactService.UpdatedKeepsOthers` | service/index.js:25-29 | an update keeps length, positions and ids, and changes no record other than the matched one |
| `ContactService.OwnerIsolation` | service/index.js:9-29 | a record owned by someone else is never listed, found, returned by an update, deleted or changed by a caller-scoped query |
| `ContactService.ContactCollection.AddContact` | service/index.js:20 | the new record (fresh id, not a favorite, the given owner) is appended and nothing else changes |
| `ContactService.ContactCollection.RemoveContact` | service/index.js:22-23 | the collection becomes the one without the matched record, and that record is returned |
| `ContactService.ContactCollection.UpdateContact` | service/index.js:25-29 | the matched record is patched in place and its new state returned; this is the `updateContact`/`updateFavorite` pair |
| `JsValues.ParseNumber` | controller/contacts.js:20 | a query value is numeric iff it is a signed decimal integer; unsigned digits give a non-negative number |
| `JsValues.ParseShowRoundTrip` | controller/contacts.js:39 | parsing the decimal rendering of any integer gives that integer back |
| `ContactsController.Window` | controller/contacts.js:25-30 | the window's k-th record is the list's `(skip+k)`-th; at most `abs(limit)` records (no bound for 0), and as many as remain up to that bound |
| `ContactsController.List` | controller/contacts.js:8-59 | any listed record belongs to the caller; `favorite` is validated exactly when `page` and `limit` are both present or both absent; the numbers are validated only when both are present; with exactly one of them the unpaginated list is returned |
| `ContactsController.ListPaginates` | controller/contacts.js:19-52 | valid `page` and `limit` give the window of the caller's list starting at `(page-1)*limit`, or a 500 when that offset is negative |
| `ContactsController.SecondPageOfFive` | controller/contacts.js:44-49 | page 2 of size 2 over five listed records is the third and fourth |
| `ContactsController.GetById` | controller/contacts.js:61-70 | corrected: 200 with the caller's contact of that id, otherwise 404 and no contact of that id belongs to the caller |
| `ContactsController.GetByIdAsWritten` | controller/contacts.js:61-70 | as written: always 200, with a contact of that id whoever owns it, and `null` exactly when no record has that id |
| `ContactsController.GetByIdAsWrittenIgnoresOwner` | service/index.js:17-18 | as written, caller 2 reads contact 7 owned by user 1, and a missing id answers 200 |
| `ContactsController.Add` | controller/contacts.js:72-93 | a rejected body gives 400 "missing required name field" and creates nothing; otherwise exactly one contact with a fresh id and the caller as owner is appended and returned |
| `ContactsController.Remove` | controller/contacts.js:95-111 | 200 with the deleted contact, which was the caller's and is gone while every other record stays; otherwise 404 and the collection is unchanged |
| `ContactsController.UpdateContact` | controller/contacts.js:113-139 | corrected: a rejected body, or one with none of name/email/phone, gives 400 and changes nothing; otherwise only the caller's matched contact is patched and its new state returned |
| `ContactsController.UpdateContactAsWritten` | controller/contacts.js:116-134 | as written: a rejected body gives 400 yet any truthy field is written to the matched contact |
| `ContactsController.UpdateContactAsWrittenStoresRejectedBody` | controller/contacts.js:117-126 | as written, a body with an invalid email is answered 400 and stored |
| `ContactsController.UpdateFavorite` | controller/contacts.js:141-170 | corrected: no `favorite` key gives 400 "missing field favorite", a rejected body 400, both with no change; otherwise only the `favorite` field of the caller's matched contact is written |
| `ContactsController.UpdateFavoriteAsWritten` | controller/contacts.js:150-164 | as written: a rejected body that has the key gives 400 yet the flag is written |
| `ContactsController.UpdateFavoriteAsWrittenStoresRejectedBody` | controller/contacts.js:151-159 | as written, `{favorite: true, name: "x"}` is answered 400 and sets the flag |
| `UserService.FindByEmail` | service/index.js:33 | the index of a user with that email, `None` iff there is none |
| `UserService.FindById` | service/index.js:33 | the first index of a user with that id, `None` iff there is none |
| `UserService.WithTokenKeepsOthers` | controller/users.js:52-55 | writing the token slot changes only the `token` field of the user with that id |
| `UserService.WithSubscriptionKeepsOthers` | controller/users.js:91-93 | writing the subscription changes only the `subscription` field of the user with that id |
| `UserService.LastTokenWins` | controller/users.js:54 | of two token writes in a row only the last remains: the slot holds one token |
| `UserService.ClearTokenIdempotent` | controller/users.js:67-69 | clearing the token twice leaves the same state as clearing it once |
| `UserService.UserCollection.Create` | controller/users.js:24-26 | one user with a fresh id, the given email and hash, subscription "starter" and no token is appended |
| `UserService.UserCollection.SetToken` | controller/users.js:54-55 | the slot of the user at that index is overwritten, and the token invariant is kept |
| `UserService.UserCollection.SetSubscription` | controller/users.js:92-93 | the subscription of the user at that index is overwritten |
| `UsersController.Signup` | controller/users.js:8-33 | an email in use gives 409 before validation; a rejected body gives 400; both create nothing; otherwise exactly one user with that email is added and 201 reports subscription "starter" |
| `UsersController.Login` | controller/users.js:35-63 | corrected: rejected body, unknown email or wrong password give 400 with every token unchanged; otherwise a token with payload `{id, email}` of that user replaces the slot's value and is returned |
| `UsersController.LoginReplyAsWritten` | controller/users.js:44-50 | as written: an unknown email is never answered |
| `UsersController.LoginAsWrittenLeavesUnknownEmailUnanswered` | controller/users.js:44-46 | as written, a login for an unregistered email gets no reply |
| `UsersController.Logout` | controller/users.js:65-74 | the caller's slot is emptied whatever it held (204); a missing user gives 500 and no change |
| `UsersController.Check` | controller/users.js:76-83 | 200 with `{email, subscription}` from the request context iff a user with that id exists, otherwise no reply |
| `UsersController.Subs` | controller/users.js:85-96 | a rejected body gives 400 and no change; otherwise only the caller's subscription changes, to the requested value |
| `UsersController.TokenSlotLifecycle` | controller/users.js:52-69 | a later login replaces an earlier token, a logout after a login empties the slot, and a login leaves exactly its token in the slot |

## Findings

| source | as written | input that shows it | evidently intended | confidence | as-written member | corrected member |
|---|---|---|---|---|---|---|
| service/index.js:17-18 | `findById` is given the object `{_id, owner}` and casts it to its `_id`, so the owner plays no part. The controller maps only thrown errors to 404, so a missing id answers 200 with `null`. | user 2 asks for contact 7, which user 1 owns | an owner-scoped lookup, with 404 when nothing matches | medium, not executed (depends on the Mongoose cast) | `ContactsController.GetByIdAsWrittenIgnoresOwner` | `ContactsController.GetById` |
| controller/contacts.js:117-119 | on a schema error the 400 is sent without `return`, so the update still runs | body `{name: "Bob", email: "not-an-email"}` for the caller's contact | return after the 400, with no write | high, not executed | `ContactsController.UpdateContactAsWrittenStoresRejectedBody` | `ContactsController.UpdateContact` |
| controller/contacts.js:151-155 | on a schema error the 400 is sent without `return`, so the favorite update still runs | body `{favorite: true, name: "x"}` | return after the 400, with no write | high, not executed | `ContactsController.UpdateFavoriteAsWrittenStoresRejectedBody` | `ContactsController.UpdateFavorite` |
| controller/users.js:45-46 | `validatePassword` is called on the looked-up user before the null check, so an unknown email throws outside `try` | login `{email: "a@x.com", password: "p1"}` with no such user | 400 "Wrong credentials" | high, not executed | `UsersController.LoginAsWrittenLeavesUnknownEmailUnanswered` | `UsersController.Login` |

## Left out

- JsValues.ParseNumber: only a signed decimal integer counts as numeric. Other forms that JavaScript's `Number` accepts are treated as non-numeric. Those forms are surrounding whitespace, fractions, a leading or trailing dot (`.5`, `5.`), exponents, hexadecimal, binary and octal literals (`0x1`, `0b1`, `0o7`) and `Infinity`.
- ContactsController.UpdateFavorite: the `favorite` key's value is a boolean or absent. A body such as `{favorite: "yes"}` or `{favorite: null}` is not representable; the corrected handler rejects it with 400 either way.
- ContactsController.UpdateFavoriteAsWritten: for the same reason, the as-written write of an unvalidated non-boolean or `null` value after the 400, and Mongoose's cast of it, are not modelled.
- Numeric width: `(page-1)*limit` is unbounded integer arithmetic. The model does not capture JavaScript's double precision.
- Repeated query keys: a query parameter that arrives as an array is not modelled.
- JWT signing and expiry: the 4-hour expiry and the secret are not modelled. A token is its payload plus an issue-time argument.
- Password hashing and checking: `setPassword` and `validatePassword` come from a schema file that is not part of this model. They are function arguments.
- Joi schemas: `patternContactAdd`, `patternContactUpdate`, `patternFavorite`, `patternUserAdd` and `patternUserPatch` are not part of this model. Their verdict is an argument, and their value is taken to equal the body, so no conversion is modelled.
- Missing email in signup: a signup body without an email is not modelled. In that case `findUser({email: undefined})` depends on how the driver serialises `undefined`.
- Authentication middleware: `middlewares/jwt` is not part of this model. So the model does not say how a presented token is compared with the stored one. The caller's id and `req.user` are inputs.
- Handlers with no implementation: email verification, resend-verification and avatar upload are routed but have no handler in the files modelled.
- Invalid ids: a contact id that is not a valid ObjectId makes Mongoose throw a cast error. That path is not modelled, because ids are natural numbers here.
- Concurrency: async steps, the un-awaited `save()` calls and concurrent requests are not modelled. Each handler is one atomic step.
- Error messages: the text of the 500 messages is the runtime's and the database's. The model uses fixed strings for them.
- Response bodies: `add` answers with the array that `insertMany` returns, and the model keeps that array. The `message: "contact deleted"` beside a removed contact is not modelled.
- Routing, documentation, server start-up and mail transport: these hold no logic of the core.
