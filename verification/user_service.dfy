/**
 * The user collection: identity records with their single session-token
 * slot, the `findUser` lookups over them, and the in-place updates the user
 * handlers make to a fetched record before saving it.
 */
module UserService {
  import opened Wrappers
  import opened Identity

  /**
   * A signed session token: its payload `{id, email}` and the moment it was
   * signed. Signature and expiry are not modelled.
   */
  datatype Jwt = Jwt(id: UserId, email: string, issuedAt: nat)

  /** A stored user; `passwordHash` is whatever `setPassword` derived. */
  datatype User = User(id: UserId, email: string, passwordHash: string, subscription: string, token: Option<Jwt>)

  const DefaultSubscription := "starter"

  predicate UserIdsDistinct(us: seq<User>) {
    forall i, j :: 0 <= i < j < |us| ==> us[i].id != us[j].id
  }

  predicate EmailsDistinct(us: seq<User>) {
    forall i, j :: 0 <= i < j < |us| ==> us[i].email != us[j].email
  }

  /** A stored token, when there is one, was issued to this very user. */
  predicate TokenIssuedTo(u: User) {
    u.token.Some? ==> u.token.value.id == u.id && u.token.value.email == u.email
  }

  /** `findUser({email})`: index of the user with that email. */
  function FindByEmail(us: seq<User>, email: string): (r: Option<nat>)
    ensures r.Some? ==> r.value < |us| && us[r.value].email == email
    ensures r.None? <==> forall j :: 0 <= j < |us| ==> us[j].email != email
  {
    if us == [] then None
    else if us[0].email == email then Some(0)
    else match FindByEmail(us[1..], email)
      case None => None
      case Some(k) => Some(k + 1)
  }

  /** `findUser({_id})`: index of the user with that id. */
  function FindById(us: seq<User>, id: UserId): (r: Option<nat>)
    ensures r.Some? ==> r.value < |us| && us[r.value].id == id
    ensures r.Some? ==> forall j :: 0 <= j < r.value ==> us[j].id != id
    ensures r.None? <==> forall j :: 0 <= j < |us| ==> us[j].id != id
  {
    if us == [] then None
    else if us[0].id == id then Some(0)
    else match FindById(us[1..], id)
      case None => None
      case Some(k) => Some(k + 1)
  }

  /** A lookup by id depends on the ids alone, position by position. */
  lemma {:induction false} FindByIdReadsOnlyIds(us: seq<User>, vs: seq<User>, id: UserId)
    requires |us| == |vs| && forall j :: 0 <= j < |us| ==> us[j].id == vs[j].id
    ensures FindById(us, id) == FindById(vs, id)
  {
    if us != [] && us[0].id != id {
      FindByIdReadsOnlyIds(us[1..], vs[1..], id);
    }
  }

  /** The collection after `user.token = token; user.save()` for the user with that id. */
  function WithToken(us: seq<User>, id: UserId, token: Option<Jwt>): seq<User> {
    match FindById(us, id)
    case None => us
    case Some(i) => us[i := us[i].(token := token)]
  }

  /** The collection after `user.subscription = s; user.save()` for the user with that id. */
  function WithSubscription(us: seq<User>, id: UserId, s: string): seq<User> {
    match FindById(us, id)
    case None => us
    case Some(i) => us[i := us[i].(subscription := s)]
  }

  /**
   * Writing the token slot touches only that field of the user with that id:
   * every other user and every other field stays as it was.
   */
  lemma WithTokenKeepsOthers(us: seq<User>, id: UserId, token: Option<Jwt>)
    requires UserIdsDistinct(us)
    ensures |WithToken(us, id, token)| == |us|
    ensures forall j :: 0 <= j < |us| && us[j].id != id ==> WithToken(us, id, token)[j] == us[j]
    ensures forall j :: 0 <= j < |us| && us[j].id == id ==> WithToken(us, id, token)[j] == us[j].(token := token)
  {
  }

  /** Writing the subscription touches only that field of the user with that id. */
  lemma WithSubscriptionKeepsOthers(us: seq<User>, id: UserId, s: string)
    requires UserIdsDistinct(us)
    ensures |WithSubscription(us, id, s)| == |us|
    ensures forall j :: 0 <= j < |us| && us[j].id != id ==> WithSubscription(us, id, s)[j] == us[j]
    ensures forall j :: 0 <= j < |us| && us[j].id == id ==> WithSubscription(us, id, s)[j] == us[j].(subscription := s)
  {
  }

  /** The slot holds one token: of two writes in a row only the last one remains. */
  lemma LastTokenWins(us: seq<User>, id: UserId, first: Option<Jwt>, second: Option<Jwt>)
    ensures WithToken(WithToken(us, id, first), id, second) == WithToken(us, id, second)
  {
    var mid := WithToken(us, id, first);
    FindByIdReadsOnlyIds(us, mid, id);
  }

  /** Clearing the slot twice leaves the same collection as clearing it once. */
  lemma ClearTokenIdempotent(us: seq<User>, id: UserId)
    ensures WithToken(WithToken(us, id, None), id, None) == WithToken(us, id, None)
  {
    LastTokenWins(us, id, None, None);
  }

  /**
   * The user collection: its records and the next identifier to hand out
   * (identifiers are never reused).
   */
  class UserCollection {
    var users: seq<User>
    var nextId: UserId

    ghost predicate Valid()
      reads this
    {
      UserIdsDistinct(users) && EmailsDistinct(users) &&
      forall u :: u in users ==> u.id < nextId && TokenIssuedTo(u)
    }

    constructor ()
      ensures Valid() && users == [] && nextId == 0
    {
      users := [];
      nextId := 0;
    }

    /** `new User({email})`, its password set, then `save()`: a new user with no session. */
    method Create(email: string, passwordHash: string) returns (u: User)
      requires Valid()
      requires FindByEmail(users, email).None?
      modifies this
      ensures Valid()
      ensures u == User(old(nextId), email, passwordHash, DefaultSubscription, None)
      ensures users == old(users) + [u] && nextId == old(nextId) + 1
    {
      u := User(nextId, email, passwordHash, DefaultSubscription, None);
      users := users + [u];
      nextId := nextId + 1;
    }

    /** `user.token = token; user.save()` for the user at index `i`. */
    method SetToken(i: nat, token: Option<Jwt>)
      requires Valid() && i < |users|
      requires token.Some? ==> token.value.id == users[i].id && token.value.email == users[i].email
      modifies this
      ensures Valid() && nextId == old(nextId)
      ensures users == WithToken(old(users), old(users)[i].id, token)
    {
      assert FindById(users, users[i].id) == Some(i);
      users := users[i := users[i].(token := token)];
    }

    /** `user.subscription = s; user.save()` for the user at index `i`. */
    method SetSubscription(i: nat, s: string)
      requires Valid() && i < |users|
      modifies this
      ensures Valid() && nextId == old(nextId)
      ensures users == WithSubscription(old(users), old(users)[i].id, s)
    {
      assert FindById(users, users[i].id) == Some(i);
      users := users[i := users[i].(subscription := s)];
    }
  }
}
