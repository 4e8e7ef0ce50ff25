/**
 * `UserService`: user records in a document store, the find-or-create of a user by Telegram
 * id, the not-found guards, and the thread resolver that maps (user, assistant) to a
 * conversation thread, asking the agent service for a new thread only when none is stored.
 * The store is the users collection in document order; the agent service's `createThread`
 * is an oracle whose calls are recorded and whose answer is a parameter.
 */
module Users {
  import opened Wrappers

  /** The user roles; the enum file is not part of this model, the names follow their use. */
  datatype UserType = USER | ADMIN

  /** A stored user. `threads` maps an assistant id to a thread id. `languageCode` and
      `userType` are read by the bot although the user model does not declare them. */
  datatype User = User(
    id: string,
    telegramId: int,
    username: Option<string>,
    firstName: Option<string>,
    lastName: Option<string>,
    languageCode: Option<string>,
    userType: Option<UserType>,
    threads: Option<map<string, string>>)

  /** What the bot hands to `findOrCreateUser`. */
  datatype UserData = UserData(
    telegramId: int,
    username: Option<string>,
    firstName: Option<string>,
    lastName: Option<string>,
    languageCode: Option<string>)

  /** An update document: the fields present overwrite the stored ones. */
  datatype UserPatch = UserPatch(
    username: Option<string>,
    firstName: Option<string>,
    lastName: Option<string>,
    languageCode: Option<string>,
    threads: Option<map<string, string>>)

  /** A value, or the `NotFoundException` for a user id. */
  datatype Result<T> = Ok(value: T) | NotFound(id: string)

  type Store = seq<User>

  ghost predicate UniqueIds(store: Store) {
    forall i, j :: 0 <= i < j < |store| ==> store[i].id != store[j].id
  }

  predicate HasId(store: Store, id: string) {
    exists k :: 0 <= k < |store| && store[k].id == id
  }

  /** Position of the document with this id, searching from `from`. */
  function IndexOfIdFrom(store: Store, id: string, from: nat): (r: Option<nat>)
    decreases |store| - from
    ensures r.Some? ==> from <= r.value < |store| && store[r.value].id == id
    ensures r.Some? ==> forall j :: from <= j < r.value ==> store[j].id != id
    ensures r.None? ==> forall j :: from <= j < |store| ==> store[j].id != id
  {
    if from >= |store| then None
    else if store[from].id == id then Some(from)
    else IndexOfIdFrom(store, id, from + 1)
  }

  function IndexOfId(store: Store, id: string): (r: Option<nat>)
    ensures r.Some? ==> r.value < |store| && store[r.value].id == id
    ensures r.Some? ==> forall j :: 0 <= j < r.value ==> store[j].id != id
    ensures r.None? <==> !HasId(store, id)
  {
    IndexOfIdFrom(store, id, 0)
  }

  /** Position of the first document with this Telegram id, searching from `from`. */
  function IndexOfTelegramIdFrom(store: Store, telegramId: int, from: nat): (r: Option<nat>)
    decreases |store| - from
    ensures r.Some? ==> from <= r.value < |store| && store[r.value].telegramId == telegramId
    ensures r.Some? ==> forall j :: from <= j < r.value ==> store[j].telegramId != telegramId
    ensures r.None? ==> forall j :: from <= j < |store| ==> store[j].telegramId != telegramId
  {
    if from >= |store| then None
    else if store[from].telegramId == telegramId then Some(from)
    else IndexOfTelegramIdFrom(store, telegramId, from + 1)
  }

  /** `findByTelegramId`: the first document of the query result. */
  function FindByTelegramId(store: Store, telegramId: int): (r: Option<User>)
    ensures r.Some? ==> r.value in store && r.value.telegramId == telegramId
    ensures r.None? <==> forall k :: 0 <= k < |store| ==> store[k].telegramId != telegramId
  {
    match IndexOfTelegramIdFrom(store, telegramId, 0)
    case None => None
    case Some(k) => Some(store[k])
  }

  /** `getUserById`: the stored user, or `NotFound` exactly when no document has the id. */
  function UserById(store: Store, id: string): (r: Result<User>)
    ensures r.NotFound? <==> !HasId(store, id)
    ensures r.NotFound? ==> r.id == id
    ensures r.Ok? ==> r.value in store && r.value.id == id
  {
    match IndexOfId(store, id)
    case None => NotFound(id)
    case Some(k) => Ok(store[k])
  }

  function Patched(u: User, patch: UserPatch): (v: User)
    ensures v.id == u.id && v.telegramId == u.telegramId && v.userType == u.userType
  {
    u.(username := if patch.username.Some? then patch.username else u.username,
       firstName := if patch.firstName.Some? then patch.firstName else u.firstName,
       lastName := if patch.lastName.Some? then patch.lastName else u.lastName,
       languageCode := if patch.languageCode.Some? then patch.languageCode else u.languageCode,
       threads := if patch.threads.Some? then patch.threads else u.threads)
  }

  /** `updateUser`: the updated user and the new store, or `NotFound` with nothing written. */
  function AfterUpdate(store: Store, id: string, patch: UserPatch): (r: Result<(User, Store)>)
    ensures r.NotFound? <==> !HasId(store, id)
    ensures r.Ok? ==> r.value.0.id == id && |r.value.1| == |store|
  {
    match IndexOfId(store, id)
    case None => NotFound(id)
    case Some(k) => var v := Patched(store[k], patch); Ok((v, store[k := v]))
  }

  /** `deleteUser`: the store without the user, or `NotFound` before anything is deleted. */
  function AfterDelete(store: Store, id: string): (r: Result<Store>)
    ensures r.NotFound? <==> !HasId(store, id)
    ensures r.Ok? ==> |r.value| == |store| - 1
  {
    match IndexOfId(store, id)
    case None => NotFound(id)
    case Some(k) => Ok(store[..k] + store[k + 1..])
  }

  /** The record `createUser` stores: the Telegram id and names, under a fresh document id.
      The language code the bot passes along is not copied into the creation document. */
  function NewUser(data: UserData, freshId: string): User {
    User(freshId, data.telegramId, data.username, data.firstName, data.lastName, None, None, None)
  }

  /** `findOrCreateUser`: the existing user with that Telegram id, or a newly created one. */
  function FoundOrCreated(store: Store, data: UserData, freshId: string): (r: (User, Store))
    ensures r.0.telegramId == data.telegramId
    ensures FindByTelegramId(store, data.telegramId).Some? ==>
              r.0 == FindByTelegramId(store, data.telegramId).value && r.1 == store
    ensures FindByTelegramId(store, data.telegramId).None? ==>
              r.0 == NewUser(data, freshId) && r.1 == store + [r.0] && r.0.id == freshId
  {
    match FindByTelegramId(store, data.telegramId)
    case Some(u) => (u, store)
    case None => var u := NewUser(data, freshId); (u, store + [u])
  }

  /** The thread stored for an assistant, when it is set and non-empty (truthy). */
  function StoredThread(u: User, assistantId: string): Option<string> {
    if u.threads.Some? && assistantId in u.threads.value && u.threads.value[assistantId] != ""
    then Some(u.threads.value[assistantId])
    else None
  }

  /** The user after `user.threads ??= {}; user.threads[assistantId] = threadId`: the entry is
      set, every other entry and every other field is unchanged. */
  function WithThread(u: User, assistantId: string, threadId: string): (v: User)
    ensures v.threads.Some? && assistantId in v.threads.value && v.threads.value[assistantId] == threadId
    ensures forall a :: a != assistantId ==>
              (a in v.threads.value <==> u.threads.Some? && a in u.threads.value)
    ensures forall a :: a != assistantId && a in v.threads.value ==> v.threads.value[a] == u.threads.value[a]
    ensures v.(threads := u.threads) == u
  {
    var threads := if u.threads.Some? then u.threads.value else map[];
    u.(threads := Some(threads[assistantId := threadId]))
  }

  /** `addThreadToUser`: the store with the user's thread map updated, or `NotFound`. */
  function AfterAddThread(store: Store, userId: string, assistantId: string, threadId: string): (r: Result<Store>)
    ensures r.NotFound? <==> !HasId(store, userId)
    ensures r.Ok? ==> |r.value| == |store|
  {
    match IndexOfId(store, userId)
    case None => NotFound(userId)
    case Some(k) => Ok(store[k := WithThread(store[k], assistantId, threadId)])
  }

  /** The outcome of resolving a thread: its id, the store afterwards, and whether
      `createThread` was called. */
  datatype Resolution = Resolution(threadId: string, store: Store, created: bool)

  /** `getOrCreateThread`, where `issued` is the `thread_id` the agent service answers if asked. */
  function ResolveThread(store: Store, userId: string, assistantId: string, issued: string): (r: Result<Resolution>)
    ensures r.NotFound? <==> !HasId(store, userId)
  {
    match UserById(store, userId)
    case NotFound(id) => NotFound(id)
    case Ok(u) =>
      match StoredThread(u, assistantId)
      case Some(t) => Ok(Resolution(t, store, false))
      case None =>
        var added := AfterAddThread(store, userId, assistantId, issued);
        Ok(Resolution(issued, added.value, true))
  }

  // ---------------------------------------------------------------------------
  // The service, over a store it updates in place

  class UserService {
    /** The users collection, in document order. */
    var users: Store
    /** The assistant id of every `createThread` call, in call order. */
    var threadRequests: seq<string>

    ghost predicate Valid()
      reads this
    {
      UniqueIds(users)
    }

    constructor(initial: Store)
      requires UniqueIds(initial)
      ensures Valid() && users == initial && threadRequests == []
    {
      users := initial;
      threadRequests := [];
    }

    method GetUserById(id: string) returns (r: Result<User>)
      ensures r == UserById(users, id)
    {
      var k := IndexOfId(users, id);
      if k.None? {
        r := NotFound(id);
      } else {
        r := Ok(users[k.value]);
      }
    }

    method UpdateUser(id: string, patch: UserPatch) returns (r: Result<User>)
      requires Valid()
      modifies this
      ensures Valid() && threadRequests == old(threadRequests)
      ensures match AfterUpdate(old(users), id, patch)
              case NotFound(_) => r == NotFound(id) && users == old(users)
              case Ok((v, store)) => r == Ok(v) && users == store
    {
      var k := IndexOfId(users, id);
      if k.None? {
        return NotFound(id);
      }
      var v := Patched(users[k.value], patch);
      users := users[k.value := v];
      r := Ok(v);
    }

    method DeleteUser(id: string) returns (r: Result<()>)
      requires Valid()
      modifies this
      ensures Valid() && threadRequests == old(threadRequests)
      ensures match AfterDelete(old(users), id)
              case NotFound(_) => r == NotFound(id) && users == old(users)
              case Ok(store) => r == Ok(()) && users == store
    {
      var found := GetUserById(id);
      if found.NotFound? {
        return NotFound(id);
      }
      var k := IndexOfId(users, id);
      users := users[..k.value] + users[k.value + 1..];
      r := Ok(());
    }

    /** `findOrCreateUser`; `freshId` is the document id the store assigns to a new document. */
    method FindOrCreateUser(data: UserData, freshId: string) returns (u: User)
      requires Valid() && !HasId(users, freshId)
      modifies this
      ensures Valid() && threadRequests == old(threadRequests)
      ensures (u, users) == FoundOrCreated(old(users), data, freshId)
    {
      var existing := FindByTelegramId(users, data.telegramId);
      if existing.Some? {
        return existing.value;
      }
      u := NewUser(data, freshId);
      users := users + [u];
    }

    method AddThreadToUser(userId: string, assistantId: string, threadId: string) returns (r: Result<()>)
      requires Valid()
      modifies this
      ensures Valid() && threadRequests == old(threadRequests)
      ensures match AfterAddThread(old(users), userId, assistantId, threadId)
              case NotFound(_) => r == NotFound(userId) && users == old(users)
              case Ok(store) => r == Ok(()) && users == store
    {
      var found := GetUserById(userId);
      if found.NotFound? {
        return NotFound(userId);
      }
      var k := IndexOfId(users, userId);
      users := users[k.value := WithThread(users[k.value], assistantId, threadId)];
      r := Ok(());
    }

    /** `getOrCreateThread`; `issued` is what `createThread` answers if it is called. */
    method GetOrCreateThread(userId: string, assistantId: string, issued: string) returns (r: Result<string>)
      requires Valid()
      modifies this
      ensures Valid()
      ensures match ResolveThread(old(users), userId, assistantId, issued)
              case NotFound(_) =>
                r == NotFound(userId) && users == old(users) && threadRequests == old(threadRequests)
              case Ok(res) =>
                && r == Ok(res.threadId) && users == res.store
                && threadRequests == old(threadRequests) + (if res.created then [assistantId] else [])
    {
      var found := GetUserById(userId);
      if found.NotFound? {
        return NotFound(userId);
      }
      var user := found.value;
      var threadId := if user.threads.Some? && assistantId in user.threads.value
                      then Some(user.threads.value[assistantId]) else None;
      if threadId.Some? && threadId.value != "" {
        return Ok(threadId.value);
      }
      threadRequests := threadRequests + [assistantId];
      var _ := AddThreadToUser(userId, assistantId, issued);
      r := Ok(issued);
    }
  }

  // ---------------------------------------------------------------------------
  // Properties

  /** Replacing a document without changing its id keeps every id lookup where it was. */
  lemma {:induction false} IndexOfIdAfterReplace(store: Store, k: nat, v: User, id: string)
    requires k < |store| && v.id == store[k].id
    ensures IndexOfId(store[k := v], id) == IndexOfId(store, id)
  {
    var s' := store[k := v];
    assert forall j :: 0 <= j < |store| ==> s'[j].id == store[j].id;
    var a, b := IndexOfId(s', id), IndexOfId(store, id);
    if a.Some? && b.Some? {
      assert !(a.value < b.value) && !(b.value < a.value);
    }
  }

  /** Idempotence: once a thread has been created and stored under a non-empty id, resolving
      again returns the same id without another `createThread` call or another write. */
  lemma ResolveIsIdempotent(store: Store, userId: string, assistantId: string, issued: string, issued2: string)
    requires issued != ""
    requires ResolveThread(store, userId, assistantId, issued).Ok?
    ensures var first := ResolveThread(store, userId, assistantId, issued).value;
            ResolveThread(first.store, userId, assistantId, issued2)
              == Ok(Resolution(first.threadId, first.store, false))
  {
    var first := ResolveThread(store, userId, assistantId, issued).value;
    if first.created {
      var k := IndexOfId(store, userId).value;
      var v := WithThread(store[k], assistantId, issued);
      assert first.store == store[k := v];
      IndexOfIdAfterReplace(store, k, v, userId);
      assert UserById(first.store, userId) == Ok(v);
      assert StoredThread(v, assistantId) == Some(issued);
    }
  }

  /** A stored, non-empty thread is returned as is, with no `createThread` call and no write. */
  lemma StoredThreadIsReused(store: Store, userId: string, assistantId: string, issued: string)
    requires UserById(store, userId).Ok?
    requires StoredThread(UserById(store, userId).value, assistantId).Some?
    ensures ResolveThread(store, userId, assistantId, issued)
            == Ok(Resolution(StoredThread(UserById(store, userId).value, assistantId).value, store, false))
  {
  }

  /** Without a stored thread exactly one `createThread` call is made, and its id is stored
      under the assistant id and returned; the user's other threads are untouched. */
  lemma MissingThreadIsCreated(store: Store, userId: string, assistantId: string, issued: string)
    requires UserById(store, userId).Ok?
    requires StoredThread(UserById(store, userId).value, assistantId).None?
    ensures var r := ResolveThread(store, userId, assistantId, issued);
            && r.Ok? && r.value.created && r.value.threadId == issued
            && UserById(r.value.store, userId).Ok?
            && UserById(r.value.store, userId).value
               == WithThread(UserById(store, userId).value, assistantId, issued)
  {
    var k := IndexOfId(store, userId).value;
    var v := WithThread(store[k], assistantId, issued);
    IndexOfIdAfterReplace(store, k, v, userId);
  }

  /** Find-or-create is idempotent: a second call with the same Telegram id finds the user the
      first call returned and creates nothing. */
  lemma FindOrCreateIsIdempotent(store: Store, data: UserData, freshId: string, freshId2: string)
    ensures var (u, s1) := FoundOrCreated(store, data, freshId);
            FoundOrCreated(s1, data, freshId2) == (u, s1)
  {
    var (u, s1) := FoundOrCreated(store, data, freshId);
    if FindByTelegramId(store, data.telegramId).None? {
      assert s1 == store + [u];
      var r := IndexOfTelegramIdFrom(s1, data.telegramId, 0);
      assert s1[|store|].telegramId == data.telegramId;
      assert r.Some? && r.value == |store|;
    }
  }

  /** Updating an existing user stores the patched record under its id and leaves every other
      document where and as it was; a missing id changes nothing. */
  lemma UpdateChangesOnlyThatUser(store: Store, id: string, patch: UserPatch)
    ensures var r := AfterUpdate(store, id, patch);
            && (r.NotFound? ==> !HasId(store, id))
            && (r.Ok? ==> && UserById(store, id).Ok?
                          && r.value.0 == Patched(UserById(store, id).value, patch)
                          && UserById(r.value.1, id) == Ok(r.value.0)
                          && |r.value.1| == |store|
                          && forall j :: 0 <= j < |store| && store[j].id != id ==> r.value.1[j] == store[j])
  {
    var r := AfterUpdate(store, id, patch);
    if r.Ok? {
      var k := IndexOfId(store, id).value;
      IndexOfIdAfterReplace(store, k, r.value.0, id);
    }
  }

  /** Deleting an existing user removes it, and only it; a missing id changes nothing. */
  lemma DeleteRemovesOnlyThatUser(store: Store, id: string)
    requires UniqueIds(store)
    ensures var r := AfterDelete(store, id);
            && (r.NotFound? ==> !HasId(store, id))
            && (r.Ok? ==> (!HasId(r.value, id) && UniqueIds(r.value)
                           && forall u :: u in store && u.id != id ==> u in r.value))
  {
    var r := AfterDelete(store, id);
    if r.Ok? {
      var k := IndexOfId(store, id).value;
      var s' := r.value;
      assert s' == store[..k] + store[k + 1..];
      forall j | 0 <= j < |s'| ensures s'[j].id != id {
        if j < k { assert s'[j] == store[j]; } else { assert s'[j] == store[j + 1]; }
      }
      forall u | u in store && u.id != id ensures u in s' {
        var i :| 0 <= i < |store| && store[i] == u;
        if i < k { assert s'[i] == u; } else { assert i != k; assert s'[i - 1] == u; }
      }
    }
  }

  /** Every write keeps document ids unique (a new document gets a fresh id). */
  lemma WritesKeepIdsUnique(store: Store, id: string, patch: UserPatch, assistantId: string,
                            threadId: string, data: UserData, freshId: string)
    requires UniqueIds(store) && !HasId(store, freshId)
    ensures AfterUpdate(store, id, patch).Ok? ==> UniqueIds(AfterUpdate(store, id, patch).value.1)
    ensures AfterAddThread(store, id, assistantId, threadId).Ok? ==>
              UniqueIds(AfterAddThread(store, id, assistantId, threadId).value)
    ensures UniqueIds(FoundOrCreated(store, data, freshId).1)
  {
  }
}
