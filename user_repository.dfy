/**
 * The decorator demo's user repository: a dictionary-backed `UserRepository`,
 * a `CachingUserRepository` that memoises `GetById` under the key
 * `user_{id}` and evicts on `Save`, and a `ValidationUserRepository` that
 * checks arguments before delegating.  The decorators are composed as in the
 * multiple-decorators scenario: validation, then caching, then the store.
 * `Task` results are plain values; the cache never expires.
 */
module UserRepository {
  import opened Outcomes
  import opened Text

  datatype User = User(id: int, name: string)

  function NotFoundMessage(id: int): string {
    "User with ID " + IntToString(id) + " not found"
  }

  /** The dictionary lookup of `GetByIdAsync`: the stored user, or `KeyNotFoundException`. */
  function Lookup(users: map<int, User>, id: int): (r: Result<User>)
    ensures r.Ok? <==> id in users
    ensures r.Ok? ==> r.value == users[id]
    ensures r.Err? ==> r.exception == KeyNotFound(NotFoundMessage(id))
  {
    if id in users then Ok(users[id]) else Err(KeyNotFound(NotFoundMessage(id)))
  }

  /** What `Save` followed by `GetById` of the same id returns: the saved user, whatever was stored before. */
  lemma SaveThenGet(users: map<int, User>, user: User)
    ensures Lookup(users[user.id := user], user.id) == Ok(user)
  {
  }

  /** Saving a user leaves the lookup of every other id as it was. */
  lemma SaveKeepsOthers(users: map<int, User>, user: User, id: int)
    requires id != user.id
    ensures Lookup(users[user.id := user], id) == Lookup(users, id)
  {
  }

  /** The base repository: a dictionary from id to user. */
  class UserStore {
    var users: map<int, User>
    /** How often `GetById` was called (what the scenario's mock counts). */
    var lookups: nat

    constructor()
      ensures users == map[] && lookups == 0
    {
      users := map[];
      lookups := 0;
    }

    method GetById(id: int) returns (r: Result<User>)
      modifies this`lookups
      ensures r == Lookup(users, id)
      ensures users == old(users) && lookups == old(lookups) + 1
    {
      lookups := lookups + 1;
      if id !in users {
        return Err(KeyNotFound(NotFoundMessage(id)));
      }
      r := Ok(users[id]);
    }

    /** `_users[user.Id] = user`: inserts or overwrites. */
    method Save(user: User)
      modifies this`users
      ensures users == old(users)[user.id := user]
    {
      users := users[user.id := user];
    }
  }

  /** The cache key `$"user_{id}"`. */
  function CacheKey(id: int): string {
    "user_" + IntToString(id)
  }

  /** Distinct ids have distinct cache keys, so evicting one id never touches another's entry. */
  lemma CacheKeyInjective(a: int, b: int)
    requires CacheKey(a) == CacheKey(b)
    ensures a == b
  {
    assert IntToString(a) == CacheKey(a)[5..] == CacheKey(b)[5..] == IntToString(b);
    IntToStringInjective(a, b);
  }

  class CachingUserRepository {
    const inner: UserStore
    var cache: map<string, User>

    /** Every cached user is what the inner repository currently holds for that id. */
    ghost predicate Valid()
      reads this, inner
    {
      forall id :: CacheKey(id) in cache ==> id in inner.users && cache[CacheKey(id)] == inner.users[id]
    }

    constructor(inner: UserStore)
      ensures this.inner == inner && cache == map[] && Valid()
    {
      this.inner := inner;
      cache := map[];
    }

    /**
     * A hit answers from the cache without calling the inner repository; a
     * miss calls it once and caches a found user.  Either way the answer is
     * the inner repository's.
     */
    method GetById(id: int) returns (r: Result<User>)
      requires Valid()
      modifies this`cache, inner`lookups
      ensures Valid() && inner.users == old(inner.users)
      ensures r == Lookup(inner.users, id)
      ensures CacheKey(id) in old(cache) ==> cache == old(cache) && inner.lookups == old(inner.lookups)
      ensures CacheKey(id) !in old(cache) ==> inner.lookups == old(inner.lookups) + 1
      ensures CacheKey(id) !in old(cache) && r.Ok? ==> cache == old(cache)[CacheKey(id) := r.value]
      ensures CacheKey(id) !in old(cache) && r.Err? ==> cache == old(cache)
    {
      var key := CacheKey(id);
      if key in cache {
        return Ok(cache[key]);
      }
      r := inner.GetById(id);
      if r.Ok? {
        cache := cache[key := r.value];
        forall other | CacheKey(other) in cache
          ensures other in inner.users && cache[CacheKey(other)] == inner.users[other]
        {
          if CacheKey(other) == key {
            CacheKeyInjective(other, id);
          }
        }
      }
    }

    /** Writes through to the inner repository, then evicts that id's entry. */
    method Save(user: User)
      requires Valid()
      modifies this`cache, inner`users
      ensures Valid()
      ensures inner.users == old(inner.users)[user.id := user]
      ensures cache == old(cache) - {CacheKey(user.id)}
    {
      inner.Save(user);
      cache := cache - {CacheKey(user.id)};
    }
  }

  /** `UserValidator`'s rules: `Id` greater than 0, `Name` not empty (`NotEmpty` also rejects white space only). */
  function ValidationErrors(user: User): (failed: seq<string>)
    ensures failed == [] <==> user.id > 0 && !IsWhiteSpaceOnly(user.name)
    ensures "Id" in failed <==> user.id <= 0
    ensures "Name" in failed <==> IsWhiteSpaceOnly(user.name)
  {
    (if user.id <= 0 then ["Id"] else []) + (if IsWhiteSpaceOnly(user.name) then ["Name"] else [])
  }

  const InvalidUserId := Argument("Invalid user ID", Some("id"))

  class ValidationUserRepository {
    const inner: CachingUserRepository

    ghost predicate Valid()
      reads this, inner, inner.inner
    {
      inner.Valid()
    }

    constructor(inner: CachingUserRepository)
      ensures this.inner == inner
    {
      this.inner := inner;
    }

    /** A non-positive id throws `ArgumentException` before the inner repository is asked. */
    method GetById(id: int) returns (r: Result<User>)
      requires Valid()
      modifies inner`cache, inner.inner`lookups
      ensures Valid() && inner.inner.users == old(inner.inner.users)
      ensures id <= 0 ==>
        (r == Err(InvalidUserId) && inner.cache == old(inner.cache) && inner.inner.lookups == old(inner.inner.lookups))
      ensures id > 0 ==> r == Lookup(inner.inner.users, id)
      ensures id > 0 ==> inner.inner.lookups == old(inner.inner.lookups) + (if CacheKey(id) in old(inner.cache) then 0 else 1)
      ensures id > 0 ==>
        inner.cache == (if CacheKey(id) in old(inner.cache) || r.Err? then old(inner.cache) else old(inner.cache)[CacheKey(id) := r.value])
    {
      if id <= 0 {
        return Err(InvalidUserId);
      }
      r := inner.GetById(id);
    }

    /** An invalid user throws `ValidationException` and nothing is saved or evicted. */
    method Save(user: User) returns (outcome: Outcome)
      requires Valid()
      modifies inner`cache, inner.inner`users
      ensures Valid()
      ensures ValidationErrors(user) != [] ==>
        (outcome == Threw(Validation(ValidationErrors(user)))
         && inner.inner.users == old(inner.inner.users) && inner.cache == old(inner.cache))
      ensures ValidationErrors(user) == [] ==>
        (outcome == Completed
         && inner.inner.users == old(inner.inner.users)[user.id := user]
         && inner.cache == old(inner.cache) - {CacheKey(user.id)})
    {
      var failed := ValidationErrors(user);
      if failed != [] {
        return Threw(Validation(failed));
      }
      inner.Save(user);
      outcome := Completed;
    }
  }

  /**
   * Validation over caching over a store holding user 1: two lookups of id
   * 1 both return the user, and the store is asked only once.
   */
  method MultipleDecorators() returns (first: Result<User>, second: Result<User>, storeCalls: nat)
    ensures first == Ok(User(1, "Test")) && second == Ok(User(1, "Test"))
    ensures storeCalls == 1
  {
    var store := new UserStore();
    store.Save(User(1, "Test"));
    var caching := new CachingUserRepository(store);
    var decorated := new ValidationUserRepository(caching);
    first := decorated.GetById(1);
    second := decorated.GetById(1);
    storeCalls := store.lookups;
  }
}
