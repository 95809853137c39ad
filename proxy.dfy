/** The proxy demo: a caching proxy in front of a user service. The cache
    remembers every user the real service returned and answers repeated
    requests without calling it. */
module Proxy {
  import opened Wrappers

  datatype User = User(id: string, name: string)

  /** RealUserService.GetUser: the user with the requested id, named
      "John Doe"; it never fails. */
  function RealAnswer(id: string): (r: Result<User>)
    ensures r.Ok? && r.value.id == id && r.value.name == "John Doe"
  {
    Ok(User(id, "John Doe"))
  }

  /** The real service tells ids apart: two requests get the same answer only
      when they ask for the same id. */
  lemma RealAnswerInjective(a: string, b: string)
    ensures RealAnswer(a) == RealAnswer(b) <==> a == b
  {
  }

  /** The service behind the proxy, seen only through its answers. Any
      UserService may stand there, so the answer to each id is a parameter and
      may be an error. Each call is recorded, standing for the real service's
      "Fetching user from API..." line. */
  class Backend {
    const answer: string -> Result<User>
    var requests: seq<string>

    constructor (answer: string -> Result<User>)
      ensures this.answer == answer && requests == []
    {
      this.answer := answer;
      requests := [];
    }

    /** The demo's RealUserService. */
    constructor Real()
      ensures answer == RealAnswer && requests == []
    {
      answer := RealAnswer;
      requests := [];
    }

    method GetUser(id: string) returns (r: Result<User>)
      modifies this
      ensures r == answer(id) && requests == old(requests) + [id]
    {
      r := answer(id);
      requests := requests + [id];
    }
  }

  class CachedUserService {
    const realService: Backend
    var cache: map<string, User>

    /** Every cached user is the backend's successful answer for its id. */
    ghost predicate Valid()
      reads this
    {
      forall id :: id in cache ==> realService.answer(id) == Ok(cache[id])
    }

    /** NewCachedUserService: an empty cache in front of the service. */
    constructor (service: Backend)
      ensures Valid() && realService == service && cache == map[]
    {
      realService := service;
      cache := map[];
    }

    /** A hit answers from the cache without calling the backend; a miss calls
        it once and caches a successful answer, never an error. */
    method GetUser(id: string) returns (r: Result<User>)
      requires Valid()
      modifies this, realService
      ensures Valid()
      ensures r == realService.answer(id)
      ensures id in old(cache) ==> cache == old(cache) && realService.requests == old(realService.requests)
      ensures id !in old(cache) ==> realService.requests == old(realService.requests) + [id]
      ensures id !in old(cache) && r.Ok? ==> cache == old(cache)[id := r.value]
      ensures id !in old(cache) && r.Err? ==> cache == old(cache)
    {
      if id in cache {
        return Ok(cache[id]);
      }
      var user := realService.GetUser(id);
      if user.Err? {
        return Err(user.message);
      }
      cache := cache[id := user.value];
      return user;
    }
  }

  /** In front of the real service, every cached user carries the id it is
      cached under, so a hit returns the very user a miss would have fetched. */
  lemma CachedUsersKeepTheirIds(service: CachedUserService)
    requires service.Valid() && service.realService.answer == RealAnswer
    ensures forall id :: id in service.cache ==> service.cache[id] == User(id, "John Doe")
  {
    forall id | id in service.cache
      ensures service.cache[id] == User(id, "John Doe")
    {
      assert RealAnswer(id) == Ok(service.cache[id]);
    }
  }

  /** The demo: the second request for "123" is served from the cache, so the
      real service is called once. */
  method Demo() returns (first: Result<User>, second: Result<User>, calls: seq<string>)
    ensures first == second == Ok(User("123", "John Doe"))
    ensures calls == ["123"]
  {
    var realUserService := new Backend.Real();
    var service := new CachedUserService(realUserService);
    first := service.GetUser("123");
    second := service.GetUser("123");
    calls := realUserService.requests;
  }
}
