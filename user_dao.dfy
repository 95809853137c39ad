/** The data-access-object demo: users kept in a map from user id to user,
    behind a DAO, and a service that reads through the DAO. */
module UserDao {
  import opened Wrappers
  import GoMaps

  datatype User = User(id: int, firstName: string, lastName: string)

  const UserNotFound := "User not found"

  /** GetUser on the stored users: the user under the id, or an error. */
  function Get(users: map<int, User>, id: int): Result<User> {
    if id in users then Ok(users[id]) else Err(UserNotFound)
  }

  /** DeleteUser on the stored users: the map without the id and no error
      when the id is present; the map unchanged and an error otherwise. */
  function Delete(users: map<int, User>, id: int): (r: (map<int, User>, Status))
    ensures id in users <==> r.1 == Success
    ensures id in users ==> r.0.Keys == users.Keys - {id}
    ensures id !in users ==> r.0 == users
    ensures forall k :: k in r.0 ==> k in users && r.0[k] == users[k]
  {
    if id !in users then (users, Failure(UserNotFound))
    else (users - {id}, Success)
  }

  /** A saved user is found under its id; a deleted one is not; other ids see
      neither change. */
  lemma SaveDeleteGet(users: map<int, User>, u: User, other: int)
    requires other != u.id
    ensures Get(users[u.id := u], u.id) == Ok(u)
    ensures Get(Delete(users, u.id).0, u.id) == Err(UserNotFound)
    ensures Get(users[u.id := u], other) == Get(users, other)
    ensures Get(Delete(users, u.id).0, other) == Get(users, other)
  {
  }

  /** A second delete of the same id fails and changes nothing. */
  lemma DeleteTwice(users: map<int, User>, id: int)
    requires id in users
    ensures Delete(Delete(users, id).0, id) == (Delete(users, id).0, Failure(UserNotFound))
  {
  }

  class UserDaoImpl {
    var users: map<int, User>

    /** Every user is stored under its own id. */
    ghost predicate Valid()
      reads this
    {
      forall id :: id in users ==> users[id].id == id
    }

    /** The demo's `&UserDAOImpl{users: make(map[int]*User)}`. */
    constructor ()
      ensures Valid() && users == map[]
    {
      users := map[];
    }

    method GetUser(id: int) returns (r: Result<User>)
      ensures r == Get(users, id)
      ensures r.Ok? <==> id in users
    {
      r := Get(users, id);
    }

    /** Every stored user exactly once, in Go's unspecified map order. */
    method GetAllUsers() returns (all: seq<User>, err: Status)
      requires Valid()
      ensures err == Success && |all| == |users|
      ensures forall i :: 0 <= i < |all| ==> all[i].id in users && users[all[i].id] == all[i]
      ensures forall i, j :: 0 <= i < j < |all| ==> all[i].id != all[j].id
      ensures forall id :: id in users ==> users[id] in all
    {
      ghost var ks;
      all, ks := GoMaps.Values(users);
      assert forall i :: 0 <= i < |all| ==> all[i].id == ks[i];
      forall id | id in users ensures users[id] in all {
        var i :| 0 <= i < |ks| && ks[i] == id;
      }
      err := Success;
    }

    /** Stores the user under its id, replacing any earlier one; never fails. */
    method SaveUser(user: User) returns (err: Status)
      requires Valid()
      modifies this
      ensures Valid() && users == old(users)[user.id := user] && err == Success
    {
      users := users[user.id := user];
      err := Success;
    }

    method DeleteUser(id: int) returns (err: Status)
      requires Valid()
      modifies this
      ensures Valid() && (users, err) == Delete(old(users), id)
    {
      if id !in users {
        return Failure(UserNotFound);
      }
      users := users - {id};
      return Success;
    }
  }

  class UserService {
    const userDao: UserDaoImpl

    constructor (dao: UserDaoImpl)
      ensures userDao == dao
    {
      userDao := dao;
    }

    /** Exactly what the DAO's GetUser answers. */
    method GetUserDetails(id: int) returns (r: Result<User>)
      ensures r == Get(userDao.users, id)
    {
      r := userDao.GetUser(id);
    }
  }

  /** The demo: user 1 saved through the DAO is read back through the service. */
  method Demo() returns (retrieved: Result<User>)
    ensures retrieved == Ok(User(1, "Giga", "Chad"))
  {
    var userDao := new UserDaoImpl();
    var userService := new UserService(userDao);
    var err := userDao.SaveUser(User(1, "Giga", "Chad"));
    retrieved := userService.GetUserDetails(1);
  }
}
