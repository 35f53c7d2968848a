/**
 * The `/users` endpoints over an abstract user table: a map from id to row
 * and the table's auto-increment counter. The store keeps every email
 * address on at most one user.
 */
module Users {
  import opened Common

  /** A row of the `users` table. */
  datatype User = User(id: int, email: string, fullName: string)

  const EmailConflict: HttpError := HttpError(409, "Email already exists")
  const UserNotFound: HttpError := HttpError(404, "Not found")

  /** No two users share an email address. */
  ghost predicate EmailsUnique(users: map<int, User>) {
    forall a, b :: a in users && b in users && users[a].email == users[b].email ==> a == b
  }

  class UserStore {
    var users: map<int, User>
    var nextId: int

    ghost predicate Valid()
      reads this
    {
      && 1 <= nextId
      && (forall id :: id in users ==> users[id].id == id && 1 <= id < nextId)
      && EmailsUnique(users)
    }

    constructor ()
      ensures Valid() && users == map[] && nextId == 1
    {
      users := map[];
      nextId := 1;
    }

    /** The lookup by email that `create_user` performs first. */
    predicate EmailTaken(email: string)
      reads this
    {
      exists id :: id in users && users[id].email == email
    }

    /** `get_user`: the user stored under `id`, or 404; it only reads the store. */
    function GetUser(id: int): (r: Result<User, HttpError>)
      reads this
      requires Valid()
      ensures r.Success? <==> id in users
      ensures r.Success? ==> r.value.id == id && r.value == users[id]
      ensures r.Failure? ==> r.error == UserNotFound
    {
      if id in users then Success(users[id]) else Failure(UserNotFound)
    }

    /**
     * `create_user`: a taken email gives 409 and changes nothing; otherwise
     * one user with the next id is added and can be fetched back.
     */
    method CreateUser(email: string, fullName: string) returns (r: Result<User, HttpError>)
      requires Valid()
      modifies this
      ensures Valid()
      ensures old(EmailTaken(email)) ==> r == Failure(EmailConflict) && users == old(users) && nextId == old(nextId)
      ensures !old(EmailTaken(email)) ==>
        && r == Success(User(old(nextId), email, fullName))
        && old(nextId) !in old(users)
        && users == old(users)[old(nextId) := r.value]
        && nextId == old(nextId) + 1
      ensures r.Success? ==> GetUser(r.value.id) == r
    {
      if EmailTaken(email) {
        return Failure(EmailConflict);
      }
      var user := User(nextId, email, fullName);
      users := users[nextId := user];
      nextId := nextId + 1;
      r := Success(user);
    }
  }

  /**
   * The API test: create `x@y.com`, then fetch it by the id the creation
   * returned; the fetch answers the same id and email.
   */
  method CreateThenGetScenario() returns (created: Result<User, HttpError>, fetched: Result<User, HttpError>)
    ensures created.Success? && created.value.email == "x@y.com" && created.value.fullName == "X Y"
    ensures fetched.Success? && fetched.value.id == created.value.id && fetched.value.email == "x@y.com"
  {
    var store := new UserStore();
    created := store.CreateUser("x@y.com", "X Y");
    fetched := store.GetUser(created.value.id);
  }

  /** A second registration with the same email is refused and leaves the store as it was. */
  method DuplicateEmailScenario(email: string, first: string, second: string)
    returns (again: Result<User, HttpError>, stored: map<int, User>)
    ensures again == Failure(EmailConflict)
    ensures |stored| == 1
  {
    var store := new UserStore();
    var r := store.CreateUser(email, first);
    assert store.users[r.value.id].email == email;
    again := store.CreateUser(email, second);
    stored := store.users;
    assert stored.Keys == {1};
  }
}
