/**
 * `UserUsecase`: two validation guards in front of the user repository,
 * and plain delegation for everything else. The repository (Postgres in
 * the running service) is abstract: a record of the answers its five
 * calls give, each a function of the call's arguments.
 */
module Usecase {
  import opened Wrappers
  import opened Models

  /** A Go `error`, reduced to the text `err.Error()` returns. */
  datatype Error = Error(message: string)

  /** The `UserRepository` interface: what each of its calls answers. */
  datatype UserRepository = UserRepository(
    getUsers: () -> Result<seq<User>, Error>,
    getUserByID: int -> Result<User, Error>,
    createUser: User -> Result<int, Error>,
    updateUser: (int, User) -> Option<Error>,
    deleteUser: int -> Result<int, Error>)

  const NameRequired := Error("name is required")
  const EmailRequired := Error("email is required")

  /** What CreateUser's guards demand before the repository is asked. */
  predicate CreatableUser(user: User)
  {
    user.name != "" && user.email != ""
  }

  /** `GetUsers`: the repository's list or its error, unchanged. */
  function GetUsers(repo: UserRepository): (r: Result<seq<User>, Error>)
    ensures r == repo.getUsers()
  {
    repo.getUsers()
  }

  /** `GetUserByID`: the repository's user or its error, unchanged. */
  function GetUserByID(repo: UserRepository, id: int): (r: Result<User, Error>)
    ensures r == repo.getUserByID(id)
  {
    repo.getUserByID(id)
  }

  /**
   * `CreateUser`: an empty name is refused first, then an empty email;
   * only a user with both reaches the repository, whose answer is returned.
   */
  function CreateUser(repo: UserRepository, user: User): (r: Result<int, Error>)
    ensures user.name == "" ==> r == Failure(NameRequired)
    ensures user.name != "" && user.email == "" ==> r == Failure(EmailRequired)
    ensures CreatableUser(user) ==> r == repo.createUser(user)
  {
    if user.name == "" then Failure(NameRequired)
    else if user.email == "" then Failure(EmailRequired)
    else repo.createUser(user)
  }

  /** `UpdateUser`: only the name is checked; the email may be empty. */
  function UpdateUser(repo: UserRepository, id: int, user: User): (r: Option<Error>)
    ensures user.name == "" ==> r == Some(NameRequired)
    ensures user.name != "" ==> r == repo.updateUser(id, user)
  {
    if user.name == "" then Some(NameRequired) else repo.updateUser(id, user)
  }

  /** `DeleteUser`: the repository's count of deleted rows or its error, unchanged. */
  function DeleteUser(repo: UserRepository, id: int): (r: Result<int, Error>)
    ensures r == repo.deleteUser(id)
  {
    repo.deleteUser(id)
  }

  /**
   * A user the guards refuse is refused whatever the repository would
   * have answered: the repository is never consulted.
   */
  lemma RefusedCreateSkipsRepository(repo1: UserRepository, repo2: UserRepository, user: User)
    requires !CreatableUser(user)
    ensures CreateUser(repo1, user) == CreateUser(repo2, user)
    ensures CreateUser(repo1, user).Failure?
    ensures CreateUser(repo1, user).error == if user.name == "" then NameRequired else EmailRequired
  {
  }

  /** Likewise for an update without a name. */
  lemma RefusedUpdateSkipsRepository(repo1: UserRepository, repo2: UserRepository, id: int, user: User)
    requires user.name == ""
    ensures UpdateUser(repo1, id, user) == UpdateUser(repo2, id, user) == Some(NameRequired)
  {
  }

  /** An update with a name but no email is passed to the repository, unlike a create. */
  lemma UpdateIgnoresEmail(repo: UserRepository, id: int, user: User)
    requires user.name != "" && user.email == ""
    ensures UpdateUser(repo, id, user) == repo.updateUser(id, user)
    ensures CreateUser(repo, user) == Failure(EmailRequired)
  {
  }
}
