/**
 * `UserHandler`: the REST handlers of the user service. Each one reads the
 * id from the path or decodes the body, asks the usecase, and writes one
 * JSON response; a handler is modelled as the function from its inputs to
 * that response.
 */
module UserHandler {
  import opened Wrappers
  import opened Models
  import opened GoText
  import Usecase
  import opened HttpStatus

  /** The JSON bodies the handlers write. */
  datatype Json =
    | ErrorBody(error: string)
    | UsersBody(users: seq<User>)
    | UserBody(user: User)
    | IdBody(id: int)
    | MessageBody(message: string)
    | DeletedBody(message: string, rowsAffected: int)

  /** One response: what `writeJSON` sends, a status and a body. */
  datatype Response = Response(status: int, body: Json)

  /** `writeError`. */
  function WriteError(status: int, message: string): Response
  {
    Response(status, ErrorBody(message))
  }

  /**
   * `extractID`: drop the trailing slashes, take what follows the last
   * remaining '/', and read it with `strconv.Atoi`.
   */
  function ExtractID(path: string): (r: Option<int>)
    ensures r.Some? ==> MinInt <= r.value <= MaxInt
  {
    Atoi(LastSegment(TrimTrailingSlashes(path)))
  }

  /** Trailing slashes never change the id a path gives. */
  lemma ExtractIDIgnoresTrailingSlashes(path: string, n: nat)
    ensures ExtractID(path + seq(n, _ => '/')) == ExtractID(path)
  {
    TrimTrailingSlashesPadded(path, n);
  }

  /** A path whose last segment is `seg`, with or without trailing slashes, gives what Atoi reads from `seg`. */
  lemma ExtractIDOfSegment(prefix: string, seg: string, n: nat)
    requires seg != [] && seg[|seg| - 1] != '/'
    requires forall k :: 0 <= k < |seg| ==> seg[k] != '/'
    ensures ExtractID(prefix + "/" + seg + seq(n, _ => '/')) == Atoi(seg)
  {
    var path := prefix + "/" + seg;
    ExtractIDIgnoresTrailingSlashes(path, n);
    assert path[|path| - 1] == seg[|seg| - 1];
    assert TrimTrailingSlashes(path) == path;
    LastSegmentAfterSlash(prefix, seg);
  }

  /** A path ending in the decimal form of an id gives that id back, with or without trailing slashes. */
  lemma ExtractIDOfItoa(prefix: string, id: int, n: nat)
    requires MinInt <= id <= MaxInt
    ensures ExtractID(prefix + "/" + Itoa(id) + seq(n, _ => '/')) == Some(id)
  {
    ExtractIDOfSegment(prefix, Itoa(id), n);
    AtoiItoa(id);
  }

  /** `/users` and `/users/` name no user: the last segment is "users". */
  lemma CollectionPathHasNoID()
    ensures ExtractID("/users") == None
    ensures ExtractID("/users/") == None
  {
    var path := "" + "/" + "users";
    assert path == "/users";
    assert TrimTrailingSlashes(path) == path;
    LastSegmentAfterSlash("", "users");
    assert Atoi("users") == None by {
      assert !IsDigit("users"[0]);
    }
    ExtractIDIgnoresTrailingSlashes(path, 1);
    assert path + seq(1, _ => '/') == "/users/";
  }

  /** A numeric last segment is the id. */
  lemma ExtractIDExample()
    ensures ExtractID("/users/42") == Some(42)
  {
    var digits := "42";
    assert digits[..1] == "4" && DigitsValue(digits) == 42;
    assert Atoi(digits) == Some(42);
    var path := "/users" + "/" + digits;
    assert path == "/users/42";
    assert TrimTrailingSlashes(path) == path;
    LastSegmentAfterSlash("/users", digits);
  }

  /** A sign is accepted, as Atoi accepts it. */
  lemma ExtractIDSignExample()
    ensures ExtractID("/users/-7") == Some(-7)
  {
    var digits := "-7"[1..];
    assert digits == "7" && AllDigits(digits);
    assert DigitsValue(digits) == 7;
    assert Atoi("-7") == Some(-7);
    var path := "/users" + "/" + "-7";
    assert path == "/users/-7";
    assert TrimTrailingSlashes(path) == path;
    LastSegmentAfterSlash("/users", "-7");
  }

  /** Any other non-digit is refused. */
  lemma ExtractIDRejectExample()
    ensures ExtractID("/users/4x") == None
  {
    assert Atoi("4x") == None by {
      assert !IsDigit("4x"[1]);
    }
    var path := "/users" + "/" + "4x";
    assert path == "/users/4x";
    assert TrimTrailingSlashes(path) == path;
    LastSegmentAfterSlash("/users", "4x");
  }

  /** `GET /users`: the usecase's error is a 500, its list a 200. */
  function GetUsers(repo: Usecase.UserRepository): (resp: Response)
    ensures resp.status >= 400 <==> resp.body.ErrorBody?
    ensures resp.status == StatusOK <==> Usecase.GetUsers(repo).Success?
    ensures resp.status == StatusOK ==> resp.body == UsersBody(Usecase.GetUsers(repo).value)
    ensures resp.status != StatusOK ==>
              resp == WriteError(StatusInternalServerError, Usecase.GetUsers(repo).error.message)
  {
    match Usecase.GetUsers(repo)
    case Failure(err) => WriteError(StatusInternalServerError, err.message)
    case Success(users) => Response(StatusOK, UsersBody(users))
  }

  /** `GET /users/{id}`: a bad id is a 400, a usecase error a 404 with its text, a user a 200. */
  function GetUserByID(repo: Usecase.UserRepository, path: string): (resp: Response)
    ensures resp.status >= 400 <==> resp.body.ErrorBody?
    ensures ExtractID(path).None? ==> resp == WriteError(StatusBadRequest, "invalid id")
    ensures ExtractID(path).Some? && Usecase.GetUserByID(repo, ExtractID(path).value).Failure? ==>
              resp == WriteError(StatusNotFound, Usecase.GetUserByID(repo, ExtractID(path).value).error.message)
    ensures resp.status == StatusOK <==>
              ExtractID(path).Some? && Usecase.GetUserByID(repo, ExtractID(path).value).Success?
    ensures resp.status == StatusOK ==> resp.body == UserBody(Usecase.GetUserByID(repo, ExtractID(path).value).value)
  {
    match ExtractID(path)
    case None => WriteError(StatusBadRequest, "invalid id")
    case Some(id) =>
      match Usecase.GetUserByID(repo, id)
      case Failure(err) => WriteError(StatusNotFound, err.message)
      case Success(user) => Response(StatusOK, UserBody(user))
  }

  /** `POST /users`: an undecodable body or a usecase error is a 400; a new id is a 201. */
  function CreateUser(repo: Usecase.UserRepository, body: Body<User>): (resp: Response)
    ensures resp.status >= 400 <==> resp.body.ErrorBody?
    ensures body.Malformed? ==> resp == WriteError(StatusBadRequest, "invalid request body")
    ensures body.Parsed? && Usecase.CreateUser(repo, body.value).Failure? ==>
              resp == WriteError(StatusBadRequest, Usecase.CreateUser(repo, body.value).error.message)
    ensures resp.status == StatusCreated <==> body.Parsed? && Usecase.CreateUser(repo, body.value).Success?
    ensures resp.status == StatusCreated ==> resp.body == IdBody(Usecase.CreateUser(repo, body.value).value)
  {
    match body
    case Malformed => WriteError(StatusBadRequest, "invalid request body")
    case Parsed(user) =>
      match Usecase.CreateUser(repo, user)
      case Failure(err) => WriteError(StatusBadRequest, err.message)
      case Success(id) => Response(StatusCreated, IdBody(id))
  }

  /** `PUT /users/{id}`: bad id, then bad body, are 400s; a usecase error is a 404. */
  function UpdateUser(repo: Usecase.UserRepository, path: string, body: Body<User>): (resp: Response)
    ensures resp.status >= 400 <==> resp.body.ErrorBody?
    ensures ExtractID(path).None? ==> resp == WriteError(StatusBadRequest, "invalid id")
    ensures ExtractID(path).Some? && body.Malformed? ==> resp == WriteError(StatusBadRequest, "invalid request body")
    ensures ExtractID(path).Some? && body.Parsed? && Usecase.UpdateUser(repo, ExtractID(path).value, body.value).Some? ==>
              resp == WriteError(StatusNotFound, Usecase.UpdateUser(repo, ExtractID(path).value, body.value).value.message)
    ensures resp.status == StatusOK <==>
              ExtractID(path).Some? && body.Parsed? && Usecase.UpdateUser(repo, ExtractID(path).value, body.value).None?
    ensures resp.status == StatusOK ==> resp.body == MessageBody("user updated successfully")
  {
    match ExtractID(path)
    case None => WriteError(StatusBadRequest, "invalid id")
    case Some(id) =>
      match body
      case Malformed => WriteError(StatusBadRequest, "invalid request body")
      case Parsed(user) =>
        match Usecase.UpdateUser(repo, id, user)
        case Some(err) => WriteError(StatusNotFound, err.message)
        case None => Response(StatusOK, MessageBody("user updated successfully"))
  }

  /** `DELETE /users/{id}`: a bad id is a 400, a usecase error a 404, else 200 with the row count. */
  function DeleteUser(repo: Usecase.UserRepository, path: string): (resp: Response)
    ensures resp.status >= 400 <==> resp.body.ErrorBody?
    ensures ExtractID(path).None? ==> resp == WriteError(StatusBadRequest, "invalid id")
    ensures ExtractID(path).Some? && Usecase.DeleteUser(repo, ExtractID(path).value).Failure? ==>
              resp == WriteError(StatusNotFound, Usecase.DeleteUser(repo, ExtractID(path).value).error.message)
    ensures resp.status == StatusOK <==>
              ExtractID(path).Some? && Usecase.DeleteUser(repo, ExtractID(path).value).Success?
    ensures resp.status == StatusOK ==>
              resp.body == DeletedBody("user deleted successfully", Usecase.DeleteUser(repo, ExtractID(path).value).value)
  {
    match ExtractID(path)
    case None => WriteError(StatusBadRequest, "invalid id")
    case Some(id) =>
      match Usecase.DeleteUser(repo, id)
      case Failure(err) => WriteError(StatusNotFound, err.message)
      case Success(rows) => Response(StatusOK, DeletedBody("user deleted successfully", rows))
  }

  /**
   * A path without an id is answered 400 by the by-id handlers whatever
   * the repository holds: the usecase is never asked.
   */
  lemma InvalidIDSkipsUsecase(repo1: Usecase.UserRepository, repo2: Usecase.UserRepository, path: string, body: Body<User>)
    requires ExtractID(path).None?
    ensures GetUserByID(repo1, path) == GetUserByID(repo2, path) == WriteError(StatusBadRequest, "invalid id")
    ensures UpdateUser(repo1, path, body) == UpdateUser(repo2, path, body) == WriteError(StatusBadRequest, "invalid id")
    ensures DeleteUser(repo1, path) == DeleteUser(repo2, path) == WriteError(StatusBadRequest, "invalid id")
  {
  }

  /** The usecase's "name is required" is a 400 for a create but a 404 for an update. */
  lemma MissingNameStatuses(repo: Usecase.UserRepository, path: string, user: User)
    requires user.name == "" && ExtractID(path).Some?
    ensures CreateUser(repo, Parsed(user)) == WriteError(StatusBadRequest, "name is required")
    ensures UpdateUser(repo, path, Parsed(user)) == WriteError(StatusNotFound, "name is required")
  {
  }

  /** The usecase's "email is required" is a 400 for a create, and no obstacle to an update. */
  lemma MissingEmailStatuses(repo: Usecase.UserRepository, path: string, user: User)
    requires user.name != "" && user.email == "" && ExtractID(path).Some?
    ensures CreateUser(repo, Parsed(user)) == WriteError(StatusBadRequest, "email is required")
    ensures UpdateUser(repo, path, Parsed(user)).status == StatusOK <==>
              repo.updateUser(ExtractID(path).value, user).None?
  {
  }
}
