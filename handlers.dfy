/**
 * The `/tasks` request handler. Its decisions (method dispatch, which
 * query parameter wins, parsing, title validation) are pure functions
 * from the request to a Plan: either an immediate error reply, or the one
 * store call to make. HandleTasks carries a plan out against the store
 * object, and Serves states, for a store state before and after, what the
 * handler answers.
 */
module Handlers {
  import opened Wrappers
  import opened Models
  import opened GoText
  import opened Storage
  import opened HttpStatus

  /** The longest title accepted, in bytes (Go's `len`). */
  const MaxTitleLength := 200

  /**
   * A request to `/tasks`: the HTTP method, the raw `id` and `done` query
   * parameters (None when absent), and the body decoded as the POST record
   * and as the PATCH record.
   */
  datatype Request = Request(
    httpMethod: string,
    id: Option<string>,
    done: Option<string>,
    createBody: Body<CreateTaskRequest>,
    updateBody: Body<UpdateTaskRequest>)

  /** The JSON the handler sends back. */
  datatype Payload =
    | TaskJson(task: Task)
    | TaskListJson(tasks: seq<Task>)
    | ErrorJson(error: string)
    | UpdatedJson
    | DeletedJson

  /** What a request leads to: an answer without the store, or one store call. */
  datatype Plan =
    | Reply(status: int, payload: Payload)
    | FetchOne(id: int)
    | FetchAll
    | FetchByStatus(done: bool)
    | Insert(title: string)
    | SetDone(id: int, done: bool)
    | Remove(id: int)

  /** `r.URL.Query().Get(name)`: the empty string when the parameter is absent. */
  function QueryGet(param: Option<string>): string
  {
    if param.Some? then param.value else ""
  }

  function Fail(status: int, message: string): Plan
  {
    Reply(status, ErrorJson(message))
  }

  /** `getTaskByID`, up to the store call: a fetch of the id Atoi reads, or a 400 when it reads none. */
  function PlanGetByID(idStr: string): (p: Plan)
    ensures p.Reply? || p.FetchOne?
    ensures p.FetchOne? <==> Atoi(idStr).Some?
    ensures p.FetchOne? ==> Atoi(idStr) == Some(p.id)
    ensures p.Reply? ==> p == Fail(StatusBadRequest, "invalid id")
  {
    match Atoi(idStr)
    case None => Fail(StatusBadRequest, "invalid id")
    case Some(id) => FetchOne(id)
  }

  /** `getTasksByStatus`, up to the store call: a filtered listing when ParseBool accepts the text, else a 400. */
  function PlanGetByStatus(doneStr: string): (p: Plan)
    ensures p.Reply? || p.FetchByStatus?
    ensures p.FetchByStatus? <==> ParseBool(doneStr).Some?
    ensures p.FetchByStatus? ==> ParseBool(doneStr) == Some(p.done)
    ensures p.Reply? ==> p == Fail(StatusBadRequest, "invalid done parameter")
  {
    match ParseBool(doneStr)
    case None => Fail(StatusBadRequest, "invalid done parameter")
    case Some(done) => FetchByStatus(done)
  }

  /** `handleGet`: a non-empty `id` wins over `done`; with neither, list everything. */
  function PlanGet(req: Request): (p: Plan)
    ensures p.Reply? || p.FetchOne? || p.FetchAll? || p.FetchByStatus?
    ensures p.Reply? ==> p.status == StatusBadRequest && p.payload.ErrorJson?
    ensures p.FetchAll? <==> QueryGet(req.id) == "" && QueryGet(req.done) == ""
    ensures p.FetchOne? <==> Atoi(QueryGet(req.id)).Some?
    ensures p.FetchOne? ==> Atoi(QueryGet(req.id)) == Some(p.id)
    ensures p.FetchByStatus? <==> QueryGet(req.id) == "" && ParseBool(QueryGet(req.done)).Some?
    ensures p.FetchByStatus? ==> ParseBool(QueryGet(req.done)) == Some(p.done)
    ensures p == Fail(StatusBadRequest, "invalid id") <==> QueryGet(req.id) != "" && Atoi(QueryGet(req.id)).None?
    ensures p == Fail(StatusBadRequest, "invalid done parameter") <==>
              QueryGet(req.id) == "" && QueryGet(req.done) != "" && ParseBool(QueryGet(req.done)).None?
  {
    var idStr := QueryGet(req.id);
    if idStr != "" then PlanGetByID(idStr)
    else
      var doneStr := QueryGet(req.done);
      if doneStr != "" then PlanGetByStatus(doneStr)
      else FetchAll
  }

  /**
   * `handlePost`: the trimmed title must be non-empty and at most
   * MaxTitleLength bytes. Every title it lets through is non-empty, has no
   * white space at either end and fits the limit.
   */
  function PlanPost(body: Body<CreateTaskRequest>): (p: Plan)
    ensures p.Reply? || p.Insert?
    ensures p.Reply? ==> p.status == StatusBadRequest && p.payload.ErrorJson?
    ensures p.Insert? ==> body.Parsed? && p.title == TrimSpace(body.value.title)
    ensures p.Insert? ==> ByteLen(p.title) <= MaxTitleLength
    ensures body.Malformed? ==> p == Fail(StatusBadRequest, "invalid request body")
    ensures body.Parsed? && AllSpace(body.value.title) ==> p == Fail(StatusBadRequest, "invalid title")
    ensures body.Parsed? && TrimSpace(body.value.title) != "" && ByteLen(TrimSpace(body.value.title)) > MaxTitleLength ==>
              p == Fail(StatusBadRequest, "title too long (max 200 characters)")
    ensures p.Insert? <==>
              body.Parsed? && TrimSpace(body.value.title) != "" && ByteLen(TrimSpace(body.value.title)) <= MaxTitleLength
    ensures p.Insert? ==> p.title != [] && !IsSpace(p.title[0]) && !IsSpace(p.title[|p.title| - 1])
  {
    match body
    case Malformed => Fail(StatusBadRequest, "invalid request body")
    case Parsed(req) =>
      var title := TrimSpace(req.title);
      if title == "" then Fail(StatusBadRequest, "invalid title")
      else if ByteLen(title) > MaxTitleLength then Fail(StatusBadRequest, "title too long (max 200 characters)")
      else Insert(title)
  }

  /** `handlePatch`, up to the store call: id present, then well-formed, then the body. */
  function PlanPatch(req: Request): (p: Plan)
    ensures p.Reply? || p.SetDone?
    ensures p.Reply? ==> p.status == StatusBadRequest && p.payload.ErrorJson?
    ensures p.SetDone? <==> Atoi(QueryGet(req.id)).Some? && req.updateBody.Parsed?
    ensures p.SetDone? ==> Atoi(QueryGet(req.id)) == Some(p.id) && p.done == req.updateBody.value.done
    ensures QueryGet(req.id) == "" ==> p == Fail(StatusBadRequest, "id parameter is required")
    ensures QueryGet(req.id) != "" && Atoi(QueryGet(req.id)).None? ==> p == Fail(StatusBadRequest, "invalid id")
    ensures Atoi(QueryGet(req.id)).Some? && req.updateBody.Malformed? ==> p == Fail(StatusBadRequest, "invalid request body")
  {
    var idStr := QueryGet(req.id);
    if idStr == "" then Fail(StatusBadRequest, "id parameter is required")
    else match Atoi(idStr)
      case None => Fail(StatusBadRequest, "invalid id")
      case Some(id) =>
        match req.updateBody
        case Malformed => Fail(StatusBadRequest, "invalid request body")
        case Parsed(update) => SetDone(id, update.done)
  }

  /** `handleDelete`, up to the store call: id present, then well-formed. */
  function PlanDelete(req: Request): (p: Plan)
    ensures p.Reply? || p.Remove?
    ensures p.Reply? ==> p.status == StatusBadRequest && p.payload.ErrorJson?
    ensures p.Remove? <==> Atoi(QueryGet(req.id)).Some?
    ensures p.Remove? ==> Atoi(QueryGet(req.id)) == Some(p.id)
    ensures QueryGet(req.id) == "" ==> p == Fail(StatusBadRequest, "id parameter is required")
    ensures QueryGet(req.id) != "" && Atoi(QueryGet(req.id)).None? ==> p == Fail(StatusBadRequest, "invalid id")
  {
    var idStr := QueryGet(req.id);
    if idStr == "" then Fail(StatusBadRequest, "id parameter is required")
    else match Atoi(idStr)
      case None => Fail(StatusBadRequest, "invalid id")
      case Some(id) => Remove(id)
  }

  predicate IsRoutedMethod(m: string)
  {
    m == "GET" || m == "POST" || m == "PATCH" || m == "DELETE"
  }

  /**
   * `HandleTasks`'s switch on the method. Only POST creates, only PATCH
   * updates, only DELETE deletes, only GET reads; every answer given
   * without the store is a rejection.
   */
  function PlanRequest(req: Request): (p: Plan)
    ensures !IsRoutedMethod(req.httpMethod) ==> p == Fail(StatusMethodNotAllowed, "method not allowed")
    ensures req.httpMethod == "GET" ==> p == PlanGet(req)
    ensures req.httpMethod == "POST" ==> p == PlanPost(req.createBody)
    ensures req.httpMethod == "PATCH" ==> p == PlanPatch(req)
    ensures req.httpMethod == "DELETE" ==> p == PlanDelete(req)
    ensures p.Reply? ==> p.payload.ErrorJson? && (p.status == StatusBadRequest || p.status == StatusMethodNotAllowed)
    ensures p.Insert? ==> req.httpMethod == "POST"
    ensures p.SetDone? ==> req.httpMethod == "PATCH"
    ensures p.Remove? ==> req.httpMethod == "DELETE"
    ensures p.FetchOne? || p.FetchAll? || p.FetchByStatus? ==> req.httpMethod == "GET"
  {
    if req.httpMethod == "GET" then PlanGet(req)
    else if req.httpMethod == "POST" then PlanPost(req.createBody)
    else if req.httpMethod == "PATCH" then PlanPatch(req)
    else if req.httpMethod == "DELETE" then PlanDelete(req)
    else Fail(StatusMethodNotAllowed, "method not allowed")
  }

  /** A GET with a non-empty `id` is decided by the id alone; `done` is ignored. */
  lemma IdTakesPrecedence(req: Request, otherDone: Option<string>)
    requires req.httpMethod == "GET" && QueryGet(req.id) != ""
    ensures PlanRequest(req) == PlanRequest(req.(done := otherDone))
    ensures PlanRequest(req) == PlanGetByID(QueryGet(req.id))
  {
  }

  /**
   * PATCH reports a missing id before a malformed id, and both before a
   * malformed body: while the id is unusable the body is never looked at.
   */
  lemma PatchCheckOrder(req: Request, otherBody: Body<UpdateTaskRequest>)
    requires req.httpMethod == "PATCH"
    ensures QueryGet(req.id) == "" ==> PlanRequest(req) == Fail(StatusBadRequest, "id parameter is required")
    ensures QueryGet(req.id) != "" && Atoi(QueryGet(req.id)).None? ==> PlanRequest(req) == Fail(StatusBadRequest, "invalid id")
    ensures Atoi(QueryGet(req.id)).Some? && req.updateBody.Malformed? ==> PlanRequest(req) == Fail(StatusBadRequest, "invalid request body")
    ensures Atoi(QueryGet(req.id)).None? ==> PlanRequest(req) == PlanRequest(req.(updateBody := otherBody))
  {
  }

  /**
   * DELETE reports a missing id before a malformed one, and its answer
   * depends on the `id` parameter alone: neither `done` nor a body matters.
   */
  lemma DeleteCheckOrder(req: Request)
    requires req.httpMethod == "DELETE"
    ensures QueryGet(req.id) == "" ==> PlanRequest(req) == Fail(StatusBadRequest, "id parameter is required")
    ensures QueryGet(req.id) != "" && Atoi(QueryGet(req.id)).None? ==> PlanRequest(req) == Fail(StatusBadRequest, "invalid id")
    ensures PlanRequest(req) == PlanRequest(ById("DELETE", QueryGet(req.id)))
  {
  }

  /** A title padded with white space is stored as its core, when the core fits. */
  lemma PaddedTitleIsTrimmed(pre: string, core: string, post: string)
    requires AllSpace(pre) && AllSpace(post)
    requires core != [] && !IsSpace(core[0]) && !IsSpace(core[|core| - 1])
    requires ByteLen(core) <= MaxTitleLength
    ensures PlanPost(Parsed(CreateTaskRequest(pre + core + post))) == Insert(core)
  {
    TrimSpaceOfPadded(pre, core, post);
  }

  /** A title of only white space is refused. */
  lemma BlankTitleIsRefused()
    ensures PlanPost(Parsed(CreateTaskRequest("  "))) == Fail(StatusBadRequest, "invalid title")
  {
    assert AllSpace("  ");
  }

  /**
   * A title of printable ASCII (letters, digits, punctuation, inner blanks)
   * that does not start or end with a blank is accepted exactly when it has
   * at most 200 characters.
   */
  lemma PlainTitleLimit(title: string)
    requires title != [] && title[0] != ' ' && title[|title| - 1] != ' '
    requires forall k :: 0 <= k < |title| ==> ' ' <= title[k] <= '~'
    ensures PlanPost(Parsed(CreateTaskRequest(title))) ==
              if |title| <= MaxTitleLength then Insert(title)
              else Fail(StatusBadRequest, "title too long (max 200 characters)")
  {
    assert forall k :: 0 <= k < |title| ==> (title[k] as int) < 0x80;
    assert ByteLen(title) == |title|;
    assert ' ' <= title[0] <= '~' && ' ' <= title[|title| - 1] <= '~';
    TrimSpaceUnpadded(title);
  }

  /** 200 bytes is the most a title may have. */
  lemma TitleLengthLimit()
    ensures PlanPost(Parsed(CreateTaskRequest(seq(201, _ => 'a')))) == Fail(StatusBadRequest, "title too long (max 200 characters)")
    ensures PlanPost(Parsed(CreateTaskRequest(seq(200, _ => 'a')))) == Insert(seq(200, _ => 'a'))
  {
    PlainTitleLimit(seq(201, _ => 'a'));
    PlainTitleLimit(seq(200, _ => 'a'));
  }

  /** A title made of one non-blank character repeated is accepted exactly when its bytes fit. */
  lemma RepeatedTitleLimit(c: char, n: nat)
    requires n > 0 && !IsSpace(c)
    ensures PlanPost(Parsed(CreateTaskRequest(seq(n, _ => c)))) ==
              if n * Utf8Width(c) <= MaxTitleLength then Insert(seq(n, _ => c))
              else Fail(StatusBadRequest, "title too long (max 200 characters)")
  {
    var title := seq(n, _ => c);
    ByteLenOfRepeat(c, n);
    assert title[0] == title[n - 1] == c;
    TrimSpaceUnpadded(title);
  }

  /** The limit counts bytes: 101 copies of the two-byte 'é' are refused, 100 are accepted. */
  lemma AccentedTitleLimit()
    ensures PlanPost(Parsed(CreateTaskRequest(seq(101, _ => '\U{E9}')))) == Fail(StatusBadRequest, "title too long (max 200 characters)")
    ensures PlanPost(Parsed(CreateTaskRequest(seq(100, _ => '\U{E9}')))) == Insert(seq(100, _ => '\U{E9}'))
  {
    RepeatedTitleLimit('\U{E9}', 101);
    RepeatedTitleLimit('\U{E9}', 100);
  }

  /**
   * What the handler answers from store state `s`, and the state `s'` it
   * leaves. Listings may come in any order.
   */
  ghost predicate Serves(s: StoreState, req: Request, status: int, payload: Payload, s': StoreState): (b: bool)
    requires Inv(s)
    ensures b ==> Inv(s') && s'.nextID >= s.nextID
    ensures b ==> (payload.ErrorJson? <==> status >= 400)
  {
    match PlanRequest(req)
    case Reply(st, p) => status == st && payload == p && s' == s
    case FetchOne(id) =>
      && s' == s
      && (if id in s.tasks then status == StatusOK && payload == TaskJson(s.tasks[id])
          else status == StatusNotFound && payload == ErrorJson("task not found"))
    case FetchAll =>
      s' == s && status == StatusOK && payload.TaskListJson? && Lists(payload.tasks, s.tasks, None)
    case FetchByStatus(done) =>
      s' == s && status == StatusOK && payload.TaskListJson? && Lists(payload.tasks, s.tasks, Some(done))
    case Insert(title) =>
      var (after, task) := AfterCreate(s, title);
      s' == after && status == StatusCreated && payload == TaskJson(task)
    case SetDone(id, done) =>
      var (after, ok) := AfterUpdate(s, id, done);
      && s' == after
      && (if ok then status == StatusOK && payload == UpdatedJson
          else status == StatusNotFound && payload == ErrorJson("task not found"))
    case Remove(id) =>
      var (after, ok) := AfterDelete(s, id);
      && s' == after
      && (if ok then status == StatusOK && payload == DeletedJson
          else status == StatusNotFound && payload == ErrorJson("task not found"))
  }

  /** `TaskHandler.HandleTasks` over the injected store. */
  method HandleTasks(store: TaskStorage, req: Request) returns (status: int, payload: Payload)
    requires store.Valid()
    modifies store
    ensures store.Valid()
    ensures Serves(old(store.State()), req, status, payload, store.State())
  {
    match PlanRequest(req)
    case Reply(st, p) =>
      status, payload := st, p;
    case FetchOne(id) =>
      var task, found := store.GetByID(id);
      if !found {
        status, payload := StatusNotFound, ErrorJson("task not found");
      } else {
        status, payload := StatusOK, TaskJson(task);
      }
    case FetchAll =>
      var tasks := store.GetAll();
      status, payload := StatusOK, TaskListJson(tasks);
    case FetchByStatus(done) =>
      var tasks := store.GetByStatus(done);
      status, payload := StatusOK, TaskListJson(tasks);
    case Insert(title) =>
      var task := store.Create(title);
      status, payload := StatusCreated, TaskJson(task);
    case SetDone(id, done) =>
      var updated := store.Update(id, done);
      if !updated {
        status, payload := StatusNotFound, ErrorJson("task not found");
      } else {
        status, payload := StatusOK, UpdatedJson;
      }
    case Remove(id) =>
      var deleted := store.Delete(id);
      if !deleted {
        status, payload := StatusNotFound, ErrorJson("task not found");
      } else {
        status, payload := StatusOK, DeletedJson;
      }
  }

  /**
   * The store changes only when a POST is answered 201, or a PATCH or
   * DELETE is answered 200; every failed request leaves it as it was.
   */
  lemma StoreChangesOnlyOnSuccess(s: StoreState, req: Request, status: int, payload: Payload, s': StoreState)
    requires Inv(s) && Serves(s, req, status, payload, s')
    ensures status >= 400 ==> s' == s
    ensures s' != s ==>
      || (req.httpMethod == "POST" && status == StatusCreated)
      || (req.httpMethod == "PATCH" && status == StatusOK && payload == UpdatedJson)
      || (req.httpMethod == "DELETE" && status == StatusOK && payload == DeletedJson)
  {
  }

  /** Two answers to the same request from the same state agree, up to the order of a listing. */
  lemma ServesDeterministic(s: StoreState, req: Request,
                            status1: int, payload1: Payload, s1: StoreState,
                            status2: int, payload2: Payload, s2: StoreState)
    requires Inv(s)
    requires Serves(s, req, status1, payload1, s1) && Serves(s, req, status2, payload2, s2)
    ensures s1 == s2 && status1 == status2
    ensures payload1.TaskListJson? <==> payload2.TaskListJson?
    ensures payload1.TaskListJson? ==> multiset(payload1.tasks) == multiset(payload2.tasks)
    ensures !payload1.TaskListJson? ==> payload1 == payload2
  {
    match PlanRequest(req)
    case FetchAll =>
      ListingsAgree(payload1.tasks, payload2.tasks, s.tasks, None);
    case FetchByStatus(done) =>
      ListingsAgree(payload1.tasks, payload2.tasks, s.tasks, Some(done));
    case _ =>
  }

  /**
   * Every GET leaves the store as it was. A non-empty `id` is read and
   * looked up; otherwise a non-empty `done` filters the listing; otherwise
   * everything is listed.
   */
  lemma GetServes(s: StoreState, req: Request, status: int, payload: Payload, s': StoreState)
    requires Inv(s) && req.httpMethod == "GET" && Serves(s, req, status, payload, s')
    ensures s' == s
    ensures QueryGet(req.id) != "" && Atoi(QueryGet(req.id)).None? ==>
              status == StatusBadRequest && payload == ErrorJson("invalid id")
    ensures Atoi(QueryGet(req.id)).Some? && Atoi(QueryGet(req.id)).value in s.tasks ==>
              status == StatusOK && payload == TaskJson(s.tasks[Atoi(QueryGet(req.id)).value])
    ensures Atoi(QueryGet(req.id)).Some? && Atoi(QueryGet(req.id)).value !in s.tasks ==>
              status == StatusNotFound && payload == ErrorJson("task not found")
    ensures QueryGet(req.id) == "" && QueryGet(req.done) != "" && ParseBool(QueryGet(req.done)).None? ==>
              status == StatusBadRequest && payload == ErrorJson("invalid done parameter")
    ensures QueryGet(req.id) == "" && (QueryGet(req.done) == "" || ParseBool(QueryGet(req.done)).Some?) ==>
              status == StatusOK && payload.TaskListJson? && Lists(payload.tasks, s.tasks, ParseBool(QueryGet(req.done)))
  {
    var idStr, doneStr := QueryGet(req.id), QueryGet(req.done);
    assert PlanRequest(req) == PlanGet(req);
    if idStr == "" && doneStr == "" {
      assert ParseBool(doneStr) == None;
    }
  }

  /** A POST with a usable title adds the task under the next id and answers 201 with it; any other leaves the store alone. */
  lemma PostServes(s: StoreState, req: Request, status: int, payload: Payload, s': StoreState)
    requires Inv(s) && req.httpMethod == "POST" && Serves(s, req, status, payload, s')
    ensures req.createBody.Malformed? ==>
              status == StatusBadRequest && payload == ErrorJson("invalid request body") && s' == s
    ensures req.createBody.Parsed? && AllSpace(req.createBody.value.title) ==>
              status == StatusBadRequest && payload == ErrorJson("invalid title") && s' == s
    ensures req.createBody.Parsed? && TrimSpace(req.createBody.value.title) != "" &&
            ByteLen(TrimSpace(req.createBody.value.title)) > MaxTitleLength ==>
              status == StatusBadRequest && payload == ErrorJson("title too long (max 200 characters)") && s' == s
    ensures req.createBody.Parsed? && TrimSpace(req.createBody.value.title) != "" &&
            ByteLen(TrimSpace(req.createBody.value.title)) <= MaxTitleLength ==>
              && status == StatusCreated
              && payload == TaskJson(Task(s.nextID, TrimSpace(req.createBody.value.title), false))
              && s' == AfterCreate(s, TrimSpace(req.createBody.value.title)).0
  {
    assert PlanRequest(req) == PlanPost(req.createBody);
  }

  /**
   * A PATCH with a usable id and body sets `done` on the task with that id
   * and answers 200, or answers 404 when there is none; a PATCH that fails
   * its checks answers 400. Only the 200 changes the store.
   */
  lemma PatchServes(s: StoreState, req: Request, status: int, payload: Payload, s': StoreState)
    requires Inv(s) && req.httpMethod == "PATCH" && Serves(s, req, status, payload, s')
    ensures Atoi(QueryGet(req.id)).None? || req.updateBody.Malformed? ==>
              status == StatusBadRequest && payload.ErrorJson? && s' == s
    ensures Atoi(QueryGet(req.id)).Some? && req.updateBody.Parsed? && Atoi(QueryGet(req.id)).value in s.tasks ==>
              && status == StatusOK && payload == UpdatedJson
              && s' == AfterUpdate(s, Atoi(QueryGet(req.id)).value, req.updateBody.value.done).0
    ensures Atoi(QueryGet(req.id)).Some? && req.updateBody.Parsed? && Atoi(QueryGet(req.id)).value !in s.tasks ==>
              status == StatusNotFound && payload == ErrorJson("task not found") && s' == s
  {
    assert PlanRequest(req) == PlanPatch(req);
  }

  /**
   * A DELETE with a usable id removes the task with that id and answers
   * 200, or answers 404 when there is none; one that fails its checks
   * answers 400. Only the 200 changes the store.
   */
  lemma DeleteServes(s: StoreState, req: Request, status: int, payload: Payload, s': StoreState)
    requires Inv(s) && req.httpMethod == "DELETE" && Serves(s, req, status, payload, s')
    ensures Atoi(QueryGet(req.id)).None? ==> status == StatusBadRequest && payload.ErrorJson? && s' == s
    ensures Atoi(QueryGet(req.id)).Some? && Atoi(QueryGet(req.id)).value in s.tasks ==>
              status == StatusOK && payload == DeletedJson && s' == AfterDelete(s, Atoi(QueryGet(req.id)).value).0
    ensures Atoi(QueryGet(req.id)).Some? && Atoi(QueryGet(req.id)).value !in s.tasks ==>
              status == StatusNotFound && payload == ErrorJson("task not found") && s' == s
  {
    assert PlanRequest(req) == PlanDelete(req);
  }

  /** A request with the given method and `id` query parameter and no usable body. */
  function ById(httpMethod: string, id: string): Request
  {
    Request(httpMethod, Some(id), None, Malformed, Malformed)
  }

  const FirstTask := Task(1, "test", false)

  const PostTest := Request("POST", None, None, Parsed(CreateTaskRequest("test")), Malformed)

  lemma PostTestPlan()
    ensures PlanRequest(PostTest) == Insert("test")
  {
    PlainTitleLimit("test");
  }

  /** POST with title "test" creates the task under the next id and answers 201 with it. */
  lemma PostCreates(s: StoreState, status: int, payload: Payload, s': StoreState)
    requires Inv(s) && Serves(s, PostTest, status, payload, s')
    ensures status == StatusCreated && payload == TaskJson(Task(s.nextID, "test", false))
    ensures s' == AfterCreate(s, "test").0
  {
    PostTestPlan();
  }

  lemma GetFirst(s: StoreState, status: int, payload: Payload, s': StoreState)
    requires Inv(s) && Serves(s, ById("GET", "1"), status, payload, s')
    ensures s' == s
    ensures 1 in s.tasks ==> status == StatusOK && payload == TaskJson(s.tasks[1])
    ensures 1 !in s.tasks ==> status == StatusNotFound && payload == ErrorJson("task not found")
  {
    assert Atoi("1") == Some(1);
    assert PlanRequest(ById("GET", "1")) == FetchOne(1);
  }

  lemma PatchFirst(s: StoreState, status: int, payload: Payload, s': StoreState)
    requires Inv(s) && 1 in s.tasks
    requires Serves(s, Request("PATCH", Some("1"), None, Malformed, Parsed(UpdateTaskRequest(true))), status, payload, s')
    ensures status == StatusOK && payload == UpdatedJson
    ensures s' == AfterUpdate(s, 1, true).0
  {
    assert Atoi("1") == Some(1);
  }

  lemma DeleteFirst(s: StoreState, status: int, payload: Payload, s': StoreState)
    requires Inv(s) && 1 in s.tasks
    requires Serves(s, ById("DELETE", "1"), status, payload, s')
    ensures status == StatusOK && payload == DeletedJson
    ensures s' == AfterDelete(s, 1).0
  {
    assert Atoi("1") == Some(1);
  }

  /**
   * The life of one task on a fresh store: created with id 1, read back,
   * marked done, read back done, deleted, and then not found.
   */
  method TaskLifecycle() returns (st1: int, post: Payload, st2: int, get1: Payload,
                                  st3: int, patch: Payload, st4: int, get2: Payload,
                                  st5: int, del: Payload, st6: int, get3: Payload)
    ensures st1 == StatusCreated && post == TaskJson(FirstTask)
    ensures st2 == StatusOK && get1 == TaskJson(FirstTask)
    ensures st3 == StatusOK && patch == UpdatedJson
    ensures st4 == StatusOK && get2 == TaskJson(FirstTask.(done := true))
    ensures st5 == StatusOK && del == DeletedJson
    ensures st6 == StatusNotFound && get3 == ErrorJson("task not found")
  {
    var store := new TaskStorage();
    var s0 := store.State();
    st1, post := HandleTasks(store, PostTest);
    PostCreates(s0, st1, post, store.State());
    assert store.tasks[1] == FirstTask;
    var s1 := store.State();
    st2, get1 := HandleTasks(store, ById("GET", "1"));
    GetFirst(s1, st2, get1, store.State());
    var s2 := store.State();
    st3, patch := HandleTasks(store, Request("PATCH", Some("1"), None, Malformed, Parsed(UpdateTaskRequest(true))));
    PatchFirst(s2, st3, patch, store.State());
    var s3 := store.State();
    st4, get2 := HandleTasks(store, ById("GET", "1"));
    GetFirst(s3, st4, get2, store.State());
    var s4 := store.State();
    st5, del := HandleTasks(store, ById("DELETE", "1"));
    DeleteFirst(s4, st5, del, store.State());
    var s5 := store.State();
    st6, get3 := HandleTasks(store, ById("GET", "1"));
    GetFirst(s5, st6, get3, store.State());
  }
}
