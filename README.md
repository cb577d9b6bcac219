# Task and user services, modelled in Dafny

This project models the core of a small Go web backend. It has two services.

- **Task service.** An in-memory task store (`TaskStorage`) and the `/tasks` HTTP handler in front of it.
  - The store is a map from id to task plus an id counter that starts at 1.
  - The handler dispatches on the HTTP method, reads the `id` and `done` query parameters, and validates titles: they are trimmed, must be non-empty, and may be at most 200 bytes.
  - It turns every outcome into a status code and a JSON payload.
- **User service.**
  - `UserUsecase`: validation guards in front of an abstract user repository.
  - `UserHandler`: takes the id from the last path segment (`extractID`) and maps usecase errors to status codes.
  - The middleware: an API-key gate and a response writer that captures the status code for logging.

Modules:

- `Wrappers`: `Option` and `Result`.
- `HttpStatus`: the `net/http` status codes the handlers and middlewares answer with, defined once.
- `GoText`: the parts of Go's standard library the handlers depend on, written out.
  - `strconv.Atoi`: optional sign, ASCII digits, 64-bit range.
  - `strconv.ParseBool`: its twelve literals.
  - `strings.TrimSpace`: over Unicode white space.
  - `len` on a string: the UTF-8 byte count.
  - `strings.TrimRight(.., "/")` and the last element of `strings.Split(.., "/")`.
- `Models`: `Task`, the two request bodies, `User`, and `Body<T>`. `Body<T>` is the outcome of decoding a JSON body: `Malformed`, or `Parsed(value)` with Go's zero values in absent fields.
- `Storage`: three layers.
  - The abstract state `StoreState`, its invariant `Inv`, and the transitions `AfterCreate`, `AfterUpdate` and `AfterDelete`.
  - The `TaskStorage` class. Its fields `tasks` and `nextID` are updated in place, and each method is proved against the transitions.
  - Lemmas about listings and about runs of operations.
- `Handlers`: three parts.
  - Pure planners (`PlanRequest` and friends) turn a request into either an immediate reply or exactly one store call.
  - `HandleTasks` is a method that carries the plan out on a `TaskStorage`.
  - `Serves` is the relation between the store before, the request, the answer and the store after.
- `Usecase`: the repository is a record of functions, one per interface method. Each gives the answer that call would return.
- `UserHandler`: each handler is a function from its inputs to the one response it writes.
- `Middleware`:
  - `APIKey` is a function over an abstract `next` handler;
  - `LoggingResponseWriter` is a class with a mutable `statusCode`;
  - `Logging` is a method that drives the wrapper with the `WriteHeader` calls a handler makes.

Conventions:

- A query parameter is `Option<string>`. `QueryGet` returns `""` for an absent parameter, as `url.Values.Get` does. So an empty value and an absent parameter behave the same.
- `GetAll` and `GetByStatus` iterate over a Go map, so they return their tasks in no fixed order. A listing is therefore specified as any duplicate-free sequence holding exactly the wanted stored tasks (`Storage.Lists`). Any two listings agree as multisets.
- Go's `int` is 64 bits. `Atoi` rejects values outside that range, as Go's range error does.
- The title-length error message says "characters", but the length test uses `len`, which counts UTF-8 bytes. The model follows the code: `ByteLen`.

## Model

| member | source | states |
|---|---|---|
| Storage.TaskStorage.constructor | internal/storage/storage.go:15-20 | a new store holds no tasks and its counter is 1, and the invariant holds |
| Storage.AfterCreate | internal/storage/storage.go:22-35 | Create returns Task(old nextID, title, false), which is not yet stored; stores it under that key; leaves every other entry unchanged; raises nextID by exactly 1; keeps the invariant |
| Storage.TaskStorage.Create | internal/storage/storage.go:22-35 | the method's new fields and result are those of AfterCreate: the map gains exactly the new task and nextID is one higher |
| Storage.TaskStorage.GetByID | internal/storage/storage.go:37-43 | found holds exactly when the id is stored; the result is then the stored task, otherwise the zero Task; nothing changes |
| Storage.TaskStorage.GetAll | internal/storage/storage.go:45-54 | the loop over the map returns each stored task exactly once and nothing else, in some order, with length equal to the map size |
| Storage.TaskStorage.GetByStatus | internal/storage/storage.go:56-67 | the loop returns each stored task whose done flag equals the argument exactly once and nothing else |
| Storage.ListingsAgree | internal/storage/storage.go:45-67 | two listings with the same filter from the same map are permutations of each other |
| Storage.ListedOnce | internal/storage/storage.go:45-67 | a listing contains a task exactly once if it is stored and wanted, otherwise not at all |
| Storage.ListingsPartition | internal/storage/storage.go:45-67 | the done and not-done listings share no task, and together they are a permutation of the full listing, with lengths that add up |
| Storage.AfterUpdate | internal/storage/storage.go:69-81 | an absent id gives false and no change; otherwise true, only that task's done is set, its title and id stay, and every other entry and nextID are unchanged |
| Storage.TaskStorage.Update | internal/storage/storage.go:69-81 | the method's new fields and result are those of AfterUpdate |
| Storage.UpdateIdempotent | internal/storage/storage.go:69-81 | repeating an update with the same value gives the same state and result |
| Storage.AfterDelete | internal/storage/storage.go:84-94 | an absent id gives false and no change; otherwise true, only that key is removed, and nextID stays |
| Storage.TaskStorage.Delete | internal/storage/storage.go:84-94 | the method's new fields and result are those of AfterDelete |
| Storage.Run | internal/storage/storage.go:22-94 | any sequence of create, update and delete calls keeps the invariant and never lowers nextID |
| Storage.CreatedIdsIncrease | internal/storage/storage.go:26-32 | the ids returned by the Create calls of any run are strictly increasing and lie between the starting and final counter |
| Storage.RunAppend | internal/storage/storage.go:22-94 | running two call sequences one after the other is running their concatenation |
| Storage.CreatedIdsAppend | internal/storage/storage.go:26-32 | the ids handed out by a concatenated run are those of the first part followed by those of the second |
| Storage.StaysRetired | internal/storage/storage.go:84-94 | an id below the counter that is not stored is never stored again and never returned by a later Create |
| Storage.DeletedIdNeverReused | internal/storage/storage.go:84-94 | after Delete(k), no later sequence of calls stores task k again or returns k from Create |
| Storage.CreatesAreConsecutive | internal/storage/storage.go:26-32 | N Create calls return the N consecutive ids from the counter up, and add exactly those keys |
| Storage.FreshStoreIds | internal/storage/storage.go:15-35 | from a fresh store, N Create calls return exactly 1..N, and those are the stored keys |
| GoText.TrimSpace | internal/handlers/handlers.go:119 | the trimmed title is empty exactly when the title is all white space; otherwise it starts and ends with a non-space character |
| GoText.TrimSpaceOfPadded | internal/handlers/handlers.go:119 | trimming gives back the core of any string of the form white space, core, white space |
| GoText.TrimSpaceIdempotent | internal/handlers/handlers.go:119 | trimming twice is trimming once |
| GoText.ByteLen | internal/handlers/handlers.go:128 | len counts between one and four bytes per character, and exactly one per character for an ASCII string |
| GoText.Atoi | internal/handlers/handlers.go:68 | a parsed value fits in 64 bits and comes from a string that starts with a digit or a sign and has only digits after it; "", "+" and "-" are refused |
| GoText.AtoiItoa | internal/handlers/handlers.go:68 | every 64-bit integer is read back from its decimal form |
| GoText.AtoiDigits | internal/handlers/handlers.go:68 | a non-empty run of ASCII digits is read as its decimal value when that fits in 64 bits, and refused otherwise |
| GoText.AtoiPlus | internal/handlers/handlers.go:68 | a leading '+' changes nothing about what is read |
| GoText.AtoiMinus | internal/handlers/handlers.go:68 | '-' followed by digits is read as the negated value down to the 64-bit minimum, and refused beyond it |
| GoText.AtoiLeadingZero | internal/handlers/handlers.go:68 | a leading zero changes nothing about what is read |
| GoText.ParseBool | internal/handlers/handlers.go:92 | exactly the twelve literals 1, t, T, TRUE, true, True, 0, f, F, FALSE, false, False are accepted, and the value is true exactly for those starting with 1, t or T |
| GoText.ParseFormatBool | internal/handlers/handlers.go:92 | ParseBool accepts the formatted form of both booleans and returns the same value |
| Handlers.PlanGetByID | internal/handlers/handlers.go:67-75 | the task is fetched exactly when Atoi reads the id text, under the id it reads; otherwise 400 "invalid id" |
| Handlers.PlanGetByStatus | internal/handlers/handlers.go:91-99 | the filtered listing is asked for exactly when ParseBool accepts the text, with the value it reads; otherwise 400 "invalid done parameter" |
| Handlers.PlanGet | internal/handlers/handlers.go:46-65 | GET lists everything exactly when both id and done are empty; it fetches one task exactly when Atoi reads the id, and answers 400 "invalid id" exactly when a non-empty id does not parse; with an empty id it filters exactly when ParseBool accepts done, and answers 400 "invalid done parameter" exactly when a non-empty done is refused |
| Handlers.IdTakesPrecedence | internal/handlers/handlers.go:50-59 | a GET with a non-empty id gets the same plan whatever done says, namely the by-id plan |
| Handlers.PlanPost | internal/handlers/handlers.go:107-141 | an undecodable body gives 400 "invalid request body"; an all-white-space title gives 400 "invalid title"; a trimmed title over 200 bytes gives 400 "title too long (max 200 characters)"; a create is planned exactly when the body decodes and the trimmed title is non-empty and at most 200 bytes, and its title is the trimmed title, with no white space at either end |
| Handlers.PaddedTitleIsTrimmed | internal/handlers/handlers.go:119-137 | a padded title whose core fits is stored as that core |
| Handlers.BlankTitleIsRefused | internal/handlers/handlers.go:119-126 | a title of white space only gives 400 "invalid title" |
| Handlers.PlainTitleLimit | internal/handlers/handlers.go:128-134 | a title of printable ASCII (inner blanks allowed) that does not start or end with a blank is accepted exactly when it has at most 200 characters; otherwise 400 "title too long (max 200 characters)" |
| Handlers.TitleLengthLimit | internal/handlers/handlers.go:128-134 | 200 letters are accepted and 201 are refused |
| Handlers.RepeatedTitleLimit | internal/handlers/handlers.go:128-134 | a title of one non-blank character repeated n times is accepted exactly when n times its UTF-8 width is at most 200 |
| Handlers.AccentedTitleLimit | internal/handlers/handlers.go:128-134 | the limit counts bytes: 100 copies of the two-byte 'é' are accepted, 101 are refused although they are far fewer than 200 characters |
| Handlers.PlanPatch | internal/handlers/handlers.go:144-170 | an empty id gives 400 "id parameter is required", an unparsable one 400 "invalid id", then an undecodable body 400 "invalid request body"; the update is planned exactly when the id parses and the body decodes, with that id and the body's done value |
| Handlers.PatchCheckOrder | internal/handlers/handlers.go:145-170 | PATCH reports a missing id first, then a malformed id, then a bad body, with the exact messages; while the id does not parse the body is never looked at |
| Handlers.PlanDelete | internal/handlers/handlers.go:188-205 | an empty id gives 400 "id parameter is required", an unparsable one 400 "invalid id"; the delete is planned exactly when the id parses, with that id |
| Handlers.DeleteCheckOrder | internal/handlers/handlers.go:188-205 | DELETE reports a missing id before a malformed one, and its answer depends on the id parameter alone, not on done or the body |
| Handlers.PlanRequest | internal/handlers/handlers.go:28-42 | GET, POST, PATCH and DELETE are each planned by their own handler; any other method gives 405 "method not allowed"; only POST creates, only PATCH updates, only DELETE deletes, only GET reads; every immediate reply is a 400 or 405 error |
| Handlers.Serves | internal/handlers/handlers.go:25-220 | every answer it allows keeps the store invariant and never lowers the id counter, and its payload is an error exactly when the status is 400 or above |
| Handlers.HandleTasks | internal/handlers/handlers.go:25-220 | running the handler on the store gives exactly the status, payload and new store state that Serves allows, and keeps the store invariant |
| Handlers.GetServes | internal/handlers/handlers.go:46-104 | every GET leaves the store unchanged; a non-empty id that does not parse gives 400 "invalid id", a parsed id gives 200 with the stored task or 404 "task not found"; with an empty id a refused done gives 400 "invalid done parameter", and otherwise 200 with the listing filtered by done, or everything when done is empty |
| Handlers.PostServes | internal/handlers/handlers.go:107-141 | each of the three rejections comes with its message and leaves the store unchanged; a usable title gives 201 with Task(next id, trimmed title, not done) and the Create state |
| Handlers.PatchServes | internal/handlers/handlers.go:144-186 | a PATCH that fails its checks is a 400 error and changes nothing; with a usable id and body it gives 200 {updated:true} and the Update state when the task exists, and 404 "task not found" with no change otherwise |
| Handlers.DeleteServes | internal/handlers/handlers.go:188-220 | a DELETE whose id does not parse is a 400 error and changes nothing; with a parsed id it gives 200 {deleted:true} and the Delete state when the task exists, and 404 "task not found" with no change otherwise |
| Handlers.StoreChangesOnlyOnSuccess | internal/handlers/handlers.go:107-220 | every answer of 400 or above leaves the store as it was; the store changes only on POST with 201, PATCH with 200 and DELETE with 200 |
| Handlers.ServesDeterministic | internal/handlers/handlers.go:25-220 | two answers to the same request from the same state agree on status and new state, and agree on the payload up to the order of a listing |
| Handlers.PostCreates | internal/handlers/handlers.go:137-140 | a valid POST with title "test" answers 201 with the task under the next id, not done, and leaves the Create state |
| Handlers.GetFirst | internal/handlers/handlers.go:67-88 | GET ?id=1 gives 200 with the stored task when task 1 exists, otherwise 404 "task not found", and never changes the store |
| Handlers.PatchFirst | internal/handlers/handlers.go:173-185 | PATCH ?id=1 with done true on an existing task gives 200 {updated:true} and the Update state |
| Handlers.DeleteFirst | internal/handlers/handlers.go:207-219 | DELETE ?id=1 on an existing task gives 200 {deleted:true} and the Delete state |
| Handlers.TaskLifecycle | internal/handlers/handlers.go:25-220 | on a fresh store object, the handler creates a task as id 1, reads it back, marks it done, reads it back done, deletes it, and then answers 404 "task not found" |
| Usecase.GetUsers | internal/usecase/user_usecase.go:18-20 | returns the repository's list or error unchanged |
| Usecase.GetUserByID | internal/usecase/user_usecase.go:22-24 | returns the repository's user or error unchanged |
| Usecase.CreateUser | internal/usecase/user_usecase.go:26-34 | an empty name gives "name is required"; otherwise an empty email gives "email is required"; only a user with both gets the repository's answer |
| Usecase.RefusedCreateSkipsRepository | internal/usecase/user_usecase.go:27-32 | a user the guards refuse gets the same error whatever the repository would answer, so the repository is not consulted |
| Usecase.UpdateUser | internal/usecase/user_usecase.go:36-41 | an empty name gives "name is required"; otherwise the repository's answer |
| Usecase.RefusedUpdateSkipsRepository | internal/usecase/user_usecase.go:37-39 | an update without a name gets "name is required" whatever the repository would answer |
| Usecase.UpdateIgnoresEmail | internal/usecase/user_usecase.go:30-40 | an update with a name but no email reaches the repository, while a create with the same user is refused |
| Usecase.DeleteUser | internal/usecase/user_usecase.go:43-45 | returns the repository's row count or error unchanged |
| UserHandler.ExtractID | internal/handler/user_handler.go:103-106 | any id extracted from a path fits in 64 bits |
| UserHandler.ExtractIDIgnoresTrailingSlashes | internal/handler/user_handler.go:104 | a path gives the same result with any number of trailing slashes added |
| UserHandler.ExtractIDOfSegment | internal/handler/user_handler.go:103-106 | a path whose last segment is s, with or without trailing slashes, gives what Atoi reads from s |
| UserHandler.ExtractIDOfItoa | internal/handler/user_handler.go:103-106 | a path ending in the decimal form of an id, with or without trailing slashes, gives that id |
| UserHandler.CollectionPathHasNoID | internal/handler/user_handler.go:104-105 | "/users" and "/users/" give no id, because their last segment is "users" |
| UserHandler.ExtractIDExample | internal/handler/user_handler.go:103-106 | "/users/42" gives 42 |
| UserHandler.ExtractIDSignExample | internal/handler/user_handler.go:105 | "/users/-7" gives -7, because Atoi accepts a sign |
| UserHandler.ExtractIDRejectExample | internal/handler/user_handler.go:105 | "/users/4x" gives no id |
| UserHandler.GetUsers | internal/handler/user_handler.go:31-38 | 200 with the list exactly when the usecase succeeds, otherwise 500 with the error's text; the body is an error exactly when the status is 400 or above |
| UserHandler.GetUserByID | internal/handler/user_handler.go:40-52 | a path without an id gives 400 "invalid id"; a usecase error gives 404 with its text; 200 with the user exactly when both succeed |
| UserHandler.CreateUser | internal/handler/user_handler.go:54-66 | an undecodable body gives 400 "invalid request body"; a usecase error gives 400 with its text; 201 with the new id exactly when both succeed |
| UserHandler.UpdateUser | internal/handler/user_handler.go:68-84 | a bad id gives 400, then a bad body gives 400, then a usecase error gives 404 with its text; 200 "user updated successfully" exactly when all succeed |
| UserHandler.DeleteUser | internal/handler/user_handler.go:86-101 | a bad id gives 400; a usecase error gives 404 with its text; 200 with "user deleted successfully" and the row count exactly when both succeed |
| UserHandler.InvalidIDSkipsUsecase | internal/handler/user_handler.go:40-101 | a path without an id gets 400 "invalid id" from the get, update and delete handlers, whatever the repository would answer |
| UserHandler.MissingNameStatuses | internal/handler/user_handler.go:54-84 | a user without a name is a 400 on create but a 404 on update, both with "name is required" |
| UserHandler.MissingEmailStatuses | internal/handler/user_handler.go:54-84 | a user with a name but no email is a 400 "email is required" on create, while the update succeeds exactly when the repository accepts it |
| Middleware.RejectsExactlyWrongKeys | internal/middleware/middleware.go:10-20 | the gate's test refuses a key exactly when it differs from "secret12345"; the empty test adds nothing |
| Middleware.APIKey | internal/middleware/middleware.go:16-31 | rejects exactly when the key is not "secret12345", then with 401 "unauthorized"; otherwise the answer is what next gives for the unchanged request |
| Middleware.RejectionIgnoresNext | internal/middleware/middleware.go:21-26 | a refused request gets the same 401 whatever handler stands behind the gate, so next is not invoked |
| Middleware.MissingKeyIsRejected | internal/middleware/middleware.go:18-20 | a request without the header is refused |
| Middleware.LoggingResponseWriter.constructor | internal/middleware/middleware.go:39-42 | the wrapper starts with status 200 around the given writer |
| Middleware.LoggingResponseWriter.WriteHeader | internal/middleware/middleware.go:65-68 | records the code and forwards the same code to the wrapped writer |
| Middleware.Logging | internal/middleware/middleware.go:34-57 | every code the handler writes reaches the wrapped writer in order, and the logged status is the last code written, or 200 if none was |
| Middleware.RecordedIsLastWrite | internal/middleware/middleware.go:66 | only the last write decides the recorded status; with no write it is 200 |

## Left out

- The `sync.RWMutex` in `TaskStorage`: every method is modelled as running alone.
- `nextID` overflow: the counter is an unbounded integer, so it does not wrap around at the 64-bit limit.
- JSON encoding and decoding, and `http.ResponseWriter`. Also left out: the `Content-Type` headers, the payload shapes beyond their fields, and the `net/http` routing of `/users` and `/users/`. A decoded body is the abstract `Body<T>`, and a response is a status code plus a payload value.
- The `X-API-KEY` header lookup. `APIKey` takes the value `r.Header.Get` returns, `""` when absent. Go's canonicalisation of header names and the choice among repeated values are not modelled.
- The Postgres repository and its SQL. `Usecase.UserRepository` is an abstract record of the five interface calls, each a function of its arguments. A real database's answer also depends on its contents at call time, which the model does not track. `User.CreatedAt` is not modelled.
- `log.Printf`, `time.Now` and `time.Since` in the logging middleware. `Middleware.Logging` returns the status the log line would report instead of printing it.
- `net/http` itself ignores a second `WriteHeader` on the real writer. `ResponseRecorder` simply records every code it receives.
- How a handler behind `Logging` decides its `WriteHeader` calls. `Middleware.Logging` takes the calls as a sequence.
- Server construction, timeouts, signal handling and shutdown (the main programs), and the wiring in the app package.
- Strings are sequences of Unicode scalar values. A Go string that is not valid UTF-8 is not modelled.
