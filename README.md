# Task tracker: a verified model of its request handling

This project models the core of a small task-tracking web application in
Dafny. The server is an Express API with JWT authentication and role-based
access: users register and log in, then create, list, read, update and
delete tasks. The client is a React dashboard that calls the API through an
axios instance.

The model covers:

- the request pipeline stages `authenticate`, `authorize` and `validate`;
- the four zod request schemas;
- the central error handler;
- the auth and task handlers, including the ownership policy;
- the dashboard's status toggle, status filter and counters;
- the task dialog's submit guard and trimmed payload;
- the client's request and response interceptors.

One module per source file:

| module | file | content |
|---|---|---|
| `Builtins` | `builtins.dfy` | the JavaScript built-ins the code relies on: truthiness, `\|\|` on strings, `.length` in UTF-16 code units, `startsWith`, `split`, `join`, `trim` (the ECMAScript whitespace set), `filter` |
| `Jwt` | `jwt.dfy` | the token service, passed in as a pair of functions `sign`/`verify` with a lifetime; `Sound` is the one assumption made about them |
| `Validators` | `validators.dfy` | each schema as a parser from a JSON body to a typed record, with zod's default issue messages and the schema-order list of issues |
| `Middleware` | `middleware.dfy` | the bearer-header parser and the `Request` object whose `user` and `body` the stages overwrite |
| `ErrorHandler` | `error_handler.dfy` | the first-match classification of errors into status and reply |
| `TaskController` | `task_controller.dfy` | pure transition functions `Create`/`Get`/`Update`/`Delete` over the task map state each handler's outcome; the `TaskStore` class implements them branch by branch |
| `AuthController` | `auth_controller.dfy` | `RegisterResult` and the `UserStore` class (`Register`, `Login`, `GetMe`) |
| `Dashboard` | `dashboard.dfy` | next status, filter, stats |
| `TaskModal` | `task_modal.dfy` | initial fields, submit-disabled condition, the payload `handleSubmit` sends, and the `Modal` class holding the dialog's state |
| `ApiClient` | `api_client.dfy` | the interceptors over a `Browser` (local storage, location) and a `RequestConfig` (headers) |
| `EndToEnd` | `end_to_end.dfy` | properties that span client and server |

External effects become explicit parameters:

- fresh ids and the clock (`id`, `now`);
- the JWT library (`TokenService`);
- the e-mail regular expression (`isEmail`);
- password comparison (`passwordMatches`);
- whether `onSave` rejects (`saveThrows`).

Ownership after an update can be lost through an empty assignee. The reassignment check tests the sent `assignedUser` for truthiness, so a non-admin owner who sends `assignedUser: ""` passes it. The update then writes `""` as the owner, and the owner can no longer reach the task (`TaskController.EmptyAssigneeSlipsThrough`). `TaskController.UpdateConfined` holds for every user id other than the empty one. In the deployed system the database's id cast would probably reject `""`, which is why this is a remark and not a finding.

## Model

| member | source | states |
|---|---|---|
| Builtins.Split | server/src/middleware/index.js:11 | `split(" ")` gives at least one segment, no segment contains the separator, and joining the segments with it gives the string back |
| Builtins.SplitFirstPart | server/src/middleware/index.js:11 | the first segment is a prefix of the string, followed by the separator or the end |
| Builtins.SplitJoin | server/src/middleware/index.js:31-34 | splitting the join of separator-free parts gives the parts back |
| Builtins.Trim | client/src/components/TaskModal.jsx:12-15 | `trim()` is the contiguous part of the string left after removing only whitespace before and after it; it is empty exactly for blank strings and otherwise starts and ends with non-whitespace |
| Builtins.TrimInfix | client/src/components/TaskModal.jsx:12-15 | what trimming removes is whitespace at the start and at the end, and what it keeps is the infix in between |
| Builtins.Utf16Length | server/src/validators/index.js:4-6 | a string's `.length` counts UTF-16 code units: between its number of characters and twice that |
| Builtins.Utf16LengthBmp | server/src/validators/index.js:4-6 | without characters outside the Basic Multilingual Plane, `.length` is the number of characters |
| Builtins.TrimIdempotent | client/src/components/TaskModal.jsx:15 | trimming twice is trimming once |
| Builtins.Keep | client/src/pages/Dashboard.jsx:74-77 | `filter` keeps exactly the elements satisfying the predicate and is never longer |
| Builtins.KeepAppend | client/src/pages/Dashboard.jsx:74-77 | filtering distributes over concatenation, so order is preserved |
| Builtins.KeepEverything | client/src/pages/Dashboard.jsx:75 | a predicate true everywhere returns the sequence unchanged |
| Builtins.KeepAgree | client/src/pages/Dashboard.jsx:74-81 | predicates that agree on the elements filter alike |
| Builtins.KeepCount | client/src/pages/Dashboard.jsx:79-83 | the length of a filter is the count of matching elements |
| Builtins.CountDisjoint | client/src/pages/Dashboard.jsx:81-82 | counts under two exclusive predicates add up to at most the length, and to exactly the length iff every element satisfies one |
| Validators.StringField | server/src/validators/index.js:3-16 | `z.string().min(n, msg)`: accepted iff the key holds a string of at least n UTF-16 code units; otherwise one issue at that key, saying "Required" when it is missing, "Expected string, received <type>" for another type, and the given message when it is too short |
| Validators.OptionalString | server/src/validators/index.js:22-27 | an optional string key: absent is accepted as undefined, present must pass the string check |
| Validators.EnumField | server/src/validators/index.js:7-18 | `z.enum(options)`: accepted iff the key holds one of the options; otherwise "Required", "Invalid enum value. Expected 'a' \| 'b', received 'x'" for another string, or "Expected 'a' \| 'b', received <type>" for another type |
| Validators.OptionalEnum | server/src/validators/index.js:17-25 | an optional enum key: absent is accepted, present must be one of the options |
| Validators.EmailField | server/src/validators/index.js:5-11 | the e-mail key: accepted iff a string that the address check accepts; otherwise "Required", the type message, or "Invalid email" |
| Validators.ParseRegister | server/src/validators/index.js:3-8 | accepted iff name ≥ 2 and password ≥ 6 UTF-16 code units, e-mail well formed and role (if sent) user/admin; the role defaults to "user"; a refusal lists one issue per failing key in schema order |
| Validators.AstralCharactersCountTwice | server/src/validators/index.js:4-6 | one emoji is a name of length 2 and three emoji a password of length 6, as JavaScript counts them |
| Validators.RegisterIdempotent | server/src/validators/index.js:3-8 | parsed registration data passes the schema again unchanged |
| Validators.ParseLogin | server/src/validators/index.js:10-13 | accepted iff the e-mail is well formed and the password non-empty; issues in schema order |
| Validators.LoginIdempotent | server/src/validators/index.js:10-13 | parsed login data passes the schema again unchanged |
| Validators.ParseCreateTask | server/src/validators/index.js:15-20 | accepted iff the title is a non-empty string, description and assignee strings if sent, status pending/completed if sent; description defaults to "" and status to "pending" |
| Validators.CreateTaskIdempotent | server/src/validators/index.js:15-20 | parsed create data passes the schema again unchanged, defaults included |
| Validators.ParseUpdateTask | server/src/validators/index.js:22-27 | every key optional, nothing defaulted; a sent title must be non-empty and a sent status in the enum |
| Validators.UpdateTaskIdempotent | server/src/validators/index.js:22-27 | parsed update data passes the schema again unchanged, with only the sent keys |
| Validators.EmptyUpdateIsValid | server/src/validators/index.js:22-27 | the empty body is a valid update that sets nothing |
| Middleware.BearerSplit | server/src/middleware/index.js:6-11 | a header starting with "Bearer " has a second segment, and it is the first segment of the text after the prefix |
| Middleware.BearerToken | server/src/middleware/index.js:5-11 | a token is extracted iff the header is present and starts with "Bearer "; it has no space and is the text after the prefix up to the next space or the end |
| Middleware.Authenticated | server/src/middleware/index.js:4-16 | every refusal is a 401; "No token provided" iff there is no bearer header; "Invalid or expired token" when there is one whose token does not verify; success iff the token verifies, with its claims |
| Middleware.FieldErrors | server/src/middleware/index.js:31-34 | one field error per issue, in order, whose field is the issue's path joined by "." and whose message is the issue's message |
| Middleware.FieldNameRoundTrip | server/src/middleware/index.js:31-34 | a dotted field name splits back into the issue's path |
| Middleware.Request.Authenticate | server/src/middleware/index.js:4-16 | on success `user` becomes the verified claims and the request goes on; otherwise the 401 of `Authenticated` and `user` unchanged |
| Middleware.Request.Authorize | server/src/middleware/index.js:18-25 | the request goes on iff there is a user whose role is listed; 403 "Not allowed" otherwise |
| Middleware.Request.Validate | server/src/middleware/index.js:27-40 | a refused body gives 400 "Validation failed" with the issues and stays; an accepted body is replaced by the parsed data |
| ErrorHandler.Handle | server/src/middleware/errorHandler.js:1-31 | never success; a validation error gives 400 "Validation Error" with all messages; a duplicate key gives 409 naming the first key; a cast error gives 400 naming path and value; anything else gives its status code or 500 and its message or "Internal Server Error" |
| ErrorHandler.ValidationErrorFirst | server/src/middleware/errorHandler.js:4-10 | a validation error wins over code, status code and message |
| TaskController.PatchLaws | server/src/controllers/taskController.js:71 | an empty patch changes nothing, patching is idempotent, and the creation time is kept |
| TaskController.Create | server/src/controllers/taskController.js:3-22 | 403 iff a non-admin's effective owner (assignee or self) is someone else, store unchanged; otherwise exactly the new task is stored under the fresh id |
| TaskController.Get | server/src/controllers/taskController.js:37-53 | 404 iff the id is unknown; 403 iff it exists and the actor is neither admin nor owner; otherwise the task |
| TaskController.Update | server/src/controllers/taskController.js:55-80 | 404 iff unknown; 403 iff a non-admin does not own the task or sends a truthy other assignee, with the matching message; refusals leave the store unchanged; success patches that task alone |
| TaskController.Delete | server/src/controllers/taskController.js:82-99 | 404 iff unknown; 403 iff not admin and not owner; success removes exactly that id |
| TaskController.Visible | server/src/controllers/taskController.js:26 | an admin sees every task, anyone else exactly the tasks assigned to them |
| TaskController.NewestExists | server/src/controllers/taskController.js:29 | every non-empty set of tasks has a newest member |
| TaskController.CreateDefaultsToActor | server/src/controllers/taskController.js:7-10 | a create without an assignee always succeeds and the actor owns the task |
| TaskController.CreateConfined | server/src/controllers/taskController.js:7-15 | a non-admin's create leaves every other user's tasks exactly as they were |
| TaskController.UpdateConfined | server/src/controllers/taskController.js:63-69 | a non-admin's update leaves every other (non-empty) user's tasks exactly as they were |
| TaskController.DeleteConfined | server/src/controllers/taskController.js:90-94 | a non-admin's delete leaves every other user's tasks exactly as they were |
| TaskController.EmptyAssigneeSlipsThrough | server/src/controllers/taskController.js:67 | an owner sending an empty assignee passes the reassignment check and loses access to the task |
| TaskController.AdminUnrestricted | server/src/controllers/taskController.js:37-99 | an admin's get, update and delete of an existing task always succeed |
| TaskController.AdminAssignsScenario | server/src/controllers/taskController.js:3-99 | a task an admin assigns to B is readable and updatable by B, refused to C, and readable and deletable by the admin |
| TaskController.TaskStore.CreateTask | server/src/controllers/taskController.js:3-22 | reply and new store are those of `Create` |
| TaskController.TaskStore.GetTasks | server/src/controllers/taskController.js:24-35 | the listing holds every visible task once, as stored, nothing else, newest first, and its count is its length |
| TaskController.TaskStore.GetTask | server/src/controllers/taskController.js:37-53 | the reply is that of `Get` |
| TaskController.TaskStore.UpdateTask | server/src/controllers/taskController.js:55-80 | reply and new store are those of `Update` |
| TaskController.TaskStore.DeleteTask | server/src/controllers/taskController.js:82-99 | reply and new store are those of `Delete` |
| AuthController.SignedTokenVerifies | server/src/controllers/authController.js:5-11 | an issued token verifies to exactly the user's id, e-mail and role until it expires |
| AuthController.RegisterResult | server/src/controllers/authController.js:13-35 | 409 "Email already registered" iff the e-mail is taken, store unchanged; otherwise exactly one account added, 201 with a token and the public fields; e-mails stay distinct |
| AuthController.RegisterTwiceConflicts | server/src/controllers/authController.js:17-20 | registering the same e-mail a second time fails and changes nothing |
| AuthController.UserStore.Register | server/src/controllers/authController.js:13-35 | reply and new store are those of `RegisterResult`; distinct e-mails are kept |
| AuthController.UserStore.Login | server/src/controllers/authController.js:37-58 | 401 "Wrong email or password" iff no account with that e-mail accepts the password (same reply for both causes); otherwise 200 with that account's token and public fields |
| AuthController.UserStore.GetMe | server/src/controllers/authController.js:60-72 | 404 "User not found" iff the token's id has no account; otherwise its public fields |
| Dashboard.NextStatus | client/src/pages/Dashboard.jsx:65 | the next status is always pending or completed, and "completed" iff the current one is "pending" |
| Dashboard.ToggleTwice | client/src/pages/Dashboard.jsx:65 | toggling twice restores the status iff it is pending or completed |
| Dashboard.ToggleBodyPatchesStatus | client/src/pages/Dashboard.jsx:67 | the toggle body passes the update schema and, as a patch, changes only the status |
| Dashboard.Filtered | client/src/pages/Dashboard.jsx:74-77 | the shown tasks are exactly the fetched ones that "all" or the chosen status admits |
| Dashboard.FilterAllUnchanged | client/src/pages/Dashboard.jsx:74-75 | filter "all" shows the list unchanged |
| Dashboard.FilterKeepsOrder | client/src/pages/Dashboard.jsx:74-77 | filtering keeps the fetched order |
| Dashboard.StatsOf | client/src/pages/Dashboard.jsx:79-83 | total is the list length; pending and completed are the counts of each status |
| Dashboard.StatsMatchFilters | client/src/pages/Dashboard.jsx:74-83 | the pending and completed filters show as many tasks as their counters, which never exceed the total and reach it iff every status is one of the two |
| TaskModal.PayloadObject | client/src/components/TaskModal.jsx:15 | the saved body has exactly the keys title, description and status |
| TaskModal.SubmitPayload | client/src/components/TaskModal.jsx:10-19 | nothing is sent iff the title is blank; otherwise the payload is the trimmed title (non-empty, no whitespace at either end), the trimmed description and the status as selected |
| TaskModal.ResubmitSame | client/src/components/TaskModal.jsx:15 | submitting a sent payload's fields again sends the same payload |
| TaskModal.PayloadPassesSchemas | client/src/components/TaskModal.jsx:15 | a payload with one of the offered statuses passes both the create and the update schema unchanged |
| TaskModal.SubmitDisabled | client/src/components/TaskModal.jsx:77 | submit is disabled iff saving or the title is blank |
| TaskModal.EnabledSubmitSends | client/src/components/TaskModal.jsx:77 | an enabled submit button always leads to a save |
| TaskModal.Modal.constructor | client/src/components/TaskModal.jsx:4-8 | `isEdit` iff a task is given; fields start from the task with "" / "pending" fallbacks, or empty and "pending"; not saving |
| TaskModal.Modal.Submit | client/src/components/TaskModal.jsx:10-19 | sends `SubmitPayload` of the fields; a blank title leaves `saving` as it was; otherwise `saving` is false afterwards whether or not the save threw |
| ApiClient.BearerHeader | client/src/api/axios.js:12 | the header starts with "Bearer " and the rest is the token |
| ApiClient.Get | client/src/api/axios.js:10 | `getItem` is present iff the key is stored |
| ApiClient.WithAuthorization | client/src/api/axios.js:9-15 | a non-empty stored token sets Authorization to its bearer header; otherwise the headers are unchanged; other headers are never touched |
| ApiClient.AfterRejection | client/src/api/axios.js:21-24 | a 401 removes token and user and keeps every other key with its value; nothing is ever added or changed; any other error keeps storage unchanged |
| ApiClient.LoggedOutSendsNoToken | client/src/api/axios.js:10-23 | after a 401 cleared storage, requests leave without an added Authorization header |
| ApiClient.Browser.InterceptRequest | client/src/api/axios.js:9-15 | the same config is passed on with its headers as `WithAuthorization` gives them |
| ApiClient.Browser.OnFulfilled | client/src/api/axios.js:19 | a successful response passes through unchanged |
| ApiClient.Browser.OnRejected | client/src/api/axios.js:20-27 | the error is rejected again unchanged; storage becomes `AfterRejection`; a 401 sends the window to "/login" |
| EndToEnd.BearerRoundTrip | server/src/middleware/index.js:6-11 | the client's header for any space-free token passes the server's prefix check and parses back to that token |
| EndToEnd.TokenLifecycle | server/src/middleware/index.js:4-16 | a stored token authenticates to its signed claims until expiry, gives "Invalid or expired token" afterwards, and after the client's 401 logout "No token provided" |
| EndToEnd.ToggleRoundTrip | client/src/pages/Dashboard.jsx:64-67 | an owner's toggle is never refused, changes only that task's status, and a second toggle restores the store for pending/completed tasks |
| EndToEnd.ModalCreatesOwnTask | server/src/controllers/taskController.js:5-18 | a new-task dialog's payload passes the create schema and creates a task owned by the actor with the trimmed fields |

## Left out

- Persistence: the MongoDB collections are maps from id to record. The effects of `populate("assignedUser", "name email")` are not modelled: entries carry the owner's id, not the owner's name and e-mail.
- Id casting: a malformed id gives a database `CastError`, which the error handler turns into a 400. The task handlers take ids as plain strings, so they never raise it.
- Schema-level validation of the database models (`runValidators: true`, the models' own constraints): the User and Task models are not part of this model.
- Storage failures: every `catch (err) { next(err) }` branch is left out, and each database call is assumed to succeed. What the error handler does with such an error is modelled separately by `ErrorHandler.Handle`.
- getTask when the populated owner no longer exists: for a non-admin, `task.assignedUser._id` then throws and the request ends in a 500; for an admin the role test short-circuits and the reply is 200 with a null owner. In the model every task keeps an owner id.
- Concurrency: each handler runs atomically. The race between register's `findOne` and `create` is not modelled. That race ends in a duplicate-key error, a 409 via the error handler.
- Password hashing, `select("+password")` and `comparePassword`: the comparison is the parameter `passwordMatches`.
- JWT cryptography, the `iat`/`exp` fields of the decoded payload and the configured secret: the token service is abstract and `Jwt.Sound` states what is assumed of it. `Jwt.DefaultLifetime` records the default "7d" lifetime.
- The e-mail regular expression of `z.string().email()`: it is the parameter `isEmail`.
- zod's stripping of unknown keys, nested values and non-integer numbers: a body is a flat map whose values are strings, integers, booleans, null, or opaque arrays and objects.
- Logging (`console.error`), the Express app wiring, routes, Swagger, configuration and server start-up.
- Client UI: rendering, toasts, `window.confirm`, routing, the auth context, the navbar and the login and register pages.
- Dashboard fetch, create, update and delete handlers (network calls with toasts): these are left out. Their server side is modelled in `TaskController`, and their effect on a task's status in `EndToEnd.ToggleRoundTrip`.
- TaskModal `onClose`, and the asynchrony of `onSave`: a save is one step that may reject (`saveThrows`).
- axios: `baseURL`, the default `Content-Type` header and promises. A rejected promise is the returned error.
- TaskController.TaskStore.GetTasks: tasks created in the same instant may be listed in either order. The database's tie order is not modelled.
- TaskController.UpdateConfined: stated for every other user except one with the empty id, because of the empty-assignee case described above.
