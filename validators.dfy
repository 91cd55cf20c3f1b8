/**
 * The four request-body schemas of the API (registration, login, task
 * creation, task update), written as explicit parsing functions over the
 * JSON body. Each follows the zod schema it models: which keys are
 * required, which refinements apply, which defaults fill missing keys, and
 * which issue zod reports for each failing key, in schema order.
 */
module Validators {
  import opened Builtins

  /** A JSON value as it reaches a schema (the contents of arrays and objects do not matter here). */
  datatype Value = Str(s: string) | Num(n: int) | Bool(b: bool) | Null | Arr | Obj

  /** A parsed JSON request body; a key that is absent is `undefined`. */
  type Object = map<string, Value>

  /** One zod issue: where it is (the key path) and what it says. */
  datatype Issue = Issue(path: seq<string>, message: string)

  /** A schema as the validation middleware uses it: parse a body, and write parsed data back as a body. */
  datatype Schema<!T> = Schema(parse: Object -> Result<T, seq<Issue>>, render: T -> Object)

  /** The result of one key of a schema. */
  datatype Field<+T> = Valid(value: T) | Invalid(issue: Issue)

  const Roles: seq<string> := ["user", "admin"]
  const Statuses: seq<string> := ["pending", "completed"]

  /** zod's name for the type of a value it did not expect. */
  function TypeName(v: Value): string {
    match v
    case Str(_) => "string"
    case Num(_) => "number"
    case Bool(_) => "boolean"
    case Null => "null"
    case Arr => "array"
    case Obj => "object"
  }

  /** `'a' | 'b'`: how zod lists the options of an enum in its messages. */
  function OptionList(options: seq<string>): string {
    Join(seq(|options|, i requires 0 <= i < |options| => "'" + options[i] + "'"), " | ")
  }

  function Issues<T>(f: Field<T>): seq<Issue> {
    if f.Valid? then [] else [f.issue]
  }

  /** The key paths of a list of issues, in order. */
  function Paths(issues: seq<Issue>): (paths: seq<seq<string>>)
    ensures |paths| == |issues|
    ensures forall i :: 0 <= i < |issues| ==> paths[i] == issues[i].path
  {
    if |issues| == 0 then [] else [issues[0].path] + Paths(issues[1..])
  }

  lemma {:induction false} PathsAppend(a: seq<Issue>, b: seq<Issue>)
    ensures Paths(a + b) == Paths(a) + Paths(b)
  {
  }

  /** `[[key]]` when the field failed, `[]` otherwise. */
  function FailedKey(ok: bool, key: string): seq<seq<string>> {
    if ok then [] else [[key]]
  }

  // ---------------------------------------------------------------------------
  // Keys
  // ---------------------------------------------------------------------------

  /** The key holds a string of at least `minLength` characters. */
  predicate StringAtLeast(body: Object, key: string, minLength: nat) {
    key in body && body[key].Str? && Utf16Length(body[key].s) >= minLength
  }

  /** `z.string()`, with `.min(minLength, message)` when `minLength` is positive. */
  function StringField(body: Object, key: string, minLength: nat, message: string): (f: Field<string>)
    ensures f.Valid? <==> StringAtLeast(body, key, minLength)
    ensures f.Valid? ==> f.value == body[key].s
    ensures f.Invalid? ==> f.issue.path == [key]
    ensures f.Invalid? ==> f.issue.message == if key !in body then "Required"
                                              else if !body[key].Str? then "Expected string, received " + TypeName(body[key])
                                              else message
  {
    if key !in body then Invalid(Issue([key], "Required"))
    else match body[key]
      case Str(s) => if Utf16Length(s) >= minLength then Valid(s) else Invalid(Issue([key], message))
      case v => Invalid(Issue([key], "Expected string, received " + TypeName(v)))
  }

  /** `z.string()...optional()`: an absent key is accepted as `undefined`. */
  function OptionalString(body: Object, key: string, minLength: nat, message: string): (f: Field<Option<string>>)
    ensures f.Valid? <==> key !in body || StringAtLeast(body, key, minLength)
    ensures f.Valid? ==> f.value == if key in body then Some(body[key].s) else None
    ensures f.Invalid? ==> f.issue.path == [key]
  {
    if key !in body then Valid(None)
    else match StringField(body, key, minLength, message)
      case Valid(s) => Valid(Some(s))
      case Invalid(issue) => Invalid(issue)
  }

  /** `z.enum(options)`. */
  function EnumField(body: Object, key: string, options: seq<string>): (f: Field<string>)
    ensures f.Valid? <==> key in body && body[key].Str? && body[key].s in options
    ensures f.Valid? ==> f.value == body[key].s
    ensures f.Invalid? ==> f.issue.path == [key]
    ensures f.Invalid? ==>
              f.issue.message == if key !in body then "Required"
                                 else if body[key].Str? then "Invalid enum value. Expected " + OptionList(options) + ", received '" + body[key].s + "'"
                                 else "Expected " + OptionList(options) + ", received " + TypeName(body[key])
  {
    if key !in body then Invalid(Issue([key], "Required"))
    else match body[key]
      case Str(s) =>
        if s in options then Valid(s)
        else Invalid(Issue([key], "Invalid enum value. Expected " + OptionList(options) + ", received '" + s + "'"))
      case v => Invalid(Issue([key], "Expected " + OptionList(options) + ", received " + TypeName(v)))
  }

  /** `z.enum(options).optional()`. */
  function OptionalEnum(body: Object, key: string, options: seq<string>): (f: Field<Option<string>>)
    ensures f.Valid? <==> key !in body || (body[key].Str? && body[key].s in options)
    ensures f.Valid? ==> f.value == if key in body then Some(body[key].s) else None
    ensures f.Invalid? ==> f.issue.path == [key]
  {
    if key !in body then Valid(None)
    else match EnumField(body, key, options)
      case Valid(s) => Valid(Some(s))
      case Invalid(issue) => Invalid(issue)
  }

  /** `.optional().default(d)` on top of an optional field. */
  function WithDefault(f: Field<Option<string>>, d: string): Field<string> {
    match f
    case Valid(v) => Valid(if v.Some? then v.value else d)
    case Invalid(issue) => Invalid(issue)
  }

  /** `z.string().email(...)`; the address format is the abstract predicate `isEmail`. */
  predicate EmailOk(body: Object, isEmail: string -> bool) {
    "email" in body && body["email"].Str? && isEmail(body["email"].s)
  }

  /** The `email` key of the register and login schemas. */
  function EmailField(body: Object, isEmail: string -> bool): (f: Field<string>)
    ensures f.Valid? <==> EmailOk(body, isEmail)
    ensures f.Valid? ==> f.value == body["email"].s
    ensures f.Invalid? ==> f.issue.path == ["email"]
    ensures f.Invalid? ==> f.issue.message == if "email" !in body then "Required"
                                              else if !body["email"].Str? then "Expected string, received " + TypeName(body["email"])
                                              else "Invalid email"
  {
    match StringField(body, "email", 0, "")
    case Valid(s) => if isEmail(s) then Valid(s) else Invalid(Issue(["email"], "Invalid email"))
    case Invalid(issue) => Invalid(issue)
  }

  /** The issues of a field name its key exactly when it failed. */
  lemma FieldPaths<T>(f: Field<T>, key: string)
    requires f.Invalid? ==> f.issue.path == [key]
    ensures Paths(Issues(f)) == FailedKey(f.Valid?, key)
  {
  }

  lemma {:induction false} Paths4(a: seq<Issue>, b: seq<Issue>, c: seq<Issue>, d: seq<Issue>)
    ensures Paths(a + b + c + d) == Paths(a) + Paths(b) + Paths(c) + Paths(d)
  {
    PathsAppend(a, b);
    PathsAppend(a + b, c);
    PathsAppend(a + b + c, d);
  }

  // ---------------------------------------------------------------------------
  // registerSchema
  // ---------------------------------------------------------------------------

  datatype RegisterData = RegisterData(name: string, email: string, password: string, role: string)

  predicate RegisterNameOk(body: Object) { "name" in body && body["name"].Str? && Utf16Length(body["name"].s) >= 2 }
  predicate RegisterPasswordOk(body: Object) { "password" in body && body["password"].Str? && Utf16Length(body["password"].s) >= 6 }
  predicate RoleOk(body: Object) { "role" in body ==> body["role"].Str? && body["role"].s in Roles }

  /**
   * registerSchema: accepted exactly when the name has at least two
   * characters, the e-mail is well formed and the password has at least six
   * characters, and the role, if sent, is "user" or "admin"; a missing role
   * becomes "user". A refusal reports one issue per failing key, in schema order.
   */
  function ParseRegister(body: Object, isEmail: string -> bool): (r: Result<RegisterData, seq<Issue>>)
    ensures r.Ok? <==> RegisterNameOk(body) && EmailOk(body, isEmail) && RegisterPasswordOk(body) && RoleOk(body)
    ensures r.Ok? ==> r.value == RegisterData(body["name"].s, body["email"].s, body["password"].s,
                                               if "role" in body then body["role"].s else "user")
    ensures r.Ok? ==> r.value.role in Roles
    ensures r.Err? ==> Paths(r.error) == FailedKey(RegisterNameOk(body), "name") + FailedKey(EmailOk(body, isEmail), "email")
                                         + FailedKey(RegisterPasswordOk(body), "password") + FailedKey(RoleOk(body), "role")
  {
    var name := StringField(body, "name", 2, "Name must be at least 2 characters");
    var email := EmailField(body, isEmail);
    var password := StringField(body, "password", 6, "Password must be at least 6 characters");
    var role := WithDefault(OptionalEnum(body, "role", Roles), "user");
    if name.Valid? && email.Valid? && password.Valid? && role.Valid? then
      Ok(RegisterData(name.value, email.value, password.value, role.value))
    else
      FieldPaths(name, "name"); FieldPaths(email, "email"); FieldPaths(password, "password"); FieldPaths(role, "role");
      Paths4(Issues(name), Issues(email), Issues(password), Issues(role));
      Err(Issues(name) + Issues(email) + Issues(password) + Issues(role))
  }

  /** Lengths are JavaScript lengths: one emoji is a name of two code units, which the schema accepts, and three make a six-unit password. */
  lemma AstralCharactersCountTwice()
    ensures RegisterNameOk(map["name" := Str("\U{1F600}")])
    ensures RegisterPasswordOk(map["password" := Str("\U{1F600}\U{1F600}\U{1F600}")])
  {
    assert Utf16Length("\U{1F600}") == 2;
    assert Utf16Length("\U{1F600}\U{1F600}\U{1F600}") == 2 + Utf16Length("\U{1F600}\U{1F600}");
  }

  function RegisterObject(d: RegisterData): Object {
    map["name" := Str(d.name), "email" := Str(d.email), "password" := Str(d.password), "role" := Str(d.role)]
  }

  /** Parsed registration data passes the schema again, unchanged. */
  lemma RegisterIdempotent(body: Object, isEmail: string -> bool)
    requires ParseRegister(body, isEmail).Ok?
    ensures var d := ParseRegister(body, isEmail).value;
            ParseRegister(RegisterObject(d), isEmail) == Ok(d)
  {
  }

  // ---------------------------------------------------------------------------
  // loginSchema
  // ---------------------------------------------------------------------------

  datatype LoginData = LoginData(email: string, password: string)

  predicate LoginPasswordOk(body: Object) { "password" in body && body["password"].Str? && body["password"].s != "" }

  /** loginSchema: a well-formed e-mail and a non-empty password; both required. */
  function ParseLogin(body: Object, isEmail: string -> bool): (r: Result<LoginData, seq<Issue>>)
    ensures r.Ok? <==> EmailOk(body, isEmail) && LoginPasswordOk(body)
    ensures r.Ok? ==> r.value == LoginData(body["email"].s, body["password"].s)
    ensures r.Err? ==> Paths(r.error) == FailedKey(EmailOk(body, isEmail), "email") + FailedKey(LoginPasswordOk(body), "password")
  {
    var email := EmailField(body, isEmail);
    var password := StringField(body, "password", 1, "Password is required");
    if email.Valid? && password.Valid? then Ok(LoginData(email.value, password.value))
    else
      FieldPaths(email, "email"); FieldPaths(password, "password");
      PathsAppend(Issues(email), Issues(password));
      Err(Issues(email) + Issues(password))
  }

  function LoginObject(d: LoginData): Object {
    map["email" := Str(d.email), "password" := Str(d.password)]
  }

  /** Parsed login data passes the schema again, unchanged. */
  lemma LoginIdempotent(body: Object, isEmail: string -> bool)
    requires ParseLogin(body, isEmail).Ok?
    ensures var d := ParseLogin(body, isEmail).value;
            ParseLogin(LoginObject(d), isEmail) == Ok(d)
  {
  }

  // ---------------------------------------------------------------------------
  // createTaskSchema
  // ---------------------------------------------------------------------------

  datatype CreateTaskData = CreateTaskData(title: string, description: string, status: string, assignedUser: Option<string>)

  predicate TitleOk(body: Object) { "title" in body && body["title"].Str? && body["title"].s != "" }
  predicate DescriptionOk(body: Object) { "description" in body ==> body["description"].Str? }
  predicate StatusOk(body: Object) { "status" in body ==> body["status"].Str? && body["status"].s in Statuses }
  predicate AssigneeOk(body: Object) { "assignedUser" in body ==> body["assignedUser"].Str? }

  /**
   * createTaskSchema: a non-empty title is required; a missing description
   * becomes "" and a missing status "pending"; a status that is sent must be
   * "pending" or "completed"; `assignedUser` is an optional string.
   */
  function ParseCreateTask(body: Object): (r: Result<CreateTaskData, seq<Issue>>)
    ensures r.Ok? <==> TitleOk(body) && DescriptionOk(body) && StatusOk(body) && AssigneeOk(body)
    ensures r.Ok? ==> r.value == CreateTaskData(
                        body["title"].s,
                        if "description" in body then body["description"].s else "",
                        if "status" in body then body["status"].s else "pending",
                        if "assignedUser" in body then Some(body["assignedUser"].s) else None)
    ensures r.Ok? ==> r.value.title != "" && r.value.status in Statuses
    ensures r.Err? ==> Paths(r.error) == FailedKey(TitleOk(body), "title") + FailedKey(DescriptionOk(body), "description")
                                         + FailedKey(StatusOk(body), "status") + FailedKey(AssigneeOk(body), "assignedUser")
  {
    var title := StringField(body, "title", 1, "Title is required");
    var description := WithDefault(OptionalString(body, "description", 0, ""), "");
    var status := WithDefault(OptionalEnum(body, "status", Statuses), "pending");
    var assignee := OptionalString(body, "assignedUser", 0, "");
    if title.Valid? && description.Valid? && status.Valid? && assignee.Valid? then
      Ok(CreateTaskData(title.value, description.value, status.value, assignee.value))
    else
      FieldPaths(title, "title"); FieldPaths(description, "description");
      FieldPaths(status, "status"); FieldPaths(assignee, "assignedUser");
      Paths4(Issues(title), Issues(description), Issues(status), Issues(assignee));
      Err(Issues(title) + Issues(description) + Issues(status) + Issues(assignee))
  }

  /** Parsed task data as the body the handler receives: defaults present, `assignedUser` only when sent. */
  function CreateTaskObject(d: CreateTaskData): Object {
    map["title" := Str(d.title), "description" := Str(d.description), "status" := Str(d.status)]
    + (if d.assignedUser.Some? then map["assignedUser" := Str(d.assignedUser.value)] else map[])
  }

  /** Validation is idempotent: parsed create data passes the schema again and comes back unchanged. */
  lemma CreateTaskIdempotent(body: Object)
    requires ParseCreateTask(body).Ok?
    ensures var d := ParseCreateTask(body).value;
            ParseCreateTask(CreateTaskObject(d)) == Ok(d)
  {
    var d := ParseCreateTask(body).value;
    var o := CreateTaskObject(d);
    assert "assignedUser" in o <==> d.assignedUser.Some?;
  }

  // ---------------------------------------------------------------------------
  // updateTaskSchema
  // ---------------------------------------------------------------------------

  datatype UpdateTaskData = UpdateTaskData(title: Option<string>, description: Option<string>, status: Option<string>, assignedUser: Option<string>)

  predicate UpdateTitleOk(body: Object) { "title" in body ==> body["title"].Str? && body["title"].s != "" }

  /**
   * updateTaskSchema: every key optional and nothing defaulted; a title that
   * is sent must be non-empty and a status that is sent must be in the enum.
   */
  function ParseUpdateTask(body: Object): (r: Result<UpdateTaskData, seq<Issue>>)
    ensures r.Ok? <==> UpdateTitleOk(body) && DescriptionOk(body) && StatusOk(body) && AssigneeOk(body)
    ensures r.Ok? ==> r.value == UpdateTaskData(
                        if "title" in body then Some(body["title"].s) else None,
                        if "description" in body then Some(body["description"].s) else None,
                        if "status" in body then Some(body["status"].s) else None,
                        if "assignedUser" in body then Some(body["assignedUser"].s) else None)
    ensures r.Err? ==> Paths(r.error) == FailedKey(UpdateTitleOk(body), "title") + FailedKey(DescriptionOk(body), "description")
                                         + FailedKey(StatusOk(body), "status") + FailedKey(AssigneeOk(body), "assignedUser")
  {
    var title := OptionalString(body, "title", 1, "String must contain at least 1 character(s)");
    var description := OptionalString(body, "description", 0, "");
    var status := OptionalEnum(body, "status", Statuses);
    var assignee := OptionalString(body, "assignedUser", 0, "");
    if title.Valid? && description.Valid? && status.Valid? && assignee.Valid? then
      Ok(UpdateTaskData(title.value, description.value, status.value, assignee.value))
    else
      FieldPaths(title, "title"); FieldPaths(description, "description");
      FieldPaths(status, "status"); FieldPaths(assignee, "assignedUser");
      Paths4(Issues(title), Issues(description), Issues(status), Issues(assignee));
      Err(Issues(title) + Issues(description) + Issues(status) + Issues(assignee))
  }

  function UpdateTaskObject(d: UpdateTaskData): Object {
    (if d.title.Some? then map["title" := Str(d.title.value)] else map[])
    + (if d.description.Some? then map["description" := Str(d.description.value)] else map[])
    + (if d.status.Some? then map["status" := Str(d.status.value)] else map[])
    + (if d.assignedUser.Some? then map["assignedUser" := Str(d.assignedUser.value)] else map[])
  }

  /** Parsed update data passes the schema again, unchanged: only the keys that were sent come back. */
  lemma UpdateTaskIdempotent(body: Object)
    requires ParseUpdateTask(body).Ok?
    ensures var d := ParseUpdateTask(body).value;
            ParseUpdateTask(UpdateTaskObject(d)) == Ok(d)
  {
  }

  /** An empty update body is valid and changes nothing: no defaults are filled in. */
  lemma EmptyUpdateIsValid()
    ensures ParseUpdateTask(map[]) == Ok(UpdateTaskData(None, None, None, None))
  {
  }

  // ---------------------------------------------------------------------------
  // The schemas as the validation middleware receives them
  // ---------------------------------------------------------------------------

  function RegisterSchema(isEmail: string -> bool): Schema<RegisterData> {
    Schema(body => ParseRegister(body, isEmail), RegisterObject)
  }

  function LoginSchema(isEmail: string -> bool): Schema<LoginData> {
    Schema(body => ParseLogin(body, isEmail), LoginObject)
  }

  function CreateTaskSchema(): Schema<CreateTaskData> {
    Schema(ParseCreateTask, CreateTaskObject)
  }

  function UpdateTaskSchema(): Schema<UpdateTaskData> {
    Schema(ParseUpdateTask, UpdateTaskObject)
  }
}
