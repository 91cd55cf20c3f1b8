/**
 * The request pipeline stages: `authenticate` (bearer header, token
 * verification), `authorize(...roles)` and `validate(schema)`. A request is
 * an object whose `user` and `body` the stages overwrite; each stage either
 * calls `next` (`Next`) or ends the request with a JSON error (`Stop`).
 */
module Middleware {
  import opened Builtins
  import opened Jwt
  import opened Validators

  /** One entry of the `errors` list of a 400 reply. */
  datatype FieldError = FieldError(field: string, message: string)

  /** A reply `{success: false, message, errors?}` with its status code; `errors` is empty when absent. */
  datatype Halt = Halt(status: int, message: string, errors: seq<FieldError>)

  /** What a stage does: call `next` exactly once, or answer and stop. */
  datatype Stage = Next | Stop(halt: Halt)

  const BearerPrefix: string := "Bearer "

  const NoToken: Halt := Halt(401, "No token provided", [])
  const BadToken: Halt := Halt(401, "Invalid or expired token", [])
  const NotAllowed: Halt := Halt(403, "Not allowed", [])

  lemma BearerSplit(header: string)
    requires StartsWith(header, BearerPrefix)
    ensures |Split(header, ' ')| >= 2
    ensures Split(header, ' ')[1] == Split(header[|BearerPrefix|..], ' ')[0]
  {
    assert header == "Bearer" + [' '] + header[|BearerPrefix|..];
    SplitAfterFirst("Bearer", header[|BearerPrefix|..], ' ');
  }

  /**
   * The token `authenticate` hands to `verify`: present exactly when the
   * header is present and starts with "Bearer "; it is then the second
   * space-separated segment, i.e. the text after the prefix up to the next
   * space or the end of the header.
   */
  function BearerToken(header: Option<string>): (token: Option<string>)
    ensures token.Some? <==> header.Some? && StartsWith(header.value, BearerPrefix)
    ensures token.Some? ==> ' ' !in token.value && StartsWith(header.value, BearerPrefix + token.value)
    ensures token.Some? ==> var n := |BearerPrefix + token.value|;
                            n == |header.value| || header.value[n] == ' '
  {
    if header.None? || !StartsWith(header.value, BearerPrefix) then None
    else
      var h := header.value;
      BearerSplit(h);
      SplitFirstPart(h[|BearerPrefix|..], ' ');
      var token := Split(h, ' ')[1];
      assert h[..|BearerPrefix + token|] == BearerPrefix + h[|BearerPrefix|..][..|token|];
      Some(token)
  }

  /**
   * The outcome of `authenticate` for a header at a given second: a
   * missing or non-bearer header and a token that does not verify give
   * different 401 replies; a verified token gives its claims.
   */
  function Authenticated(header: Option<string>, ts: TokenService, now: int): (r: Result<Claims, Halt>)
    ensures r.Err? ==> r.error.status == 401
    ensures r.Err? && r.error == NoToken <==> BearerToken(header).None?
    ensures r.Err? && BearerToken(header).Some? ==> r.error == BadToken
    ensures r.Ok? <==> BearerToken(header).Some? && ts.verify(BearerToken(header).value, now).Some?
    ensures r.Ok? ==> Some(r.value) == ts.verify(BearerToken(header).value, now)
  {
    match BearerToken(header)
    case None => Err(NoToken)
    case Some(token) =>
      match ts.verify(token, now)
      case Some(claims) => Ok(claims)
      case None => Err(BadToken)
  }

  /** `e.path.join(".")` and `e.message` for every issue, in order. */
  function FieldErrors(issues: seq<Issue>): (errors: seq<FieldError>)
    ensures |errors| == |issues|
    ensures forall i :: 0 <= i < |issues| ==>
              errors[i].field == Join(issues[i].path, ".") && errors[i].message == issues[i].message
  {
    seq(|issues|, i requires 0 <= i < |issues| => FieldError(Join(issues[i].path, "."), issues[i].message))
  }

  /** A nested key path written as a dotted field name reads back as that path. */
  lemma FieldNameRoundTrip(issues: seq<Issue>, i: nat)
    requires i < |issues| && |issues[i].path| >= 1
    requires forall k :: 0 <= k < |issues[i].path| ==> '.' !in issues[i].path[k]
    ensures Split(FieldErrors(issues)[i].field, '.') == issues[i].path
  {
    SplitJoin(issues[i].path, '.');
  }

  /** The request object the stages share. */
  class Request {
    /** `req.headers.authorization`. */
    const authorization: Option<string>
    /** `req.user`, set by `authenticate`. */
    var user: Option<Claims>
    /** `req.body`, replaced by `validate`. */
    var body: Object

    constructor (authorization: Option<string>, body: Object)
      ensures this.authorization == authorization && this.body == body && user == None
    {
      this.authorization := authorization;
      this.body := body;
      user := None;
    }

    /** `authenticate`: on success `req.user` becomes the verified claims and `next` is called; otherwise a 401 and `req.user` is left as it was. */
    method Authenticate(ts: TokenService, now: int) returns (stage: Stage)
      modifies this`user
      ensures match Authenticated(authorization, ts, now)
              case Ok(claims) => stage == Next && user == Some(claims)
              case Err(halt) => stage == Stop(halt) && user == old(user)
    {
      var header := authorization;
      if header.None? || !StartsWith(header.value, BearerPrefix) {
        return Stop(NoToken);
      }
      var token := BearerToken(header).value;
      var verified := ts.verify(token, now);
      if verified.None? {
        return Stop(BadToken);
      }
      user := verified;
      stage := Next;
    }

    /** `authorize(...roles)`: `next` exactly when there is an authenticated user whose role is listed; 403 otherwise. */
    method Authorize(roles: seq<string>) returns (stage: Stage)
      ensures stage == Next <==> user.Some? && user.value.role in roles
      ensures stage != Next ==> stage == Stop(NotAllowed)
    {
      if user.None? || user.value.role !in roles {
        return Stop(NotAllowed);
      }
      stage := Next;
    }

    /**
     * `validate(schema)`: a body the schema refuses gives 400 "Validation
     * failed" with one error per issue and is left in place; a body it
     * accepts is replaced by the parsed data, defaults included, and `next`
     * is called.
     */
    method Validate<T>(schema: Schema<T>) returns (stage: Stage)
      modifies this`body
      ensures match schema.parse(old(body))
              case Err(issues) => stage == Stop(Halt(400, "Validation failed", FieldErrors(issues))) && body == old(body)
              case Ok(data) => stage == Next && body == schema.render(data)
    {
      var result := schema.parse(body);
      if result.Err? {
        return Stop(Halt(400, "Validation failed", FieldErrors(result.error)));
      }
      body := schema.render(result.value);
      stage := Next;
    }
  }
}
