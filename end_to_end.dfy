/**
 * Properties that span the client and the server: the bearer header the
 * client builds and the parser the server applies, a token's life from
 * login to expiry, and the dashboard's requests as the task handlers see
 * them.
 */
module EndToEnd {
  import opened Builtins
  import opened Jwt
  import opened Validators
  import opened Middleware
  import TaskController
  import AuthController
  import Dashboard
  import TaskModal
  import ApiClient

  /** The header the client builds from any space-free token passes the server's prefix check and parses back to that token. */
  lemma BearerRoundTrip(token: string)
    requires ' ' !in token
    ensures BearerToken(Some(ApiClient.BearerHeader(token))) == Some(token)
  {
    var header := ApiClient.BearerHeader(token);
    assert header == BearerPrefix + token;
    var parsed := BearerToken(Some(header)).value;
    var n := |BearerPrefix + parsed|;
    assert header[..n] == BearerPrefix + parsed;
    assert forall k :: |BearerPrefix| <= k < |header| ==> header[k] == token[k - |BearerPrefix|] != ' ';
    assert |parsed| == |token|;
    assert parsed == (BearerPrefix + parsed)[|BearerPrefix|..] == header[|BearerPrefix|..];
  }

  /** The Authorization header the request interceptor attaches while `token` is stored. */
  function SentHeader(storage: ApiClient.Storage): Option<string> {
    var headers := ApiClient.WithAuthorization(map[], storage);
    if ApiClient.AuthorizationHeader in headers then Some(headers[ApiClient.AuthorizationHeader]) else None
  }

  /**
   * A token issued to a user and kept in the browser's storage
   * authenticates every later request to that user's id, e-mail and role
   * until it expires; from then on the server answers 401 "Invalid or
   * expired token", and the client's 401 branch removes the token, after
   * which requests carry no header and meet 401 "No token provided".
   * The role is the one signed into the token: the stored account is not
   * consulted again.
   */
  lemma TokenLifecycle(ts: TokenService, id: string, u: AuthController.User, issuedAt: int, now: int,
                       storage: ApiClient.Storage)
    requires Sound(ts) && issuedAt <= now
    ensures var token := AuthController.SignToken(ts, id, u, issuedAt);
            var stored := storage[ApiClient.TokenKey := token];
            && (now < issuedAt + ts.lifetime ==> Authenticated(SentHeader(stored), ts, now) == Ok(Claims(id, u.email, u.role)))
            && (issuedAt + ts.lifetime <= now ==> Authenticated(SentHeader(stored), ts, now) == Err(BadToken))
            && Authenticated(SentHeader(ApiClient.AfterRejection(stored, ApiClient.HttpError(Some(401)))), ts, now) == Err(NoToken)
  {
    var token := AuthController.SignToken(ts, id, u, issuedAt);
    var stored := storage[ApiClient.TokenKey := token];
    assert token != "" && ' ' !in token;
    assert SentHeader(stored) == Some(ApiClient.BearerHeader(token));
    BearerRoundTrip(token);
    var cleared := ApiClient.AfterRejection(stored, ApiClient.HttpError(Some(401)));
    assert ApiClient.WithAuthorization(map[], cleared) == map[];
  }

  /**
   * A click on an owned task's checkbox is never refused: the update
   * changes that task's status and nothing else in the store, and a second
   * click on the result restores the store when the status was "pending" or
   * "completed".
   */
  lemma ToggleRoundTrip(store: TaskController.Store, actor: Claims, id: string)
    requires id in store && TaskController.MayAccess(actor, store[id])
    ensures var first := TaskController.Update(store, actor, id, Dashboard.ToggleBody(store[id]));
            && first.reply.Found?
            && first.store == store[id := store[id].(status := Dashboard.NextStatus(store[id].status))]
            && (store[id].status in Statuses ==>
                  TaskController.Update(first.store, actor, id, Dashboard.ToggleBody(first.store[id])).store == store)
  {
    var task := store[id];
    Dashboard.ToggleBodyPatchesStatus(task);
    var first := TaskController.Update(store, actor, id, Dashboard.ToggleBody(task));
    var toggled := task.(status := Dashboard.NextStatus(task.status));
    Dashboard.ToggleBodyPatchesStatus(toggled);
    Dashboard.ToggleTwice(task.status);
    if task.status in Statuses {
      assert toggled.(status := Dashboard.NextStatus(toggled.status)) == task;
    }
  }

  /**
   * A new-task dialog submitted by a non-admin passes the create schema, and
   * the task created from the validated body belongs to that user and holds
   * the trimmed title and description and the selected status.
   */
  lemma ModalCreatesOwnTask(store: TaskController.Store, actor: Claims, title: string, description: string,
                            status: string, id: string, now: int)
    requires id !in store && status in Statuses
    requires TaskModal.SubmitPayload(title, description, status).Some?
    ensures var p := TaskModal.SubmitPayload(title, description, status).value;
            var parsed := ParseCreateTask(TaskModal.PayloadObject(p));
            && parsed.Ok?
            && TaskController.Create(store, actor, parsed.value, id, now).reply
               == TaskController.Created(TaskController.Entry(id, TaskController.Task(p.title, p.description, status, actor.id, now)))
  {
    TaskModal.PayloadPassesSchemas(title, description, status);
  }
}
