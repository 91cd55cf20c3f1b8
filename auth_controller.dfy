/**
 * Registration, login and the current-user lookup over the user store.
 * Replies carry only the public fields of a user; tokens carry exactly the
 * user's id, e-mail and role.
 */
module AuthController {
  import opened Builtins
  import opened Jwt
  import opened Validators

  /** A stored account. `password` is whatever the user model stores for it. */
  datatype User = User(name: string, email: string, password: string, role: string)

  /** `{id, name, email, role}`: the only user fields a reply ever shows. */
  datatype PublicUser = PublicUser(id: string, name: string, email: string, role: string)

  type Users = map<string, User>

  const EmailRegistered: string := "Email already registered"
  const WrongCredentials: string := "Wrong email or password"
  const UserNotFound: string := "User not found"

  /** What an auth handler answers: a token and the user (201 on register, 200 on login), a profile, or a failure. */
  datatype Reply =
    | Issued(status: int, token: string, user: PublicUser)
    | Profile(user: PublicUser)
    | Failed(status: int, message: string)

  datatype Outcome = Outcome(reply: Reply, users: Users)

  function PublicView(id: string, u: User): PublicUser {
    PublicUser(id, u.name, u.email, u.role)
  }

  /** signToken: the claims are exactly the user's id, e-mail and role. */
  function SignToken(ts: TokenService, id: string, u: User, now: int): string {
    ts.sign(Claims(id, u.email, u.role), now)
  }

  /** A token from signToken verifies to that user's id, e-mail and role until it expires. */
  lemma SignedTokenVerifies(ts: TokenService, id: string, u: User, issuedAt: int, now: int)
    requires Sound(ts) && issuedAt <= now < issuedAt + ts.lifetime
    ensures ts.verify(SignToken(ts, id, u, issuedAt), now) == Some(Claims(id, u.email, u.role))
  {
  }

  predicate EmailTaken(users: Users, email: string) {
    exists id :: id in users && users[id].email == email
  }

  /** No two accounts share an e-mail address. */
  ghost predicate EmailsDistinct(users: Users) {
    forall a, b :: a in users && b in users && users[a].email == users[b].email ==> a == b
  }

  /**
   * register: a taken e-mail gives 409 and creates nobody; otherwise exactly
   * one account is added under the fresh id, and the reply is 201 with a
   * token for it and its public fields. E-mails stay distinct.
   */
  function RegisterResult(users: Users, body: RegisterData, id: string, ts: TokenService, now: int): (o: Outcome)
    requires id !in users
    ensures o.reply.Failed? <==> EmailTaken(users, body.email)
    ensures o.reply.Failed? ==> o.reply == Failed(409, EmailRegistered) && o.users == users
    ensures o.reply.Failed? || o.reply.Issued?
    ensures o.reply.Issued? ==>
              && o.users == users[id := User(body.name, body.email, body.password, body.role)]
              && o.reply.status == 201
              && o.reply.user == PublicView(id, o.users[id])
              && o.reply.token == SignToken(ts, id, o.users[id], now)
    ensures |o.users| == |users| + (if o.reply.Issued? then 1 else 0)
    ensures EmailsDistinct(users) ==> EmailsDistinct(o.users)
  {
    if EmailTaken(users, body.email) then Outcome(Failed(409, EmailRegistered), users)
    else
      var u := User(body.name, body.email, body.password, body.role);
      Outcome(Issued(201, SignToken(ts, id, u, now), PublicView(id, u)), users[id := u])
  }

  /** Registering an address a second time fails, whatever the other fields say, and leaves the store as the first registration left it. */
  lemma RegisterTwiceConflicts(users: Users, first: RegisterData, second: RegisterData, id1: string, id2: string,
                               ts: TokenService, t1: int, t2: int)
    requires id1 !in users && second.email == first.email
    requires id2 !in RegisterResult(users, first, id1, ts, t1).users
    ensures var after := RegisterResult(users, first, id1, ts, t1).users;
            RegisterResult(after, second, id2, ts, t2) == Outcome(Failed(409, EmailRegistered), after)
  {
    var after := RegisterResult(users, first, id1, ts, t1).users;
    if !EmailTaken(users, first.email) {
      assert after[id1].email == second.email;
    }
  }

  /** The account store. */
  class UserStore {
    var users: Users

    ghost predicate Valid()
      reads this
    {
      EmailsDistinct(users)
    }

    constructor ()
      ensures users == map[] && Valid()
    {
      users := map[];
    }

    /** register, with the store's fresh id and the current time. */
    method Register(body: RegisterData, id: string, ts: TokenService, now: int) returns (reply: Reply)
      requires Valid() && id !in users
      modifies this
      ensures Valid()
      ensures Outcome(reply, users) == RegisterResult(old(users), body, id, ts, now)
    {
      if EmailTaken(users, body.email) {
        return Failed(409, EmailRegistered);
      }
      var u := User(body.name, body.email, body.password, body.role);
      users := users[id := u];
      var token := SignToken(ts, id, u, now);
      reply := Issued(201, token, PublicView(id, u));
    }

    /**
     * login: an unknown e-mail and a wrong password give the same 401; a
     * matching account gets 200, a token for it and its public fields.
     * `passwordMatches` stands for the user model's `comparePassword`.
     */
    method Login(body: LoginData, ts: TokenService, now: int, passwordMatches: (User, string) -> bool) returns (reply: Reply)
      requires Valid()
      ensures reply.Failed? <==>
                !exists id :: id in users && users[id].email == body.email && passwordMatches(users[id], body.password)
      ensures reply.Failed? ==> reply == Failed(401, WrongCredentials)
      ensures reply.Failed? || reply.Issued?
      ensures reply.Issued? ==>
                && reply.status == 200
                && exists id :: id in users && users[id].email == body.email
                     && reply.user == PublicView(id, users[id]) && reply.token == SignToken(ts, id, users[id], now)
    {
      if !EmailTaken(users, body.email) {
        return Failed(401, WrongCredentials);
      }
      var id :| id in users && users[id].email == body.email;
      var u := users[id];
      if !passwordMatches(u, body.password) {
        return Failed(401, WrongCredentials);
      }
      reply := Issued(200, SignToken(ts, id, u, now), PublicView(id, u));
    }

    /** getMe: 404 when the token's id has no account, otherwise that account's public fields. */
    method GetMe(claims: Claims) returns (reply: Reply)
      ensures claims.id !in users ==> reply == Failed(404, UserNotFound)
      ensures claims.id in users ==> reply == Profile(PublicView(claims.id, users[claims.id]))
    {
      if claims.id !in users {
        return Failed(404, UserNotFound);
      }
      var u := users[claims.id];
      reply := Profile(PublicView(claims.id, u));
    }
  }
}
