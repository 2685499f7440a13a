/** `UserController`: registration, account confirmation, login and the user
    CRUD handlers, over the user collection and the confirmation-token
    collection.

    As for tickets, each state-changing handler is a function from the
    collections before the request to the reply and the collections after
    it, which the lemmas reason about, and a method of `AccountStore` that
    follows the handler statement by statement and is proved to agree with
    it. The e-mail `UserEmail.confirmAccount` sends is returned as a value
    (`Mail`) instead of being sent. */
module UserController {
  import opened Base
  import opened UserModel
  import T = TokenModel

  type Users = map<ObjectId, User>

  const AllRequired := "Todos los datos son obligatorios"
  const UserExists := "El usuario ya existe"
  const EmailNotValid := "Email no valido"
  const PasswordTooShort := "El password debe contener al menos 6 caracteres"
  const UserCreated := "Usuario creado"
  const TokenRequired := "El token es obligatorio"
  const TokenNotValid := "Token no válido"
  const AccountConfirmed := "Cuanta confirmada"
  const CredentialsRequired := "El email y el password son obligatorios"
  const UserNotFound := "Usuario no encontrado"
  const AccountInactive := "Tu cuenta esta inactiva, contacta un administrador"
  const NotConfirmed := "Tu cuenta no ha sido confirmada, pero hemos enviado un nuevo token"
  const WrongPassword := "Password incorrecto"
  const UserUpdated := "Usuario actualizado"
  const UserDeleted := "Usuario eliminado"

  /** The minimum password length `createUser` accepts, counted as
      JavaScript's `length` counts: in UTF-16 code units. */
  const MinPasswordLength := 6

  /** `expiresIn: '30d'` of the session token, in milliseconds. */
  const ThirtyDays: int := 30 * 24 * 60 * 60 * 1000

  /** What the handlers take from outside: `validateEmail` (an e-mail format
      check whose definition is not part of this model) and the instant the
      token schema was loaded, which is every token's `createdAt`. */
  datatype Env = Env(validateEmail: string -> bool, schemaLoadedAt: Date)

  /** The two collections. Tokens are kept in insertion order, the order in
      which `Token.findOne` meets them. */
  datatype Db = Db(users: Users, tokens: seq<T.Token>)

  /** At most one account per stored address (the `unique` index). */
  predicate EmailsUnique(users: Users) {
    forall a, b :: a in users && b in users && users[a].email == users[b].email ==> a == b
  }

  /** The collections as the database keeps them: printed ObjectId keys, users that
      passed the validators, unique addresses, and tokens whose `createdAt`
      is the schema's one default. */
  predicate DbValid(db: Db, env: Env) {
    && (forall id :: id in db.users ==> IsStoredId(id) && Valid(db.users[id]))
    && EmailsUnique(db.users)
    && (forall j :: 0 <= j < |db.tokens| ==> db.tokens[j].createdAt == env.schemaLoadedAt)
  }

  /** Storing a valid user under a fresh identifier, with an address no one
      else has, keeps the collections valid. */
  lemma InsertUserValid(db: Db, env: Env, id: ObjectId, u: User)
    requires DbValid(db, env) && IsStoredId(id) && id !in db.users && Valid(u)
    requires forall k :: k in db.users ==> db.users[k].email != u.email
    ensures DbValid(Db(db.users[id := u], db.tokens), env)
  {
  }

  /** Replacing a stored user by a valid one with the same address keeps the
      collections valid. */
  lemma ReplaceUserValid(db: Db, env: Env, id: ObjectId, u: User)
    requires DbValid(db, env) && id in db.users && Valid(u) && u.email == db.users[id].email
    ensures DbValid(Db(db.users[id := u], db.tokens), env)
  {
    var users := db.users[id := u];
    assert forall k :: k in users ==> users[k].email == db.users[k].email;
  }

  /** Any token list of the schema's own `createdAt` may stand beside valid users. */
  lemma TokensValid(db: Db, env: Env, tokens: seq<T.Token>)
    requires DbValid(db, env)
    requires forall j :: 0 <= j < |tokens| ==> tokens[j].createdAt == env.schemaLoadedAt
    ensures DbValid(Db(db.users, tokens), env)
  {
  }

  /** The message `UserEmail.confirmAccount` sends. */
  datatype Mail = ConfirmAccountMail(name: string, email: string, token: string)

  datatype Outcome = Outcome(reply: Reply, db: Db, mail: Option<Mail>)

  // ---------------------------------------------------------------------
  // Lookups

  /** `User.findOne({ email })`. The query runs the field's `lowercase` and
      `trim` setters on its argument, so the match is on the normalised
      address. */
  function ByEmail(users: Users, email: string): (r: Option<ObjectId>)
    requires EmailsUnique(users)
    ensures r.None? <==> forall id :: id in users ==> users[id].email != NormalizeEmail(email)
    ensures r.Some? ==> r.value in users && users[r.value].email == NormalizeEmail(email)
  {
    if exists id :: id in users && users[id].email == NormalizeEmail(email) then
      var id :| id in users && users[id].email == NormalizeEmail(email);
      Some(id)
    else None
  }

  /** A token `Token.findOne({ token })` can still see: right code, and not
      yet removed by the time-to-live index. */
  predicate LiveMatch(t: T.Token, code: string, now: Date) {
    t.token == code && !T.Expired(t, now)
  }

  /** `Token.findOne({ token })`: the position of the first live token with
      that code. */
  function FirstLive(tokens: seq<T.Token>, code: string, now: Date): (r: Option<nat>)
    ensures r.Some? ==> r.value < |tokens| && LiveMatch(tokens[r.value], code, now)
    ensures r.Some? ==> forall j :: 0 <= j < r.value ==> !LiveMatch(tokens[j], code, now)
    ensures r.None? <==> forall j :: 0 <= j < |tokens| ==> !LiveMatch(tokens[j], code, now)
  {
    if tokens == [] then None
    else if LiveMatch(tokens[0], code, now) then Some(0)
    else
      match FirstLive(tokens[1..], code, now)
      case None => None
      case Some(i) => Some(i + 1)
  }

  /** How many live tokens carry the code. */
  function CountLive(tokens: seq<T.Token>, code: string, now: Date): nat {
    if tokens == [] then 0
    else (if LiveMatch(tokens[0], code, now) then 1 else 0) + CountLive(tokens[1..], code, now)
  }

  function RemoveAt<X>(s: seq<X>, i: nat): seq<X>
    requires i < |s|
  {
    s[..i] + s[i + 1..]
  }

  // ---------------------------------------------------------------------
  // createUser

  datatype Registration = Registration(
    name: Option<string>,
    lastName: Option<string>,
    email: Option<string>,
    password: Option<string>)

  predicate AllGiven(body: Registration) {
    Truthy(body.name) && Truthy(body.lastName) && Truthy(body.email) && Truthy(body.password)
  }

  /** The document `createUser` builds: setters applied, the password hashed. */
  function NewAccount(body: Registration): User
    requires AllGiven(body)
  {
    New(body.name.value, body.lastName.value, body.email.value, Hash(body.password.value))
  }

  /** `createUser`. The checks run in this order: a missing field (400), an
      address already registered (409), an address `validateEmail` rejects
      (409), a password shorter than six UTF-16 code units (409); none of them
      stores anything. On success the user and one token for it are saved
      side by side (`Promise.allSettled`): the token always, the user only if
      the validators accept it, and the reply is 202 either way. */
  function Register(db: Db, env: Env, body: Registration, newId: ObjectId, draw: nat): (o: Outcome)
    requires DbValid(db, env) && IsStoredId(newId) && newId !in db.users && draw < T.CodeRange
    ensures DbValid(o.db, env)
    ensures !AllGiven(body) ==> o == Outcome(Reply(400, AllRequired), db, None)
    ensures AllGiven(body) && ByEmail(db.users, body.email.value).Some? ==>
              o == Outcome(Reply(409, UserExists), db, None)
    ensures AllGiven(body) && ByEmail(db.users, body.email.value).None?
            && !env.validateEmail(body.email.value) ==>
              o == Outcome(Reply(409, EmailNotValid), db, None)
    ensures AllGiven(body) && ByEmail(db.users, body.email.value).None?
            && env.validateEmail(body.email.value) && Utf16Length(body.password.value) < MinPasswordLength ==>
              o == Outcome(Reply(409, PasswordTooShort), db, None)
    ensures o.reply.status == 202 <==>
              AllGiven(body) && ByEmail(db.users, body.email.value).None?
              && env.validateEmail(body.email.value) && Utf16Length(body.password.value) >= MinPasswordLength
    ensures o.reply.status != 202 ==> o.db == db && o.mail == None
    ensures o.reply.status == 202 ==>
              && o.reply.message == UserCreated
              && o.db.tokens == db.tokens + [T.New(T.GenerateCode(draw), newId, env.schemaLoadedAt)]
              && o.db.users == (if Valid(NewAccount(body)) then db.users[newId := NewAccount(body)] else db.users)
              && o.mail == Some(ConfirmAccountMail(NewAccount(body).name, NewAccount(body).email,
                                                   T.GenerateCode(draw)))
  {
    if !AllGiven(body) then Outcome(Reply(400, AllRequired), db, None)
    else if ByEmail(db.users, body.email.value).Some? then Outcome(Reply(409, UserExists), db, None)
    else if !env.validateEmail(body.email.value) then Outcome(Reply(409, EmailNotValid), db, None)
    else if Utf16Length(body.password.value) < MinPasswordLength then Outcome(Reply(409, PasswordTooShort), db, None)
    else
      var user := NewAccount(body);
      var token := T.New(T.GenerateCode(draw), newId, env.schemaLoadedAt);
      var users := if Valid(user) then db.users[newId := user] else db.users;
      SavedAccountValid(db, env, body, newId, token);
      Outcome(Reply(202, UserCreated), Db(users, db.tokens + [token]),
              Some(ConfirmAccountMail(user.name, user.email, token.token)))
  }

  /** Three characters outside the Basic Multilingual Plane are six UTF-16
      code units, so such a password passes the length check. */
  lemma AstralPasswordAccepted(db: Db, env: Env, body: Registration, newId: ObjectId, draw: nat)
    requires DbValid(db, env) && IsStoredId(newId) && newId !in db.users && draw < T.CodeRange
    requires AllGiven(body) && ByEmail(db.users, body.email.value).None?
    requires env.validateEmail(body.email.value)
    requires body.password.value == "\U{1F600}\U{1F600}\U{1F600}"
    ensures Register(db, env, body, newId, draw).reply.status == 202
  {
    Utf16LengthAstral();
  }

  /** What `createUser` saves keeps the collections valid: the address is
      not yet taken, and the user is stored only if the validators accept it. */
  lemma SavedAccountValid(db: Db, env: Env, body: Registration, newId: ObjectId, token: T.Token)
    requires DbValid(db, env) && IsStoredId(newId) && newId !in db.users
    requires AllGiven(body) && ByEmail(db.users, body.email.value).None?
    requires token.createdAt == env.schemaLoadedAt
    ensures var user := NewAccount(body);
            DbValid(Db(if Valid(user) then db.users[newId := user] else db.users, db.tokens + [token]), env)
  {
    var user := NewAccount(body);
    var tokens := db.tokens + [token];
    assert forall j :: 0 <= j < |tokens| ==> tokens[j].createdAt == env.schemaLoadedAt;
    if Valid(user) {
      var email := NormalizeEmail(body.email.value);
      assert user.email == email;
      assert forall k :: k in db.users ==> db.users[k].email != email;
      InsertUserValid(db, env, newId, user);
      TokensValid(Db(db.users[newId := user], db.tokens), env, tokens);
    } else {
      TokensValid(db, env, tokens);
    }
  }

  /** A registered account stores the digest of the password, never the
      password, is active, unconfirmed, has only the `default` permission,
      and is the subject of exactly the one token added. A name or last name
      of white space only is accepted with 202 but the account is not saved
      while its token is. */
  lemma RegisteredAccount(db: Db, env: Env, body: Registration, newId: ObjectId, draw: nat)
    requires DbValid(db, env) && IsStoredId(newId) && newId !in db.users && draw < T.CodeRange
    requires Register(db, env, body, newId, draw).reply.status == 202
    ensures var after := Register(db, env, body, newId, draw).db;
            && |after.tokens| == |db.tokens| + 1
            && after.tokens[..|db.tokens|] == db.tokens
            && after.tokens[|db.tokens|].user == newId
            && T.IsSixDigitCode(after.tokens[|db.tokens|].token)
            && (newId in after.users <==> !Blank(body.name) && !Blank(body.lastName)
                                          && NormalizeEmail(body.email.value) != "")
            && (newId in after.users ==>
                  && after.users[newId].password == Hash(body.password.value)
                  && Check(body.password.value, after.users[newId].password)
                  && after.users[newId].email == NormalizeEmail(body.email.value)
                  && after.users[newId].isActive && !after.users[newId].isConfirmed
                  && after.users[newId].permissions == [Default])
            && (forall id :: id in db.users ==> id in after.users && after.users[id] == db.users[id])
  {
    T.GeneratedCode(draw);
    var after := Register(db, env, body, newId, draw).db;
    assert after.tokens[..|db.tokens|] == db.tokens;
  }

  /** Registering an address that is already taken, in any letter case and
      with any surrounding white space, is refused with 409 and stores
      nothing. */
  lemma ReRegisterConflicts(db: Db, env: Env, first: Registration, newId: ObjectId, draw: nat,
                            second: Registration, otherId: ObjectId, otherDraw: nat)
    requires DbValid(db, env) && IsStoredId(newId) && newId !in db.users && draw < T.CodeRange
    requires var o := Register(db, env, first, newId, draw); o.reply.status == 202 && newId in o.db.users
    requires AllGiven(second) && NormalizeEmail(second.email.value) == NormalizeEmail(first.email.value)
    requires var o := Register(db, env, first, newId, draw);
             IsStoredId(otherId) && otherId !in o.db.users && otherDraw < T.CodeRange
    ensures var o := Register(db, env, first, newId, draw);
            Register(o.db, env, second, otherId, otherDraw) == Outcome(Reply(409, UserExists), o.db, None)
  {
    var o := Register(db, env, first, newId, draw);
    assert o.db.users[newId].email == NormalizeEmail(second.email.value);
  }

  // ---------------------------------------------------------------------
  // confirmAccount

  /** `confirmAccount`: an empty code and a code with no live token are both
      409. The token's user is looked up; if it is gone, setting its flag
      throws (500) and nothing changes. Otherwise that user, and no other, is
      confirmed, and the one token found, and no other, is deleted. */
  function Confirm(db: Db, env: Env, code: Option<string>, now: Date): (o: Outcome)
    requires DbValid(db, env)
    ensures DbValid(o.db, env)
    ensures o.mail == None
    ensures !Truthy(code) ==> o == Outcome(Reply(409, TokenRequired), db, None)
    ensures Truthy(code) && FirstLive(db.tokens, code.value, now).None? ==>
              o == Outcome(Reply(409, TokenNotValid), db, None)
    ensures o.reply.status != 200 ==> o.db == db
    ensures o.reply.status == 200 <==>
              Truthy(code) && FirstLive(db.tokens, code.value, now).Some?
              && db.tokens[FirstLive(db.tokens, code.value, now).value].user in db.users
    ensures o.reply.status == 200 ==>
              var i := FirstLive(db.tokens, code.value, now).value;
              var owner := db.tokens[i].user;
              && o.reply.message == AccountConfirmed
              && o.db.tokens == RemoveAt(db.tokens, i)
              && o.db.users == db.users[owner := db.users[owner].(isConfirmed := true)]
  {
    if !Truthy(code) then Outcome(Reply(409, TokenRequired), db, None)
    else
      match FirstLive(db.tokens, code.value, now)
      case None => Outcome(Reply(409, TokenNotValid), db, None)
      case Some(i) =>
        var owner := db.tokens[i].user;
        if owner !in db.users then Outcome(Reply(500, ServerError), db, None)
        else
          var users := db.users[owner := db.users[owner].(isConfirmed := true)];
          ReplaceUserValid(db, env, owner, users[owner]);
          TokensValid(Db(users, db.tokens), env, RemoveAt(db.tokens, i));
          Outcome(Reply(200, AccountConfirmed), Db(users, RemoveAt(db.tokens, i)), None)
  }

  /** A live token counts once among the live tokens with its code. */
  lemma {:induction false} CountLiveRemove(tokens: seq<T.Token>, i: nat, code: string, now: Date)
    requires i < |tokens| && LiveMatch(tokens[i], code, now)
    ensures CountLive(RemoveAt(tokens, i), code, now) == CountLive(tokens, code, now) - 1
  {
    if i > 0 {
      CountLiveRemove(tokens[1..], i - 1, code, now);
      assert RemoveAt(tokens, i) == [tokens[0]] + RemoveAt(tokens[1..], i - 1);
    } else {
      assert RemoveAt(tokens, i) == tokens[1..];
    }
  }

  /** With no live token carrying the code, `findOne` finds nothing. */
  lemma {:induction false} CountLiveZero(tokens: seq<T.Token>, code: string, now: Date)
    ensures CountLive(tokens, code, now) == 0 <==> FirstLive(tokens, code, now).None?
  {
    if tokens != [] {
      CountLiveZero(tokens[1..], code, now);
    }
  }

  /** A token that has expired stays expired, so the live tokens only thin
      out as time passes. */
  lemma {:induction false} CountLiveLater(tokens: seq<T.Token>, code: string, now: Date, later: Date)
    requires now <= later
    ensures CountLive(tokens, code, later) <= CountLive(tokens, code, now)
  {
    if tokens != [] {
      CountLiveLater(tokens[1..], code, now, later);
    }
  }

  /** A successful confirmation consumes one live token with the code. */
  lemma ConfirmConsumesToken(db: Db, env: Env, code: Option<string>, now: Date)
    requires DbValid(db, env) && Confirm(db, env, code, now).reply.status == 200
    ensures CountLive(Confirm(db, env, code, now).db.tokens, code.value, now)
              == CountLive(db.tokens, code.value, now) - 1
  {
    CountLiveRemove(db.tokens, FirstLive(db.tokens, code.value, now).value, code.value, now);
  }

  /** Confirmation is single-use: when one live token carries the code, a
      second confirmation with it, now or later, is refused with 409 and
      changes nothing. */
  lemma ConfirmSingleUse(db: Db, env: Env, code: Option<string>, now: Date, later: Date)
    requires DbValid(db, env) && now <= later
    requires Truthy(code) && CountLive(db.tokens, code.value, now) == 1
    requires Confirm(db, env, code, now).reply.status == 200
    ensures var after := Confirm(db, env, code, now).db;
            Confirm(after, env, code, later) == Outcome(Reply(409, TokenNotValid), after, None)
  {
    var after := Confirm(db, env, code, now).db;
    ConfirmConsumesToken(db, env, code, now);
    CountLiveLater(after.tokens, code.value, now, later);
    CountLiveZero(after.tokens, code.value, later);
  }

  /** Every token is created with the schema's one default `createdAt`, so
      from ten minutes after the schema was loaded no token is ever found
      again: every confirmation is refused with 409, whatever the code. */
  lemma ConfirmAfterSchemaWindow(db: Db, env: Env, code: Option<string>, now: Date)
    requires DbValid(db, env) && Truthy(code)
    requires now >= env.schemaLoadedAt + T.TenMinutes
    ensures Confirm(db, env, code, now) == Outcome(Reply(409, TokenNotValid), db, None)
  {
    assert forall j :: 0 <= j < |db.tokens| ==> !LiveMatch(db.tokens[j], code.value, now);
  }

  // ---------------------------------------------------------------------
  // login

  /** The claims of the session token `generateJWT(user._id)` signs. */
  datatype Session = Session(id: ObjectId, issuedAt: Date, expiresAt: Date)

  datatype LoginOutcome = LoginOutcome(
    reply: Reply,
    db: Db,
    mail: Option<Mail>,
    user: Option<Profile>,
    session: Option<Session>)

  /** `login`. The checks run in this order: a missing field (409), an
      unknown address (404), an inactive account (401), an unconfirmed
      account (401, after a new token for it is saved and mailed), a wrong
      password (401). Only when all pass is a session issued, for the
      account's id, with the account without its password. */
  function Authenticate(db: Db, env: Env, email: Option<string>, password: Option<string>,
                 draw: nat, now: Date): (o: LoginOutcome)
    requires DbValid(db, env) && draw < T.CodeRange
    ensures DbValid(o.db, env)
    ensures o.db.users == db.users
    ensures !Truthy(email) || !Truthy(password) ==>
              o == LoginOutcome(Reply(409, CredentialsRequired), db, None, None, None)
    ensures Truthy(email) && Truthy(password) ==>
              var found := ByEmail(db.users, email.value);
              && (found.None? ==> o == LoginOutcome(Reply(404, UserNotFound), db, None, None, None))
              && (found.Some? && !db.users[found.value].isActive ==>
                    o == LoginOutcome(Reply(401, AccountInactive), db, None, None, None))
              && (found.Some? && db.users[found.value].isActive && !db.users[found.value].isConfirmed ==>
                    && o.reply == Reply(401, NotConfirmed)
                    && o.db.tokens == db.tokens + [T.New(T.GenerateCode(draw), found.value, env.schemaLoadedAt)]
                    && o.mail == Some(ConfirmAccountMail(db.users[found.value].name,
                                                         db.users[found.value].email, T.GenerateCode(draw)))
                    && o.session == None)
              && (found.Some? && db.users[found.value].isActive && db.users[found.value].isConfirmed
                  && !Check(password.value, db.users[found.value].password) ==>
                    o == LoginOutcome(Reply(401, WrongPassword), db, None, None, None))
    ensures o.session.Some? <==> o.reply.status == 200
    ensures o.reply.status == 200 ==>
              var id := o.session.value.id;
              && id in db.users && db.users[id].email == NormalizeEmail(email.value)
              && db.users[id].isActive && db.users[id].isConfirmed
              && Check(password.value, db.users[id].password)
              && o.session.value == Session(id, now, now + ThirtyDays)
              && o.user == Some(WithoutPassword(id, db.users[id]))
              && o.db == db && o.mail == None
  {
    if !Truthy(email) || !Truthy(password) then
      LoginOutcome(Reply(409, CredentialsRequired), db, None, None, None)
    else
      match ByEmail(db.users, email.value)
      case None => LoginOutcome(Reply(404, UserNotFound), db, None, None, None)
      case Some(id) =>
        var user := db.users[id];
        if !user.isActive then LoginOutcome(Reply(401, AccountInactive), db, None, None, None)
        else if !user.isConfirmed then
          var token := T.New(T.GenerateCode(draw), id, env.schemaLoadedAt);
          TokensValid(db, env, db.tokens + [token]);
          LoginOutcome(Reply(401, NotConfirmed), Db(db.users, db.tokens + [token]),
                       Some(ConfirmAccountMail(user.name, user.email, token.token)), None, None)
        else if !Check(password.value, user.password) then
          LoginOutcome(Reply(401, WrongPassword), db, None, None, None)
        else
          LoginOutcome(Reply(200, ""), db, None, Some(WithoutPassword(id, user)),
                       Some(Session(id, now, now + ThirtyDays)))
  }

  /** The whole account life cycle: register, confirm with the code that was
      issued (while the token schema's ten-minute window is open, and with
      no other live token carrying that code), then log in with the same
      address and password: the session is for the new account. */
  lemma RegisterConfirmLogin(db: Db, env: Env, body: Registration, newId: ObjectId, draw: nat,
                             now: Date, loginDraw: nat)
    requires DbValid(db, env) && IsStoredId(newId) && newId !in db.users && draw < T.CodeRange
    requires loginDraw < T.CodeRange
    requires Register(db, env, body, newId, draw).reply.status == 202
    requires newId in Register(db, env, body, newId, draw).db.users
    requires now < env.schemaLoadedAt + T.TenMinutes
    requires CountLive(db.tokens, T.GenerateCode(draw), now) == 0
    ensures var registered := Register(db, env, body, newId, draw).db;
            var confirmed := Confirm(registered, env, Some(T.GenerateCode(draw)), now);
            var login := Authenticate(confirmed.db, env, body.email, body.password, loginDraw, now);
            && confirmed.reply == Reply(200, AccountConfirmed)
            && confirmed.db.users[newId].isConfirmed
            && login.reply.status == 200
            && login.session == Some(Session(newId, now, now + ThirtyDays))
  {
    var code := T.GenerateCode(draw);
    T.GeneratedCode(draw);
    var registered := Register(db, env, body, newId, draw).db;
    CountLiveZero(db.tokens, code, now);
    var i := |db.tokens|;
    assert registered.tokens[i].token == code && registered.tokens[i].user == newId;
    assert FirstLive(registered.tokens, code, now) == Some(i) by {
      FirstLiveAppend(db.tokens, registered.tokens[i], code, now);
      assert registered.tokens == db.tokens + [registered.tokens[i]];
    }
    var confirmed := Confirm(registered, env, Some(code), now);
    assert confirmed.db.users[newId] == registered.users[newId].(isConfirmed := true);
    var found := ByEmail(confirmed.db.users, body.email.value);
    assert found == Some(newId);
    CheckHash(body.password.value, body.password.value);
  }

  /** Logging in before confirming never opens a session: the reply is 401,
      a fresh code for the account is saved and mailed. */
  lemma LoginBeforeConfirm(db: Db, env: Env, body: Registration, newId: ObjectId, draw: nat,
                           loginDraw: nat, now: Date)
    requires DbValid(db, env) && IsStoredId(newId) && newId !in db.users && draw < T.CodeRange
    requires loginDraw < T.CodeRange
    requires Register(db, env, body, newId, draw).reply.status == 202
    requires newId in Register(db, env, body, newId, draw).db.users
    ensures var registered := Register(db, env, body, newId, draw).db;
            var login := Authenticate(registered, env, body.email, body.password, loginDraw, now);
            && login.reply == Reply(401, NotConfirmed)
            && login.session == None
            && login.db.tokens == registered.tokens + [T.New(T.GenerateCode(loginDraw), newId, env.schemaLoadedAt)]
  {
    var registered := Register(db, env, body, newId, draw).db;
    assert ByEmail(registered.users, body.email.value) == Some(newId);
  }

  /** A deleted account cannot log in: its address is no longer found. */
  lemma DeletedAccountCannotLogin(db: Db, env: Env, id: ObjectId, password: string, draw: nat, now: Date)
    requires DbValid(db, env) && draw < T.CodeRange && id in db.users && password != ""
    ensures var after := DeleteAccount(db, env, id).db;
            var email := db.users[id].email;
            Authenticate(after, env, Some(email), Some(password), draw, now)
              == LoginOutcome(Reply(404, UserNotFound), after, None, None, None)
  {
    var email := db.users[id].email;
    NormalizedForm(email);
  }

  /** Appending a live match behind tokens that hold none makes it the one
      `findOne` returns. */
  lemma {:induction false} FirstLiveAppend(tokens: seq<T.Token>, t: T.Token, code: string, now: Date)
    requires FirstLive(tokens, code, now).None? && LiveMatch(t, code, now)
    ensures FirstLive(tokens + [t], code, now) == Some(|tokens|)
  {
    if tokens != [] {
      assert (tokens + [t])[1..] == tokens[1..] + [t];
      FirstLiveAppend(tokens[1..], t, code, now);
    }
  }

  // ---------------------------------------------------------------------
  // getUserById, updateUser, deleteUser

  /** `getUserById`: a malformed identifier and a missing user are both 404.
      The user is returned as stored (`findById` without `select`). */
  function GetUserById(users: Users, id: string): (r: Result<User>)
    ensures !IsValidId(id) ==> r == Err(Reply(404, InvalidId))
    ensures IsValidId(id) && IdKey(id) !in users ==> r == Err(Reply(404, UserNotFound))
    ensures r.Ok? <==> IsValidId(id) && IdKey(id) in users
    ensures r.Ok? ==> r.value == users[IdKey(id)]
  {
    if !IsValidId(id) then Err(Reply(404, InvalidId))
    else if IdKey(id) !in users then Err(Reply(404, UserNotFound))
    else Ok(users[IdKey(id)])
  }

  /** Identifiers that differ only in letter case name the same user. */
  lemma GetUserByIdIgnoresCase(users: Users, a: string, b: string)
    requires IsValidId(a) && IsValidId(b) && ToLower(a) == ToLower(b)
    ensures GetUserById(users, a) == GetUserById(users, b)
  {
    IdKeyIgnoresCase(a, b);
  }

  /** `getMe`: the caller `checkAuth` attached. */
  function GetMe(user: Option<Profile>): Option<Profile> {
    user
  }

  /** `getAllUsers`: every stored user, as stored. */
  function GetAllUsers(users: Users): Users {
    users
  }

  /** The `name = body.name || user.name` and `lastName = ...` assignments of
      `updateUser`, with the `trim` setter applied; every other field is kept. */
  function Rename(u: User, name: Option<string>, lastName: Option<string>): (r: User)
    requires Valid(u)
    ensures Valid(r) <==> !Blank(name) && !Blank(lastName)
    ensures r.name == (if Truthy(name) then Trim(name.value) else u.name)
    ensures r.lastName == (if Truthy(lastName) then Trim(lastName.value) else u.lastName)
    ensures r.email == u.email && r.password == u.password && r.avatar == u.avatar
    ensures r.permissions == u.permissions
    ensures r.isActive == u.isActive && r.isConfirmed == u.isConfirmed
  {
    AssignTrimmed(name, u.name);
    AssignTrimmed(lastName, u.lastName);
    u.(name := Trim(OrElse(name, u.name)), lastName := Trim(OrElse(lastName, u.lastName)))
  }

  /** `updateUser`: 404 for a malformed or unknown id; a name that trims to
      nothing fails the validators (500); otherwise that one user is renamed
      and nothing else changes. */
  function UpdateAccount(db: Db, env: Env, id: string, name: Option<string>, lastName: Option<string>): (o: Outcome)
    requires DbValid(db, env)
    ensures DbValid(o.db, env)
    ensures o.mail == None && o.db.tokens == db.tokens
    ensures !IsValidId(id) ==> o == Outcome(Reply(404, InvalidId), db, None)
    ensures IsValidId(id) && IdKey(id) !in db.users ==> o == Outcome(Reply(404, UserNotFound), db, None)
    ensures o.reply.status == 200 <==>
              IsValidId(id) && IdKey(id) in db.users && !Blank(name) && !Blank(lastName)
    ensures o.reply.status != 200 ==> o.db == db
    ensures o.reply.status == 200 ==>
              o.reply.message == UserUpdated &&
              o.db.users == db.users[IdKey(id) := Rename(db.users[IdKey(id)], name, lastName)]
  {
    if !IsValidId(id) then Outcome(Reply(404, InvalidId), db, None)
    else
      var key := IdKey(id);
      if key !in db.users then Outcome(Reply(404, UserNotFound), db, None)
      else
        var u := Rename(db.users[key], name, lastName);
        if !Valid(u) then Outcome(Reply(500, ServerError), db, None)
        else
          ReplaceUserValid(db, env, key, u);
          Outcome(Reply(200, UserUpdated), Db(db.users[key := u], db.tokens), None)
  }

  /** `deleteUser`: 404 for a malformed or unknown id; otherwise exactly that
      user is removed. Its tickets and tokens stay. */
  function DeleteAccount(db: Db, env: Env, id: string): (o: Outcome)
    requires DbValid(db, env)
    ensures DbValid(o.db, env)
    ensures o.mail == None && o.db.tokens == db.tokens
    ensures !IsValidId(id) ==> o == Outcome(Reply(404, InvalidId), db, None)
    ensures IsValidId(id) && IdKey(id) !in db.users ==> o == Outcome(Reply(404, UserNotFound), db, None)
    ensures o.reply.status == 200 <==> IsValidId(id) && IdKey(id) in db.users
    ensures o.reply.status != 200 ==> o.db == db
    ensures o.reply.status == 200 ==>
              && o.reply.message == UserDeleted
              && o.db.users.Keys == db.users.Keys - {IdKey(id)}
              && forall k :: k in o.db.users ==> o.db.users[k] == db.users[k]
  {
    if !IsValidId(id) then Outcome(Reply(404, InvalidId), db, None)
    else if IdKey(id) !in db.users then Outcome(Reply(404, UserNotFound), db, None)
    else Outcome(Reply(200, UserDeleted), Db(db.users - {IdKey(id)}, db.tokens), None)
  }

  // ---------------------------------------------------------------------
  // The handlers, statement by statement, over the stored collections

  class AccountStore {
    var users: Users
    var tokens: seq<T.Token>
    const env: Env

    ghost predicate Valid()
      reads this
    {
      DbValid(Db(users, tokens), env)
    }

    constructor (env: Env)
      ensures Valid() && this.env == env && users == map[] && tokens == []
    {
      this.env := env;
      users := map[];
      tokens := [];
    }

    /** `createUser`. `newId` is the identifier the database assigns to the
        new user; `draw` is the value `Math.random` produced for the code. */
    method CreateUser(body: Registration, newId: ObjectId, draw: nat) returns (reply: Reply, mail: Option<Mail>)
      requires Valid() && IsStoredId(newId) && newId !in users && draw < T.CodeRange
      modifies this
      ensures Valid()
      ensures Outcome(reply, Db(users, tokens), mail) == Register(old(Db(users, tokens)), env, body, newId, draw)
    {
      mail := None;
      if !Truthy(body.name) || !Truthy(body.lastName) || !Truthy(body.email) || !Truthy(body.password) {
        return Reply(400, AllRequired), None;
      }
      var userExists := ByEmail(users, body.email.value);
      if userExists.Some? {
        return Reply(409, UserExists), None;
      }
      if !env.validateEmail(body.email.value) {
        return Reply(409, EmailNotValid), None;
      }
      if Utf16Length(body.password.value) < MinPasswordLength {
        return Reply(409, PasswordTooShort), None;
      }
      var hashedPassword := Hash(body.password.value);
      var user := New(body.name.value, body.lastName.value, body.email.value, hashedPassword);
      var token := T.New(T.GenerateCode(draw), newId, env.schemaLoadedAt);
      // Both saves are settled independently; the validators may refuse the user.
      if UserModel.Valid(user) {
        users := users[newId := user];
      }
      tokens := tokens + [token];
      mail := Some(ConfirmAccountMail(user.name, user.email, token.token));
      reply := Reply(202, UserCreated);
    }

    /** `confirmAccount`. */
    method ConfirmAccount(code: Option<string>, now: Date) returns (reply: Reply)
      requires Valid()
      modifies this
      ensures Valid()
      ensures Outcome(reply, Db(users, tokens), None) == Confirm(old(Db(users, tokens)), env, code, now)
    {
      if !Truthy(code) {
        return Reply(409, TokenRequired);
      }
      var tokenExists := FirstLive(tokens, code.value, now);
      if tokenExists.None? {
        return Reply(409, TokenNotValid);
      }
      var i := tokenExists.value;
      var owner := tokens[i].user;
      if owner !in users {
        // `user.isConfirmed = true` on a null user throws.
        return Reply(500, ServerError);
      }
      var user := users[owner];
      user := user.(isConfirmed := true);
      ReplaceUserValid(Db(users, tokens), env, owner, user);
      TokensValid(Db(users[owner := user], tokens), env, RemoveAt(tokens, i));
      users := users[owner := user];
      tokens := RemoveAt(tokens, i);
      reply := Reply(200, AccountConfirmed);
    }

    /** `login`. `draw` is the value `Math.random` produced should a new code
        be needed; `now` is the instant the session token is signed. */
    method Login(email: Option<string>, password: Option<string>, draw: nat, now: Date)
      returns (reply: Reply, mail: Option<Mail>, user: Option<Profile>, session: Option<Session>)
      requires Valid() && draw < T.CodeRange
      modifies this
      ensures Valid()
      ensures LoginOutcome(reply, Db(users, tokens), mail, user, session)
              == Authenticate(old(Db(users, tokens)), env, email, password, draw, now)
    {
      mail, user, session := None, None, None;
      if !Truthy(email) || !Truthy(password) {
        reply := Reply(409, CredentialsRequired);
        return;
      }
      var found := ByEmail(users, email.value);
      if found.None? {
        reply := Reply(404, UserNotFound);
        return;
      }
      var id := found.value;
      var account := users[id];
      if !account.isActive {
        reply := Reply(401, AccountInactive);
        return;
      }
      if !account.isConfirmed {
        var token := T.New(T.GenerateCode(draw), id, env.schemaLoadedAt);
        tokens := tokens + [token];
        mail := Some(ConfirmAccountMail(account.name, account.email, token.token));
        reply := Reply(401, NotConfirmed);
        return;
      }
      var isPasswordCorrect := Check(password.value, account.password);
      if !isPasswordCorrect {
        reply := Reply(401, WrongPassword);
        return;
      }
      user := Some(WithoutPassword(id, account));
      session := Some(Session(id, now, now + ThirtyDays));
      reply := Reply(200, "");
    }

    /** `updateUser`. */
    method UpdateUser(id: string, name: Option<string>, lastName: Option<string>) returns (reply: Reply)
      requires Valid()
      modifies this
      ensures Valid()
      ensures Outcome(reply, Db(users, tokens), None)
              == UpdateAccount(old(Db(users, tokens)), env, id, name, lastName)
    {
      if !IsValidId(id) {
        return Reply(404, InvalidId);
      }
      // `findById` casts the text to an ObjectId.
      var key := IdKey(id);
      if key !in users {
        return Reply(404, UserNotFound);
      }
      var user := users[key];
      user := user.(name := Trim(OrElse(name, user.name)));
      user := user.(lastName := Trim(OrElse(lastName, user.lastName)));
      assert user == Rename(users[key], name, lastName);
      if !UserModel.Valid(user) {
        return Reply(500, ServerError);
      }
      ReplaceUserValid(Db(users, tokens), env, key, user);
      users := users[key := user];
      reply := Reply(200, UserUpdated);
    }

    /** `deleteUser`. */
    method DeleteUser(id: string) returns (reply: Reply)
      requires Valid()
      modifies this
      ensures Valid()
      ensures Outcome(reply, Db(users, tokens), None)
              == DeleteAccount(old(Db(users, tokens)), env, id)
    {
      if !IsValidId(id) {
        return Reply(404, InvalidId);
      }
      var key := IdKey(id);
      if key !in users {
        return Reply(404, UserNotFound);
      }
      users := users - {key};
      reply := Reply(200, UserDeleted);
    }
  }
}
