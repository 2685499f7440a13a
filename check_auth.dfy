/** The `checkAuth` middleware: reads the `Authorization` header, decides
    between a 401 reply and letting the request through, and on success
    attaches the caller's record, without its password, as `req.user`.
    Signature checking (`jwt.verify`) is an oracle passed in by the caller:
    it returns the `id` claim of a token it accepts and nothing for a token
    it rejects. */
module CheckAuth {
  import opened Base
  import opened UserModel

  const TokenNotValid := "Token no válido"
  const NoAuthorization := "Sin autorizacion"

  // ---------------------------------------------------------------------
  // `String.prototype.split` with a one-character separator

  function Split(s: string, sep: char): (fields: seq<string>)
    ensures |fields| >= 1
    ensures forall i :: 0 <= i < |fields| ==> sep !in fields[i]
  {
    if s == [] then [""]
    else
      var rest := Split(s[1..], sep);
      if s[0] == sep then [""] + rest else [[s[0]] + rest[0]] + rest[1..]
  }

  /** `Array.prototype.join`, the inverse of `Split`. */
  function Join(fields: seq<string>, sep: char): string
    requires |fields| >= 1
  {
    if |fields| == 1 then fields[0] else fields[0] + [sep] + Join(fields[1..], sep)
  }

  /** Splitting loses nothing: joining the fields back gives the input. */
  lemma {:induction false} JoinSplit(s: string, sep: char)
    ensures Join(Split(s, sep), sep) == s
  {
    if s != [] {
      var rest := Split(s[1..], sep);
      JoinSplit(s[1..], sep);
      if s[0] != sep && |rest| > 1 {
        assert Split(s, sep)[1..] == rest[1..];
      }
    }
  }

  /** A text without the separator is a single field. */
  lemma {:induction false} SplitWithoutSep(a: string, sep: char)
    requires sep !in a
    ensures Split(a, sep) == [a]
  {
    if a != [] {
      SplitWithoutSep(a[1..], sep);
      assert [a[0]] + a[1..] == a;
    }
  }

  /** The text before the first separator is the first field, and the rest
      is split on its own. */
  lemma {:induction false} SplitAtSep(a: string, sep: char, b: string)
    requires sep !in a
    ensures Split(a + [sep] + b, sep) == [a] + Split(b, sep)
  {
    if a != [] {
      assert (a + [sep] + b)[1..] == a[1..] + [sep] + b;
      SplitAtSep(a[1..], sep, b);
      assert (a + [sep] + b)[0] == a[0] != sep;
      assert [a[0]] + a[1..] == a;
    } else {
      assert (a + [sep] + b)[1..] == b;
    }
  }

  // ---------------------------------------------------------------------
  // The header

  predicate StartsWith(s: string, prefix: string) {
    |prefix| <= |s| && s[..|prefix|] == prefix
  }

  /** `authorization.split(" ")[1]`: the second space-separated field, or
      `undefined` when the header holds no space. */
  function SecondField(header: string): (token: Option<string>)
    ensures token.Some? ==> ' ' !in token.value
  {
    var fields := Split(header, ' ');
    if |fields| > 1 then Some(fields[1]) else None
  }

  /** The header `"<scheme> <token>"`, optionally followed by more fields,
      yields exactly `<token>`; a header without a space yields nothing. */
  lemma SecondFieldOf(scheme: string, token: string, more: string)
    requires ' ' !in scheme && ' ' !in token
    ensures SecondField(scheme + " " + token) == Some(token)
    ensures SecondField(scheme + " " + token + " " + more) == Some(token)
    ensures SecondField(scheme) == None
  {
    SplitWithoutSep(scheme, ' ');
    SplitAtSep(scheme, ' ', token);
    SplitWithoutSep(token, ' ');
    assert scheme + " " + token + " " + more == scheme + [' '] + (token + [' '] + more);
    SplitAtSep(scheme, ' ', token + [' '] + more);
    SplitAtSep(token, ' ', more);
  }

  /** `jwt.verify(token, secret).id`: `jwt.verify` refuses a missing or empty
      token itself and otherwise asks the signature oracle. */
  function Decode(token: Option<string>, verify: string -> Option<ObjectId>): Option<ObjectId> {
    if token.Some? && token.value != "" then verify(token.value) else None
  }

  /** The header passes the first test of the middleware: present, not empty,
      and starting with "Bearer". */
  predicate IsBearer(authorization: Option<string>) {
    Truthy(authorization) && StartsWith(authorization.value, "Bearer")
  }

  datatype AuthOutcome =
    | Reject(reply: Reply)               // `res.status(401).json(...)`
    | Proceed(user: Option<Profile>)     // `next()` with `req.user` set

  /** `checkAuth(req, res, next)`. `users` is the user collection that
      `User.findById` reads. */
  method CheckAuth(authorization: Option<string>, verify: string -> Option<ObjectId>,
                   users: map<ObjectId, User>) returns (outcome: AuthOutcome)
    // No header, or one that does not start with "Bearer": "Token no válido".
    ensures !IsBearer(authorization) <==> outcome == Reject(Reply(401, TokenNotValid))
    // A bearer header whose second field the verifier does not accept, or
    // whose id claim is not an identifier: "Sin autorizacion".
    ensures outcome == Reject(Reply(401, NoAuthorization)) <==>
              IsBearer(authorization) &&
              var id := Decode(SecondField(authorization.value), verify);
              id.None? || !IsValidId(id.value)
    // The request goes on exactly when the token verifies to a well-formed
    // id, carrying the user that id names, in any letter case (or none if it
    // no longer exists), and never a password.
    ensures outcome.Proceed? <==>
              IsBearer(authorization) &&
              var id := Decode(SecondField(authorization.value), verify);
              id.Some? && IsValidId(id.value)
    ensures outcome.Proceed? ==>
              var id := Decode(SecondField(authorization.value), verify).value;
              var key := IdKey(id);
              outcome.user == (if key in users then Some(WithoutPassword(key, users[key])) else None)
    ensures outcome.Reject? ==> outcome.reply.status == 401
  {
    var token: Option<string> := None;

    if Truthy(authorization) && StartsWith(authorization.value, "Bearer") {
      token := SecondField(authorization.value);
      var decoded := Decode(token, verify);
      if decoded.None? {
        return Reject(Reply(401, NoAuthorization));
      }
      // `User.findById` throws a cast error for an id of the wrong shape.
      if !IsValidId(decoded.value) {
        return Reject(Reply(401, NoAuthorization));
      }
      var id := IdKey(decoded.value);
      var user := if id in users then Some(WithoutPassword(id, users[id])) else None;
      return Proceed(user);
    }

    if token.None? {
      return Reject(Reply(401, TokenNotValid));
    }

    // The final `next()`: every path that sets `token` has returned above, so
    // this line is never reached.
    return Proceed(None);
  }
}
