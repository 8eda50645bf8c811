/**
  The authentication middleware: take the token from the Authorization
  header (with one leading "Bearer " removed) or, when the header is empty,
  from the `accessToken` query parameter; reject an empty token; otherwise
  hand it to the token validator and either continue with the user and the
  token, or reject with the validator's error.

  The validator (signature check and claim parsing) is a parameter.
*/
module FirebaseAuth {
  import opened Common

  const BearerPrefix: string := "Bearer "
  const MissingToken: string := "Missing JWT Token"
  const Unauthorized: int := 401

  /**
    The token of a request. `authHeader` is the first Authorization header
    and `accessToken` the query parameter; a missing one reads as "".
  */
  function ExtractToken(authHeader: string, accessToken: string): string
  {
    if authHeader != "" then TrimPrefix(authHeader, BearerPrefix) else accessToken
  }

  /** The JSON body of a rejection. */
  datatype ErrorBody =
    | MissingJwt             // {"error": "Missing JWT Token"}
    | InvalidToken(err: string)  // {"err": <the validator's error>}
  {
    function Key(): string
    {
      if MissingJwt? then "error" else "err"
    }
  }

  /**
    What the middleware does with the request: abort with a status and a
    body, or set "user" and "jwtToken" and pass it down the chain.
  */
  datatype AuthOutcome<U> =
    | Abort(status: int, body: ErrorBody)
    | Continue(user: U, jwtToken: string)

  function Authenticate<U>(authHeader: string, accessToken: string, validate: string -> Result<U, string>): (o: AuthOutcome<U>)
    ensures o.Abort? ==> o.status == Unauthorized
  {
    var token := ExtractToken(authHeader, accessToken);
    if token == "" then Abort(Unauthorized, MissingJwt)
    else match validate(token)
      case Err(e) => Abort(Unauthorized, InvalidToken(e))
      case Ok(user) => Continue(user, token)
  }

  // ---------------------------------------------------------------------
  // Properties
  // ---------------------------------------------------------------------

  lemma TrimPrefixOfConcat(p: string, t: string)
    ensures TrimPrefix(p + t, p) == t
  {
    assert (p + t)[..|p|] == p;
  }

  /** A non-empty header decides the token: the query parameter is not read. */
  lemma HeaderTakesPrecedence(authHeader: string, q1: string, q2: string)
    requires authHeader != ""
    ensures ExtractToken(authHeader, q1) == ExtractToken(authHeader, q2)
  {
  }

  /**
    From a non-empty header, exactly one leading "Bearer " is removed (a
    token that itself begins with "Bearer " keeps it), and a header without
    that prefix is the token unchanged.
  */
  lemma {:induction false} OneBearerRemoved(authHeader: string, accessToken: string, t: string)
    ensures ExtractToken(BearerPrefix + t, accessToken) == t
    ensures authHeader != "" && !HasPrefix(authHeader, BearerPrefix) ==> ExtractToken(authHeader, accessToken) == authHeader
    ensures authHeader != "" && HasPrefix(authHeader, BearerPrefix) ==>
      BearerPrefix + ExtractToken(authHeader, accessToken) == authHeader
  {
    TrimPrefixOfConcat(BearerPrefix, t);
  }

  /**
    The token is empty exactly when the header is exactly "Bearer ", or
    when both the header and the query parameter are empty.
  */
  lemma {:induction false} EmptyTokenExactly(authHeader: string, accessToken: string)
    ensures ExtractToken(authHeader, accessToken) == "" <==>
      authHeader == BearerPrefix || (authHeader == "" && accessToken == "")
  {
    var token := ExtractToken(authHeader, accessToken);
    if authHeader != "" && HasPrefix(authHeader, BearerPrefix) {
      assert authHeader == BearerPrefix + token;
    }
    if authHeader == BearerPrefix {
      TrimPrefixOfConcat(BearerPrefix, "");
      assert BearerPrefix + "" == BearerPrefix;
    }
  }

  /**
    The middleware continues exactly when the token is non-empty and the
    validator accepts it, and then with the validator's user and the
    extracted token; an empty token aborts with 401 "Missing JWT Token",
    and a rejected one with 401 and the validator's error.
  */
  lemma AuthenticateDecision<U>(authHeader: string, accessToken: string, validate: string -> Result<U, string>)
    ensures var o := Authenticate(authHeader, accessToken, validate);
      var token := ExtractToken(authHeader, accessToken);
      && (o.Continue? <==> token != "" && validate(token).Ok?)
      && (o.Continue? ==> o.user == validate(token).value && o.jwtToken == token)
      && (o.Abort? ==> o.status == Unauthorized)
      && (token == "" ==> o == Abort(Unauthorized, MissingJwt) && o.body.Key() == "error")
      && (token != "" && validate(token).Err? ==> o == Abort(Unauthorized, InvalidToken(validate(token).error)) && o.body.Key() == "err")
  {
  }

  /** A header of exactly "Bearer " is rejected as a missing token, whatever the query says. */
  lemma BareBearerIsMissing<U>(accessToken: string, validate: string -> Result<U, string>)
    ensures Authenticate(BearerPrefix, accessToken, validate) == Abort(Unauthorized, MissingJwt)
  {
    EmptyTokenExactly(BearerPrefix, accessToken);
  }
}
