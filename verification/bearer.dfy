/**
 * `GetCurrentUserService`: the bearer token of a request's `Authorization`
 * header, and the user id (`sub`) of the token's verified payload. Every
 * refusal is an `HTTPException` with status 401 and a fixed detail.
 */
module BearerAuth {
  import opened Wrappers
  import opened PyText
  import opened PyValues
  import opened Errors

  const HTTP_401_UNAUTHORIZED := 401

  /** `HTTPException(status_code=401, detail=detail)`. */
  function Unauthorized(detail: string): Exc {
    ForeignExc(HTTPException(HTTP_401_UNAUTHORIZED), detail)
  }

  /**
   * `extract_bearer_token`: `header` is `request.headers.get("Authorization")`.
   * The header must split on whitespace into exactly a scheme and a token,
   * and the scheme must read `bearer` in any case.
   */
  function ExtractBearerToken(header: Option<string>): (r: Result<string, Exc>)
    ensures header.None? || header == Some("") ==> r == Failure(Unauthorized("Missing Authorization header"))
    ensures header.Some? && header.value != "" && |SplitWs(header.value)| != 2 ==>
      r == Failure(Unauthorized("Invalid Authorization header format"))
    ensures header.Some? && |SplitWs(header.value)| == 2 && Lower(SplitWs(header.value)[0]) != "bearer" ==>
      r == Failure(Unauthorized("Invalid authentication scheme"))
    ensures r.Success? <==>
      header.Some? && |SplitWs(header.value)| == 2 && Lower(SplitWs(header.value)[0]) == "bearer"
    // the token is the second word: never empty, never holding whitespace
    ensures r.Success? ==> r.value == SplitWs(header.value)[1] && r.value != [] && NoSpace(r.value)
  {
    if header.None? || header.value == "" then Failure(Unauthorized("Missing Authorization header"))
    else
      var parts := SplitWs(header.value);
      if |parts| != 2 then Failure(Unauthorized("Invalid Authorization header format"))
      else if Lower(parts[0]) != "bearer" then Failure(Unauthorized("Invalid authentication scheme"))
      else if parts[1] == [] then Failure(Unauthorized("Empty token"))
      else Success(parts[1])
  }

  /** The `Empty token` refusal is never raised: `split()` yields no empty word. */
  lemma {:induction false} EmptyTokenNeverRaised(header: Option<string>)
    ensures ExtractBearerToken(header) != Failure(Unauthorized("Empty token"))
  {
    if header.Some? && header.value != "" {
      var parts := SplitWs(header.value);
      if |parts| == 2 {
        assert parts[1] != [];
      }
    }
  }

  /** Any spelling of the scheme, any run of whitespace, and the token comes back as it was sent. */
  lemma {:induction false} BearerTokenRoundTrip(scheme: string, gap: string, token: string)
    requires scheme != [] && NoSpace(scheme) && Lower(scheme) == "bearer"
    requires gap != [] && AllSpace(gap)
    requires token != [] && NoSpace(token)
    ensures ExtractBearerToken(Some(scheme + gap + token)) == Success(token)
  {
    SplitWsTwoWords(scheme, gap, token);
  }

  /** Leading and trailing whitespace around the two words is ignored, as `split()` ignores it. */
  lemma {:induction false} PaddingIgnored(lead: string, scheme: string, gap: string, token: string, trail: string)
    requires AllSpace(lead) && AllSpace(trail)
    requires scheme != [] && NoSpace(scheme) && Lower(scheme) == "bearer"
    requires gap != [] && AllSpace(gap)
    requires token != [] && NoSpace(token)
    ensures ExtractBearerToken(Some(lead + (scheme + (gap + (token + trail))))) == Success(token)
  {
    var header := lead + (scheme + (gap + (token + trail)));
    WordThenSpace(token, trail);
    WordsAfterWord(scheme, gap, token + trail);
    SplitWsSkip(lead, scheme + (gap + (token + trail)));
    PairOfWords(scheme, token);
    TokenOfTwoWords(header, scheme, token);
  }

  /** A header that splits into a `bearer` scheme and a token yields that token. */
  lemma {:induction false} TokenOfTwoWords(header: string, scheme: string, token: string)
    requires header != "" && SplitWs(header) == [scheme, token] && Lower(scheme) == "bearer"
    ensures ExtractBearerToken(Some(header)) == Success(token)
  {
  }

  /** One word, then whitespace only. */
  lemma {:induction false} WordThenSpace(w: string, trail: string)
    requires w != [] && NoSpace(w) && AllSpace(trail)
    ensures SplitWs(w + trail) == [w]
    ensures (w + trail)[0] == w[0]
  {
    SplitWsCons(w, trail);
    SplitWsTrailing(trail);
  }

  /** A word, whitespace, then text that starts with a word. */
  lemma {:induction false} WordsAfterWord(a: string, gap: string, tail: string)
    requires a != [] && NoSpace(a) && gap != [] && AllSpace(gap)
    requires tail != [] && !IsSpace(tail[0])
    ensures SplitWs(a + (gap + tail)) == [a] + SplitWs(tail)
    ensures (a + (gap + tail))[0] == a[0]
  {
    assert (gap + tail)[0] == gap[0];
    SplitWsCons(a, gap + tail);
    SplitWsSkip(gap, tail);
  }

  /** Whitespace alone splits into nothing. */
  lemma {:induction false} SplitWsTrailing(trail: string)
    requires AllSpace(trail)
    ensures SplitWs(trail) == []
  {
    assert trail + [] == trail;
    SplitWsSkip(trail, []);
  }

  /** A header that is a bare token, with no scheme, has the wrong format. */
  lemma {:induction false} BareTokenRefused(token: string)
    requires token != [] && NoSpace(token)
    ensures ExtractBearerToken(Some(token)) == Failure(Unauthorized("Invalid Authorization header format"))
  {
    SplitWsWord(token);
  }

  /** Two words whose first is any other scheme are refused for the scheme. */
  lemma {:induction false} OtherSchemeRefused(scheme: string, gap: string, token: string)
    requires scheme != [] && NoSpace(scheme) && Lower(scheme) != "bearer"
    requires gap != [] && AllSpace(gap)
    requires token != [] && NoSpace(token)
    ensures ExtractBearerToken(Some(scheme + gap + token)) == Failure(Unauthorized("Invalid authentication scheme"))
  {
    SplitWsTwoWords(scheme, gap, token);
  }

  /** `payload.get("sub")`, refused when it is missing or falsy. */
  function Subject(payload: map<string, PyValue>): (r: Result<PyValue, Exc>)
    ensures r.Success? <==> "sub" in payload && Truthy(payload["sub"])
    ensures r.Success? ==> r.value == payload["sub"]
    ensures r.Failure? ==> r.error == Unauthorized("Invalid token payload")
  {
    var userId := if "sub" in payload then payload["sub"] else PyNone;
    if !Truthy(userId) then Failure(Unauthorized("Invalid token payload")) else Success(userId)
  }

  /**
   * `get_current_user_id`: the token, then its payload as `verify` (the
   * JWT service's `verify_access_token`) returns it or the error it raises,
   * then its subject.
   */
  function CurrentUserId(header: Option<string>, verify: string -> Result<map<string, PyValue>, Exc>): (r: Result<PyValue, Exc>)
  {
    var token :- ExtractBearerToken(header);
    var payload :- verify(token);
    Subject(payload)
  }

  /** The user id is found exactly when all three steps succeed, and it is the payload's `sub`. */
  lemma {:induction false} CurrentUserIdSteps(header: Option<string>, verify: string -> Result<map<string, PyValue>, Exc>)
    ensures ExtractBearerToken(header).Failure? ==> CurrentUserId(header, verify) == Failure(ExtractBearerToken(header).error)
    ensures ExtractBearerToken(header).Success? && verify(ExtractBearerToken(header).value).Failure? ==>
      CurrentUserId(header, verify) == Failure(verify(ExtractBearerToken(header).value).error)
    ensures ExtractBearerToken(header).Success? && verify(ExtractBearerToken(header).value).Success? ==>
      CurrentUserId(header, verify) == Subject(verify(ExtractBearerToken(header).value).value)
    ensures CurrentUserId(header, verify).Success? ==> Truthy(CurrentUserId(header, verify).value)
  {
  }

  /** Without an `Authorization` header the JWT service is never consulted: the refusal is the header's. */
  lemma {:induction false} MissingHeaderRefusedFirst(verify: string -> Result<map<string, PyValue>, Exc>)
    ensures CurrentUserId(None, verify) == Failure(Unauthorized("Missing Authorization header"))
  {
  }
}
