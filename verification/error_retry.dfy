/**
  The error handler's bounded automatic retry (pkg/handler/error/error.go): a
  failing request is redirected to try again until a counter kept in a cookie
  has run out.
 */
module ErrorRetry {
  import opened Wrappers

  const MAX_AUTO_RETRY_ATTEMPTS: int := 3

  // The retry cookie a request carries; Garbage does not parse as a number.
  datatype RetryCookie = Missing | Garbage | Number(value: int)

  datatype Response = Redirect | ErrorResponse

  function RetryAttempts(c: RetryCookie): Option<int> {
    if c.Number? then Some(c.value) else None
  }

  function Incremented(c: RetryCookie): RetryCookie {
    Number(if RetryAttempts(c).Some? then RetryAttempts(c).value + 1 else 1)
  }

  // The decision looks at the cookie the request came with, not at the one just set.
  function Respond(c: RetryCookie): Response {
    var attempts := RetryAttempts(c);
    if attempts.None? || attempts.value < MAX_AUTO_RETRY_ATTEMPTS then Redirect else ErrorResponse
  }

  /** The user agent's cookie jar. */
  class CookieJar {
    var retry: RetryCookie

    constructor ()
      ensures retry == Missing
    {
      retry := Missing;
    }

    /** respondError for a request of this user agent. */
    method RespondError() returns (r: Response)
      modifies this
      ensures r == Respond(old(retry))
      ensures retry == Incremented(old(retry))
      ensures r.Redirect? ==> Allowance(retry) == Allowance(old(retry)) - 1
      ensures r.ErrorResponse? ==> Allowance(old(retry)) == Allowance(retry) == 0
    {
      var request := retry;
      var value := 1;
      if request.Number? {
        value := request.value + 1;
      }
      retry := Number(value);
      if !request.Number? || request.value < MAX_AUTO_RETRY_ATTEMPTS {
        return Redirect;
      }
      r := ErrorResponse;
    }
  }

  // How many more times a user agent with this cookie is redirected.
  function Allowance(c: RetryCookie): nat {
    if c.Number? then (if c.value < MAX_AUTO_RETRY_ATTEMPTS then MAX_AUTO_RETRY_ATTEMPTS - c.value else 0)
    else MAX_AUTO_RETRY_ATTEMPTS
  }

  // The cookie after n failing requests in a row by a user agent that returns its cookies.
  function CookieAfter(c: RetryCookie, n: nat): RetryCookie {
    if n == 0 then c else Incremented(CookieAfter(c, n - 1))
  }

  lemma {:induction false} AllowanceRunsOut(c: RetryCookie, n: nat)
    ensures Allowance(CookieAfter(c, n)) == if n < Allowance(c) then Allowance(c) - n else 0
    ensures n > 0 ==> CookieAfter(c, n).Number?
  {
    if n > 0 {
      AllowanceRunsOut(c, n - 1);
    }
  }

  /** Of any run of consecutive failures exactly the first Allowance(c) are redirected. */
  lemma RetriesEnd(c: RetryCookie, n: nat)
    ensures Respond(CookieAfter(c, n)).Redirect? <==> n < Allowance(c)
  {
    AllowanceRunsOut(c, n);
  }

  /** Starting without the cookie: three redirects, and errors from then on. */
  lemma ThreeRetriesThenErrors(n: nat)
    ensures Respond(CookieAfter(Missing, n)) == if n < 3 then Redirect else ErrorResponse
  {
    RetriesEnd(Missing, n);
  }
}
