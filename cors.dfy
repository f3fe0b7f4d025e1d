/**
 * The cross-origin policy of the API server (Back-end/server.js): which
 * `Origin` header values are let through, and the fixed lists of methods and
 * request headers the server advertises.
 */
module Cors {
  import opened Wrappers
  import opened Text

  const LocalhostOrigin := "http://localhost"
  const NotAllowedMessage := "Not allowed by CORS"

  /** The methods and request headers advertised to browsers; credentials are allowed. */
  const AllowedMethods: seq<string> := ["GET", "POST", "PUT", "DELETE", "OPTIONS"]
  const AllowedHeaders: seq<string> := ["Content-Type", "Authorization"]
  const AllowCredentials := true

  predicate IsDigit(c: char)
  {
    '0' <= c <= '9'
  }

  predicate AllDigits(s: string)
  {
    forall i :: 0 <= i < |s| ==> IsDigit(s[i])
  }

  /** `/^http:\/\/localhost(:\d+)?$/.test(origin)`, read left to right. */
  predicate MatchesLocalhost(origin: string)
  {
    && StartsWith(origin, LocalhostOrigin)
    && var rest := origin[|LocalhostOrigin|..];
       rest == "" || (rest[0] == ':' && |rest| > 1 && AllDigits(rest[1..]))
  }

  /** The outcome the `origin` callback reports to the CORS middleware. */
  datatype Decision = Allow | Deny(message: string)

  /** The `origin` callback: no (or an empty) origin is allowed, then the localhost test. */
  function OriginDecision(origin: Option<string>): Decision
  {
    if !Truthy(origin) then Allow
    else if MatchesLocalhost(origin.value) then Allow
    else Deny(NotAllowedMessage)
  }

  /** `http://localhost:<digits>`. */
  function WithPort(digits: string): string
  {
    LocalhostOrigin + ":" + digits
  }

  /**
   * The allowed origins are exactly: none at all, `http://localhost`, and
   * `http://localhost:` followed by one or more decimal digits; everything
   * else is refused with the fixed message.
   */
  lemma OriginDecisionIff(origin: Option<string>)
    ensures OriginDecision(origin) == Allow <==>
      || !Truthy(origin)
      || origin.value == LocalhostOrigin
      || exists d :: d != "" && AllDigits(d) && origin.value == WithPort(d)
    ensures OriginDecision(origin) != Allow ==> OriginDecision(origin) == Deny(NotAllowedMessage)
  {
    if Truthy(origin) {
      var o := origin.value;
      if MatchesLocalhost(o) && o != LocalhostOrigin {
        var rest := o[|LocalhostOrigin|..];
        var d := rest[1..];
        assert o == WithPort(d);
      }
      if exists d :: d != "" && AllDigits(d) && o == WithPort(d) {
        var d :| d != "" && AllDigits(d) && o == WithPort(d);
        assert o[|LocalhostOrigin|..] == ":" + d;
        assert MatchesLocalhost(o);
      }
    }
  }

  /** The origins a development front end runs on pass, whatever the port. */
  lemma LocalhostPortAllowed(d: string)
    requires d != "" && AllDigits(d)
    ensures OriginDecision(Some(WithPort(d))) == Allow
  {
    OriginDecisionIff(Some(WithPort(d)));
  }

  /** Anything that merely starts like an allowed origin is refused: https, other hosts, a '/', a bare ':'. */
  lemma LookalikesDenied()
    ensures OriginDecision(Some("https://localhost")) == Deny(NotAllowedMessage)
    ensures OriginDecision(Some("http://localhost/")) == Deny(NotAllowedMessage)
    ensures OriginDecision(Some("http://localhost:")) == Deny(NotAllowedMessage)
    ensures OriginDecision(Some("http://localhost:5173/")) == Deny(NotAllowedMessage)
    ensures OriginDecision(Some("http://localhost.example.com")) == Deny(NotAllowedMessage)
    ensures OriginDecision(Some("http://127.0.0.1:3000")) == Deny(NotAllowedMessage)
  {
    assert !StartsWith("https://localhost", LocalhostOrigin) by {
      assert "https://localhost"[4] != LocalhostOrigin[4];
    }
    assert !AllDigits("5173/") by { assert !IsDigit("5173/"[4]); }
    assert !StartsWith("http://127.0.0.1:3000", LocalhostOrigin) by {
      assert "http://127.0.0.1:3000"[7] != LocalhostOrigin[7];
    }
  }

  /** A request method the server advertises. */
  predicate MethodAllowed(m: string)
  {
    m in AllowedMethods
  }

  /** Only the five listed methods are advertised; PATCH, for one, is not. */
  lemma AllowedMethodsExact(m: string)
    ensures MethodAllowed(m) <==> m == "GET" || m == "POST" || m == "PUT" || m == "DELETE" || m == "OPTIONS"
    ensures !MethodAllowed("PATCH")
  {
  }
}
