/**
 * The `Set-Cookie` header values that start and end a session: the token
 * cookie, with a lifetime of one day and the Secure attribute in
 * production only, and the expired cookie that clears it.
 */
module SessionCookie {
  import opened Text

  /** Name of the cookie that carries the session token. */
  const SESSION_COOKIE := "nc_session"

  /** Token lifetime in seconds. */
  const TOKEN_MAX_AGE := 60 * 60 * 24

  lemma LifetimeIsOneDay()
    ensures TOKEN_MAX_AGE == 86400 && TOKEN_MAX_AGE / 3600 == 24
    ensures Decimal(TOKEN_MAX_AGE) == "86400"
  {
    assert Decimal(8) == "8" && Decimal(86) == "86" && Decimal(864) == "864";
    assert Decimal(8640) == "8640";
  }

  /** The attributes after the name=value pair, "Secure" last when asked for. */
  function Attributes(maxAge: string, secure: bool): (attrs: seq<string>)
    ensures |attrs| == if secure then 5 else 4
    ensures secure ==> attrs[4] == "Secure"
  {
    ["Path=/", "Max-Age=" + maxAge, "HttpOnly", "SameSite=Lax"] + (if secure then ["Secure"] else [])
  }

  /** The parts a cookie header joins with "; ": the name=value pair, then the attributes. */
  function CookieParts(value: string, maxAge: string, secure: bool): (parts: seq<string>)
    ensures |parts| >= 5 && parts[0] == SESSION_COOKIE + "=" + value
  {
    [SESSION_COOKIE + "=" + value] + Attributes(maxAge, secure)
  }

  /** The attributes as they read back after splitting a header at ';': each with its leading space. */
  function AttributeTexts(maxAge: string, secure: bool): seq<string>
  {
    [" Path=/", " Max-Age=" + maxAge, " HttpOnly", " SameSite=Lax"] + (if secure then [" Secure"] else [])
  }

  lemma SpacedAttributes(maxAge: string, secure: bool)
    ensures Spaced(Attributes(maxAge, secure)) == AttributeTexts(maxAge, secure)
  {
    var texts := AttributeTexts(maxAge, secure);
    var attrs := Attributes(maxAge, secure);
    assert texts[0] == " " + attrs[0] && texts[2] == " " + attrs[2] && texts[3] == " " + attrs[3];
    assert texts[1] == " " + ("Max-Age=" + maxAge) == " " + attrs[1];
    assert secure ==> texts[4] == " " + attrs[4];
  }

  /** Exactly the secure attribute list carries " Secure". */
  lemma SecureAttribute(maxAge: string, secure: bool)
    ensures " Secure" in AttributeTexts(maxAge, secure) <==> secure
  {
    var texts := AttributeTexts(maxAge, secure);
    if secure {
      assert texts[4] == " Secure";
    } else {
      assert texts[1][1] == 'M';
      assert texts[0] != " Secure" && texts[1] != " Secure";
      assert texts[2] != " Secure" && texts[3] != " Secure";
    }
  }

  /**
   * `buildSessionCookie(token)`: the token cookie, "Secure" pushed last when
   * NODE_ENV is "production". Read back at ';', it gives the pair and then
   * each attribute.
   */
  function BuildSessionCookie(token: string, nodeEnv: string): (cookie: string)
    ensures ';' !in token ==>
              Split(cookie, ';') == [SESSION_COOKIE + "=" + token] + AttributeTexts("86400", nodeEnv == "production")
  {
    LifetimeIsOneDay();
    CookieSplit(token, "86400", nodeEnv == "production");
    Join(CookieParts(token, Decimal(TOKEN_MAX_AGE), nodeEnv == "production"), "; ")
  }

  /** A header joined from parts free of ';' splits back into the pair and the attributes. */
  lemma CookieSplit(value: string, maxAge: string, secure: bool)
    ensures ';' !in value && ';' !in maxAge ==>
              Split(Join(CookieParts(value, maxAge, secure), "; "), ';')
              == [SESSION_COOKIE + "=" + value] + AttributeTexts(maxAge, secure)
  {
    if ';' in value || ';' in maxAge {
      return;
    }
    var pair := SESSION_COOKIE + "=" + value;
    var attrs := Attributes(maxAge, secure);
    assert ';' !in SESSION_COOKIE + "=";
    assert ';' !in pair;
    assert ';' !in "Max-Age=" + maxAge;
    JoinSpaced(pair, attrs);
    var spaced := [pair] + Spaced(attrs);
    forall k | 0 <= k < |spaced|
      ensures ';' !in spaced[k]
    {
      if k > 0 {
        assert spaced[k] == " " + attrs[k - 1];
      }
    }
    SplitJoin(spaced, ';');
    SpacedAttributes(maxAge, secure);
  }

  /** The session cookie carries "Secure" exactly in production. */
  lemma SecureOnlyInProduction(token: string, nodeEnv: string)
    requires ';' !in token
    ensures " Secure" in Split(BuildSessionCookie(token, nodeEnv), ';') <==> nodeEnv == "production"
  {
    var pair := SESSION_COOKIE + "=" + token;
    var texts := AttributeTexts("86400", nodeEnv == "production");
    SecureAttribute("86400", nodeEnv == "production");
    assert pair[0] == 'n';
    assert (" Secure" in [pair] + texts) == (" Secure" in texts);
  }

  /**
   * `buildLogoutCookie()`: the session cookie's header shape with an empty
   * value, a lifetime of zero and no "Secure", whatever the environment.
   */
  function BuildLogoutCookie(): (cookie: string)
    ensures Split(cookie, ';') == [SESSION_COOKIE + "="] + AttributeTexts("0", false)
    ensures " Secure" !in Split(cookie, ';')
  {
    CookieSplit("", "0", false);
    SecureAttribute("0", false);
    assert SESSION_COOKIE + "=" + "" == SESSION_COOKIE + "=";
    assert (SESSION_COOKIE + "=")[0] == 'n';
    Join(CookieParts("", "0", false), "; ")
  }
}
