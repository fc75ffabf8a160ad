/**
 * The log-in credentials `onOauthAuthorize` builds from the Twitter
 * profile: a username namespaced by the plugin's name, the screen name as
 * the display name, and the profile email or a placeholder address.
 */
module Credentials {
  import opened Php

  const USERNAME_KEY := "username"
  const NAME_KEY := "name"
  const EMAIL_KEY := "email"

  /** Domain of the placeholder address used when the profile has no email. */
  const PLACEHOLDER_DOMAIN := "@twitter.com"

  /** The part of the Twitter account settings the plugin reads; `email` is null when not set. */
  datatype Settings = Settings(screenName: string, email: Option<string>)

  /** The namespaced username (twitter.php:107): the plugin's name, a slash, then the screen name. */
  function Username(pluginName: string, screenName: string): (u: string)
    ensures |u| == |pluginName| + 1 + |screenName|
    ensures u[..|pluginName|] == pluginName
    ensures u[|pluginName|] == '/'
    ensures u[|pluginName| + 1..] == screenName
  {
    pluginName + "/" + screenName
  }

  /** The screen name a namespaced username was built from, or None when it does not carry the plugin's prefix. */
  function ScreenNameOf(pluginName: string, username: string): Option<string>
  {
    if |pluginName| < |username| && username[..|pluginName|] == pluginName && username[|pluginName|] == '/'
    then Some(username[|pluginName| + 1..])
    else None
  }

  /** Decoding a derived username gives back the screen name. */
  lemma {:induction false} ScreenNameOfUsername(pluginName: string, screenName: string)
    ensures ScreenNameOf(pluginName, Username(pluginName, screenName)) == Some(screenName)
  {
    var u := Username(pluginName, screenName);
    assert |pluginName| < |u|;
  }

  /** Every username that decodes to a screen name is the one derived from it. */
  lemma {:induction false} UsernameOfScreenName(pluginName: string, username: string, screenName: string)
    requires ScreenNameOf(pluginName, username) == Some(screenName)
    ensures Username(pluginName, screenName) == username
  {
    var n := |pluginName|;
    assert username == username[..n] + [username[n]] + username[n + 1..];
  }

  /** Two Twitter accounts never share a local username. */
  lemma {:induction false} UsernameInjective(pluginName: string, a: string, b: string)
    requires Username(pluginName, a) == Username(pluginName, b)
    ensures a == b
  {
    ScreenNameOfUsername(pluginName, a);
    ScreenNameOfUsername(pluginName, b);
  }

  /** The derived username is truthy, so the account-status gate never rejects it as missing. */
  lemma {:induction false} UsernameTruthy(pluginName: string, screenName: string)
    ensures !FalsyString(Some(Username(pluginName, screenName)))
  {
    var u := Username(pluginName, screenName);
    assert u[|pluginName|] == '/';
  }

  /** The log-in email (twitter.php:110-115): the profile's email when set, otherwise a placeholder built from the screen name. */
  function Email(settings: Settings): (e: string)
    ensures settings.email.Some? ==> e == settings.email.value
    ensures settings.email.None? ==> |e| == |settings.screenName| + |PLACEHOLDER_DOMAIN|
    ensures settings.email.None? ==> e[..|settings.screenName|] == settings.screenName
    ensures settings.email.None? ==> e[|settings.screenName|..] == PLACEHOLDER_DOMAIN
  {
    match settings.email
    case Some(address) => address
    case None => settings.screenName + PLACEHOLDER_DOMAIN
  }

  /** The credentials array passed to the host's log-in routine. */
  function Derive(pluginName: string, settings: Settings): (c: map<string, string>)
    ensures c.Keys == {USERNAME_KEY, NAME_KEY, EMAIL_KEY}
    ensures ScreenNameOf(pluginName, c[USERNAME_KEY]) == Some(settings.screenName)
    ensures c[NAME_KEY] == settings.screenName
    ensures c[EMAIL_KEY] == Email(settings)
    ensures !FalsyString(GetValue(c, USERNAME_KEY))
  {
    ScreenNameOfUsername(pluginName, settings.screenName);
    UsernameTruthy(pluginName, settings.screenName);
    map[USERNAME_KEY := Username(pluginName, settings.screenName),
        NAME_KEY := settings.screenName,
        EMAIL_KEY := Email(settings)]
  }
}
