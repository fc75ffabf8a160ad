/**
 * The Twitter authentication plugin: the account-status gate the host's
 * authentication dispatcher calls (`onUserAuthenticate`), and the end of
 * the OAuth callback (`onOauthAuthorize`) that logs the Twitter account in
 * and keeps its access token on the local user record.
 */
module TwitterAuthentication {
  import opened Php
  import opened Users
  import opened Credentials

  /** The only action the gate acts on. */
  const SITE_LOGIN := "core.login.site"
  const ACTION_KEY := "action"

  /** The language keys of the two failure messages. */
  const NO_USER_MESSAGE := "JGLOBAL_AUTH_NO_USER"
  const ACCESS_DENIED_MESSAGE := "JGLOBAL_AUTH_ACCESS_DENIED"

  /** The user parameters that hold the Twitter access token. */
  const TOKEN_KEY_PARAM := "twitter.token.key"
  const TOKEN_SECRET_PARAM := "twitter.token.secret"

  /** The statuses of the host's authentication response; the plugin sets only Success and Failure. */
  datatype Status = Success | Cancel | Failure | Expired | Denied | Unknown

  /** The fields of an authentication response the plugin touches. */
  datatype ResponseState = ResponseState(
    authType: string,
    status: Status,
    errorMessage: string,
    email: Option<string>,
    fullname: Option<string>,
    username: Option<string>)

  /** The outcome of the gate, one per branch of `onUserAuthenticate`. */
  datatype Verdict = Ignored | MissingCredential | AccountDenied | Granted

  /** The options name the site-login action (twitter.php:39); a missing action is not a site login. */
  predicate IsSiteLogin(options: map<string, string>)
    ensures IsSiteLogin(options) <==> ACTION_KEY in options && options[ACTION_KEY] == SITE_LOGIN
  {
    GetValue(options, ACTION_KEY) == Some(SITE_LOGIN)
  }

  /**
   * The branch `onUserAuthenticate` takes (twitter.php:39-58): ignored
   * outside a site login, then a missing username, then a barred account,
   * and granted exactly when none of these holds.
   */
  function Decide(credentials: map<string, string>, options: map<string, string>, accounts: map<string, User>): (v: Verdict)
    ensures v == Ignored <==> !IsSiteLogin(options)
    ensures v == MissingCredential <==> IsSiteLogin(options) && FalsyString(GetValue(credentials, USERNAME_KEY))
    ensures v == AccountDenied <==>
      IsSiteLogin(options) && USERNAME_KEY in credentials && !FalsyString(GetValue(credentials, USERNAME_KEY))
      && Barred(Lookup(accounts, credentials[USERNAME_KEY]))
    ensures v == Granted <==>
      IsSiteLogin(options) && USERNAME_KEY in credentials && !FalsyString(GetValue(credentials, USERNAME_KEY))
      && !Barred(Lookup(accounts, credentials[USERNAME_KEY]))
  {
    if !IsSiteLogin(options) then Ignored
    else if FalsyString(GetValue(credentials, USERNAME_KEY)) then MissingCredential
    else if Barred(Lookup(accounts, credentials[USERNAME_KEY])) then AccountDenied
    else Granted
  }

  /**
   * The response after `onUserAuthenticate`: the plugin's name always
   * stamped as its type; outside a site login nothing else; a falsy
   * username or a blocked or unactivated account a failure with its
   * message and the identity fields kept; otherwise a success carrying the
   * credentials exactly (a missing entry becomes null).
   */
  function Respond(pluginName: string, credentials: map<string, string>, options: map<string, string>,
                   accounts: map<string, User>, before: ResponseState): (after: ResponseState)
    ensures after.authType == pluginName
    ensures !IsSiteLogin(options) ==> after == before.(authType := pluginName)
    ensures IsSiteLogin(options) && FalsyString(GetValue(credentials, USERNAME_KEY)) ==>
      after == before.(authType := pluginName, status := Failure, errorMessage := NO_USER_MESSAGE)
    ensures IsSiteLogin(options) && !FalsyString(GetValue(credentials, USERNAME_KEY))
            && Barred(Lookup(accounts, credentials[USERNAME_KEY])) ==>
      after == before.(authType := pluginName, status := Failure, errorMessage := ACCESS_DENIED_MESSAGE)
    ensures IsSiteLogin(options) && !FalsyString(GetValue(credentials, USERNAME_KEY))
            && !Barred(Lookup(accounts, credentials[USERNAME_KEY])) ==>
      after == ResponseState(pluginName, Success, "", GetValue(credentials, EMAIL_KEY),
                             GetValue(credentials, NAME_KEY), GetValue(credentials, USERNAME_KEY))
  {
    var stamped := before.(authType := pluginName);
    match Decide(credentials, options, accounts)
    case Ignored => stamped
    case MissingCredential => stamped.(status := Failure, errorMessage := NO_USER_MESSAGE)
    case AccountDenied => stamped.(status := Failure, errorMessage := ACCESS_DENIED_MESSAGE)
    case Granted =>
      stamped.(email := GetValue(credentials, EMAIL_KEY),
               fullname := GetValue(credentials, NAME_KEY),
               username := GetValue(credentials, USERNAME_KEY),
               status := Success, errorMessage := "")
  }

  /** What `onUserAuthenticate` returns: `false` for a missing username, PHP's null on every other path. */
  function Returned(v: Verdict): (r: Option<bool>)
    ensures r == Some(false) <==> v == MissingCredential
    ensures r != Some(false) ==> r == None
  {
    if v == MissingCredential then Some(false) else None
  }

  /** In a site login the response reports success exactly when the username is truthy and its account may log in. */
  lemma SiteLoginSucceedsIff(pluginName: string, credentials: map<string, string>, options: map<string, string>,
                             accounts: map<string, User>, before: ResponseState)
    requires IsSiteLogin(options)
    ensures var after := Respond(pluginName, credentials, options, accounts, before);
      (after.status == Success <==>
        !FalsyString(GetValue(credentials, USERNAME_KEY)) && !Barred(Lookup(accounts, credentials[USERNAME_KEY])))
      && (after.status == Success <==> after.errorMessage == "")
  {
  }

  /** A site login's status and message do not depend on what the response held before. */
  lemma SiteLoginIgnoresPriorStatus(pluginName: string, credentials: map<string, string>, options: map<string, string>,
                                    accounts: map<string, User>, b1: ResponseState, b2: ResponseState)
    requires IsSiteLogin(options)
    ensures Respond(pluginName, credentials, options, accounts, b1).status
         == Respond(pluginName, credentials, options, accounts, b2).status
    ensures Respond(pluginName, credentials, options, accounts, b1).errorMessage
         == Respond(pluginName, credentials, options, accounts, b2).errorMessage
  {
  }

  /** Dispatching the same attempt twice leaves the response as one dispatch does. */
  lemma RespondIdempotent(pluginName: string, credentials: map<string, string>, options: map<string, string>,
                          accounts: map<string, User>, before: ResponseState)
    ensures var once := Respond(pluginName, credentials, options, accounts, before);
      Respond(pluginName, credentials, options, accounts, once) == once
  {
  }

  /**
   * The credentials `onOauthAuthorize` hands to the host log-in, when the
   * host dispatches them back to the gate for a site login, are never
   * rejected as missing, and are granted exactly when the namespaced
   * account may log in, the response then naming that account.
   */
  lemma {:induction false} DerivedCredentialsGate(pluginName: string, settings: Settings, options: map<string, string>,
                                                  accounts: map<string, User>, before: ResponseState)
    requires IsSiteLogin(options)
    ensures var u := Username(pluginName, settings.screenName);
      var after := Respond(pluginName, Derive(pluginName, settings), options, accounts, before);
      && after.errorMessage != NO_USER_MESSAGE
      && (after.status == Success <==> !Barred(Lookup(accounts, u)))
      && (after.status == Success ==> after.username == Some(u) && after.fullname == Some(settings.screenName)
                                       && after.email == Some(Email(settings)))
  {
    var c := Derive(pluginName, settings);
    var u := Username(pluginName, settings.screenName);
    UsernameOfScreenName(pluginName, c[USERNAME_KEY], settings.screenName);
    assert c[USERNAME_KEY] == u;
  }

  /** The account after `setParam` of both token parts. */
  function WithToken(u: User, token: map<string, string>): (r: User)
    ensures r.block == u.block && r.activation == u.activation
    ensures r.params.Keys == u.params.Keys + {TOKEN_KEY_PARAM, TOKEN_SECRET_PARAM}
    ensures r.params[TOKEN_KEY_PARAM] == GetValue(token, "key")
    ensures r.params[TOKEN_SECRET_PARAM] == GetValue(token, "secret")
    ensures forall k :: k in u.params && k != TOKEN_KEY_PARAM && k != TOKEN_SECRET_PARAM ==> r.params[k] == u.params[k]
  {
    SetParam(SetParam(u, TOKEN_KEY_PARAM, GetValue(token, "key")), TOKEN_SECRET_PARAM, GetValue(token, "secret"))
  }

  /**
   * The user table after the token is saved for `username`: that account,
   * if it exists, carries the token and is otherwise as it was; every
   * other account is untouched.
   */
  function StoreToken(accounts: map<string, User>, username: string, token: map<string, string>): (after: map<string, User>)
    ensures after.Keys == accounts.Keys
    ensures forall other :: other in accounts && other != username ==> after[other] == accounts[other]
    ensures username in accounts ==> after[username] == WithToken(accounts[username], token)
    ensures username !in accounts ==> after == accounts
  {
    if username in accounts then accounts[username := WithToken(accounts[username], token)] else accounts
  }

  /** Saving the same token twice leaves the table as saving it once. */
  lemma {:induction false} StoreTokenIdempotent(accounts: map<string, User>, username: string, token: map<string, string>)
    ensures StoreToken(StoreToken(accounts, username, token), username, token) == StoreToken(accounts, username, token)
  {
    if username in accounts {
      var u := accounts[username];
      var once := WithToken(u, token);
      var twice := WithToken(once, token);
      assert twice.params == once.params;
      assert twice == once;
    }
  }

  /** Logging in one Twitter account never changes the local record of another. */
  lemma {:induction false} StoreTokenIsolatesAccounts(pluginName: string, a: string, b: string,
                                                      accounts: map<string, User>, token: map<string, string>)
    requires a != b
    requires Username(pluginName, b) in accounts
    ensures StoreToken(accounts, Username(pluginName, a), token)[Username(pluginName, b)] == accounts[Username(pluginName, b)]
  {
    if Username(pluginName, a) == Username(pluginName, b) {
      UsernameInjective(pluginName, a, b);
    }
  }

  /** The response object the host passes by reference. */
  class Response {
    var authType: string
    var status: Status
    var errorMessage: string
    var email: Option<string>
    var fullname: Option<string>
    var username: Option<string>

    constructor (s: ResponseState)
      ensures State() == s
    {
      authType, status, errorMessage := s.authType, s.status, s.errorMessage;
      email, fullname, username := s.email, s.fullname, s.username;
    }

    function State(): ResponseState
      reads this
    {
      ResponseState(authType, status, errorMessage, email, fullname, username)
    }
  }

  class TwitterPlugin {
    /** The plugin's element name, which the host assigns. */
    const name: string

    constructor (name: string)
      ensures this.name == name
    {
      this.name := name;
    }

    /** The account-status gate (twitter.php:35-67), updating the response the host passes by reference. */
    method OnUserAuthenticate(credentials: map<string, string>, options: map<string, string>,
                              response: Response, store: UserStore) returns (r: Option<bool>)
      modifies response
      ensures response.State() == Respond(name, credentials, options, store.accounts, old(response.State()))
      ensures r == Returned(Decide(credentials, options, store.accounts))
    {
      response.authType := name;

      if GetValue(options, ACTION_KEY) == Some(SITE_LOGIN) {
        var username := GetValue(credentials, USERNAME_KEY);
        var fullname := GetValue(credentials, NAME_KEY);
        var email := GetValue(credentials, EMAIL_KEY);

        if FalsyString(username) {
          response.status := Failure;
          response.errorMessage := NO_USER_MESSAGE;
          return Some(false);
        }

        // The user object is always truthy (twitter.php:51), so the account check always runs.
        var user := Lookup(store.accounts, username.value);
        if Barred(user) {
          response.status := Failure;
          response.errorMessage := ACCESS_DENIED_MESSAGE;
          return None;
        }

        response.email := email;
        response.fullname := fullname;
        response.username := username;

        response.status := Success;
        response.errorMessage := "";
      }
      return None;
    }

    /**
     * The end of `onOauthAuthorize`, after the handshake: log in with the
     * credentials derived from the profile settings, and only when the
     * host log-in returns exactly `true` keep the access token on the
     * account.
     */
    method OnOauthAuthorize(token: map<string, string>, settings: Settings,
                            login: map<string, string> -> Value, store: UserStore) returns (ok: bool)
      modifies store
      ensures ok <==> IsStrictlyTrue(login(Derive(name, settings)))
      ensures ok ==> store.accounts == StoreToken(old(store.accounts), Username(name, settings.screenName), token)
      ensures !ok ==> store.accounts == old(store.accounts)
    {
      var credentials := Derive(name, settings);
      UsernameOfScreenName(name, credentials[USERNAME_KEY], settings.screenName);

      // Strict comparison: a truthy result other than `true` is a failure.
      var result := login(credentials);
      if result == Bool(true) {
        var username := credentials[USERNAME_KEY];
        var user := Lookup(store.accounts, username);
        user := SetParam(user, TOKEN_KEY_PARAM, GetValue(token, "key"));
        user := SetParam(user, TOKEN_SECRET_PARAM, GetValue(token, "secret"));
        store.Save(username, user);
        return true;
      } else {
        return false;
      }
    }
  }
}
