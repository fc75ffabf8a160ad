# Twitter authentication plugin for Joomla — a Dafny model

`PlgAuthenticationTwitter` lets a visitor log in to a Joomla site with a
Twitter account. Everything it does is wired to the OAuth library or the
host framework, except for two pieces of decision logic. This project models
those two pieces and proves what they promise:

- **The account-status gate** (`onUserAuthenticate`). The host's authentication
  dispatcher calls it with the credentials, the options and a response object
  passed by reference. The gate always stamps its own name as the response's
  type. It acts only for the `core.login.site` action. There it rejects a falsy
  username with `JGLOBAL_AUTH_NO_USER`. It then rejects a blocked account, or one
  still waiting for activation, with `JGLOBAL_AUTH_ACCESS_DENIED`. Otherwise it
  copies email, name and username into the response and reports success.
- **The end of the OAuth callback** (`onOauthAuthorize`). It derives log-in
  credentials from the Twitter profile:
  - the username is `<plugin name>/<screen name>`;
  - the name is the screen name;
  - the email is the profile's email, or `<screen name>@twitter.com` when the profile has none.

  It then calls the host's log-in routine. Only when that routine returns
  exactly `true` does it write the access token's key and secret as the user
  parameters `twitter.token.key` and `twitter.token.secret`, save the account
  and return true. Any other result returns false and leaves the accounts
  untouched.

Layout:

- `php.dfy` (module `Php`): PHP null, array lookup, truthiness and `===`.
- `users.dfy` (module `Users`): local accounts, the lookup by username, and the
  user table as a class whose `Save` updates the map.
- `credentials.dfy` (module `Credentials`): the pure credential derivation. It
  also holds the inverse that recovers the screen name, and injectivity.
- `twitter.dfy` (module `TwitterAuthentication`): the response object and the
  plugin as classes. Each method is proved against a specification function,
  and the specification functions carry the properties.

Two details of the code worth knowing:

- On the access-denied path the code sets FAILURE (twitter.php:53) before a bare
  `return` (line 56). So both rejection paths set FAILURE. They differ in the
  message and in the return value: PHP's null (line 56) instead of `false` (line 48).
- The placeholder email is `<screen name>@twitter.com` (line 114).

## Model

| member | source | states |
|---|---|---|
| `Php.GetValue` | plugins/authentication/twitter/twitter.php:40-42 | the lookup yields a value exactly when the key is present, and then the stored entry; a missing key yields null |
| `Php.FalsyString` | plugins/authentication/twitter/twitter.php:44 | only null, `''` and `'0'` are false: a false string has at most one character, and a one-character string is false exactly when it is `'0'` |
| `Php.IsStrictlyTrue` | plugins/authentication/twitter/twitter.php:122 | passes exactly for the boolean true; null, any integer and any string fail |
| `Users.Barred` | plugins/authentication/twitter/twitter.php:52 | an account may not log in exactly when its block flag is non-zero or its activation is neither null, `''` nor `'0'` |
| `TwitterAuthentication.IsSiteLogin` | plugins/authentication/twitter/twitter.php:39 | the gate acts exactly when the options hold an action entry equal to `core.login.site`; a missing action does not count |
| `TwitterAuthentication.Decide` | plugins/authentication/twitter/twitter.php:39-58 | each branch is characterised both ways: ignored exactly outside a site login; missing credential exactly for a falsy username; access denied exactly for a truthy username whose account is barred; granted exactly for a truthy username whose account is not barred |
| `Users.Lookup` | plugins/authentication/twitter/twitter.php:51 | a known username yields its own account; an unknown one yields the guest object (id 0), which is neither blocked nor pending activation and has no parameters |
| `Users.SetParam` | plugins/authentication/twitter/twitter.php:124-125 | the parameter is set to the given value (null when the token lacks that part), every other parameter and the status fields are kept |
| `Users.UserStore.Save` | plugins/authentication/twitter/twitter.php:126 | an existing account is overwritten with the new record; for an unknown name (the empty guest object) the table is unchanged |
| `Credentials.Username` | plugins/authentication/twitter/twitter.php:107 | the username is the plugin name, then `/`, then the screen name, position by position |
| `Credentials.ScreenNameOfUsername` | plugins/authentication/twitter/twitter.php:107 | decoding a derived username gives back the screen name it was built from |
| `Credentials.UsernameOfScreenName` | plugins/authentication/twitter/twitter.php:107 | any username that decodes to a screen name is exactly the username derived from it (the other direction of the round trip) |
| `Credentials.UsernameInjective` | plugins/authentication/twitter/twitter.php:107 | distinct screen names give distinct local usernames, so two Twitter accounts never share a local record |
| `Credentials.UsernameTruthy` | plugins/authentication/twitter/twitter.php:107 | a derived username is never null, `''` or `'0'`, so the gate's missing-username check (line 44) can never reject it |
| `Credentials.Email` | plugins/authentication/twitter/twitter.php:110-115 | a set profile email is passed through unchanged; without one, the address is the screen name followed by `@twitter.com` |
| `Credentials.Derive` | plugins/authentication/twitter/twitter.php:106-115 | the credentials array has exactly the keys username, name and email; its username decodes to the screen name and is truthy; the name is the screen name; the email is the profile email or the placeholder |
| `TwitterAuthentication.Respond` | plugins/authentication/twitter/twitter.php:35-67 | the type is always the plugin name. Outside `core.login.site` nothing else changes. A falsy username gives FAILURE with the no-user message, other fields kept. A blocked or unactivated account gives FAILURE with the access-denied message, other fields kept. Otherwise SUCCESS, an empty message, and email, fullname and username exactly the credential entries |
| `TwitterAuthentication.Returned` | plugins/authentication/twitter/twitter.php:48-66 | the method returns `false` exactly on the missing-username path and PHP's null on every other path, including access denied |
| `TwitterAuthentication.SiteLoginSucceedsIff` | plugins/authentication/twitter/twitter.php:44-65 | in a site login, the status is SUCCESS exactly when the username is truthy and its account is neither blocked nor pending, and exactly when the error message is empty |
| `TwitterAuthentication.SiteLoginIgnoresPriorStatus` | plugins/authentication/twitter/twitter.php:44-65 | in a site login, the resulting status and message do not depend on what the response held before |
| `TwitterAuthentication.RespondIdempotent` | plugins/authentication/twitter/twitter.php:37-65 | dispatching the same attempt a second time leaves the response as the first dispatch did |
| `TwitterAuthentication.DerivedCredentialsGate` | plugins/authentication/twitter/twitter.php:105-122 | when the host log-in dispatches the derived credentials back to the gate, they are never rejected as missing. They are granted exactly when the namespaced account may log in, and the response then carries that username, the screen name and the derived email |
| `TwitterAuthentication.WithToken` | plugins/authentication/twitter/twitter.php:124-125 | the account carries the token's key and secret under `twitter.token.key` and `twitter.token.secret`; its other parameters, block and activation are unchanged |
| `TwitterAuthentication.StoreToken` | plugins/authentication/twitter/twitter.php:123-126 | the same usernames stay in the table; the account of the derived username, if it exists, gets the token; every other account is unchanged |
| `TwitterAuthentication.StoreTokenIdempotent` | plugins/authentication/twitter/twitter.php:123-126 | saving the same token twice leaves the table as saving it once |
| `TwitterAuthentication.StoreTokenIsolatesAccounts` | plugins/authentication/twitter/twitter.php:107-126 | logging in with one screen name never changes the local record belonging to another screen name |
| `TwitterAuthentication.TwitterPlugin.OnUserAuthenticate` | plugins/authentication/twitter/twitter.php:35-67 | the response object ends in the state `Respond` gives for its old state, and the return value is `Returned` of the branch taken; the method changes only the response |
| `TwitterAuthentication.TwitterPlugin.OnOauthAuthorize` | plugins/authentication/twitter/twitter.php:105-131 | returns true exactly when the host log-in, called with the derived credentials, returns `true` itself. Then the table is `StoreToken` of the old one for the derived username; otherwise the table is unchanged |

## Left out

- `__construct` and `loadLanguage`: plugin bootstrapping by the host.
- `onOauthAuthenticate` (twitter.php:73-83): it only sets options on the OAuth client and starts the
  redirect, so it makes no decision.
- The OAuth 1.0a handshake at the start of `onOauthAuthorize` (twitter.php:93-101): authentication,
  token exchange, signing and transport belong to the OAuth library. The token is an input map with
  `key` and `secret` entries.
- The profile fetch (twitter.php:103) is a network call. Its screen name and optional email are an
  input `Settings` value. A profile without a screen name is not modelled.
- The host log-in routine is an opaque function from credentials to a PHP value. Its own effects
  (auto-registration, re-dispatch to the gate, sessions) are not modelled. The user table passed to
  `OnOauthAuthorize` stands for the table as it is once the log-in has returned.
- `JText::_` localisation: the messages are their language keys. `JUser::save` is the map update of
  `UserStore.Save`, not database persistence, and its ignored return value is not modelled.
- The username lookup is exact string equality; the database's collation (which may be case-insensitive)
  is not modelled.
- The token parameters are flat keys; the registry's nesting of dotted paths is not modelled.
- PHP type juggling beyond null, `''`, `'0'` and integer 0 is not modelled. Credential and option
  values are strings, and `block` is an integer.
