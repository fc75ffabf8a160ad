/**
 * The host's local user accounts, as far as the plugin sees them: the
 * account-status fields it consults (`block`, `activation`), the profile
 * parameters it writes, and the lookup by username.
 */
module Users {
  import opened Php

  /**
   * A local account. `block` is 0 for an enabled account; `activation` is
   * null or empty once the account is activated; `params` are the profile
   * parameters the plugin writes, keyed by their dotted path.
   */
  datatype User = User(block: int, activation: Option<string>, params: map<string, Option<string>>)

  /** The user object built for id 0 (twitter.php:51, 123): an empty guest whose status fields are all falsy. */
  const GUEST: User := User(0, None, map[])

  /**
   * The account may not log in (twitter.php:52): it is blocked, or it
   * still carries an activation code, that is an activation that is
   * neither null, empty nor a lone zero digit.
   */
  predicate Barred(u: User)
    ensures Barred(u) <==> u.block != 0 || (u.activation.Some? && u.activation.value != "" && u.activation.value != "0")
  {
    u.block != 0 || !FalsyString(u.activation)
  }

  /**
   * The user object for a username (twitter.php:51, 123): the account of
   * that name, or the guest object, since an unknown name has id 0.
   */
  function Lookup(accounts: map<string, User>, username: string): (u: User)
    ensures username in accounts ==> u == accounts[username]
    ensures username !in accounts ==> !Barred(u) && u.params == map[]
  {
    if username in accounts then accounts[username] else GUEST
  }

  /** Setting one profile parameter (twitter.php:124-125): that parameter replaced, the rest of the account as it was. */
  function SetParam(u: User, key: string, value: Option<string>): (r: User)
    ensures r.block == u.block && r.activation == u.activation
    ensures r.params.Keys == u.params.Keys + {key}
    ensures r.params[key] == value
    ensures forall k :: k in u.params && k != key ==> r.params[k] == u.params[k]
  {
    u.(params := u.params[key := value])
  }

  /** The persistent user table, keyed by username. */
  class UserStore {
    var accounts: map<string, User>

    constructor (accounts: map<string, User>)
      ensures this.accounts == accounts
    {
      this.accounts := accounts;
    }

    /**
     * Saving an object obtained by `Lookup(accounts, username)` (twitter.php:126).
     * An existing account is overwritten; the guest object has an empty
     * username, which the user table's check rejects, so nothing is stored.
     */
    method Save(username: string, u: User)
      modifies this
      ensures username in old(accounts) ==> accounts == old(accounts)[username := u]
      ensures username !in old(accounts) ==> accounts == old(accounts)
    {
      if username in accounts {
        accounts := accounts[username := u];
      }
    }
  }
}
