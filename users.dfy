/** User: the in-memory projection of one `accounts` row plus its
    SessionManager. Every operation writes the store and the cached fields
    together. PHP's `$_SESSION` is the explicit SessionContext passed to the
    operations that read or write it. */
module Users {

  import opened Wrappers
  import opened Vault
  import opened Store
  import opened Sessions

  /** The `user_id` and `login_token` keys of the caller's `$_SESSION`. */
  class SessionContext {
    var userId: Option<int>
    var loginToken: Option<string>

    /** A freshly started session with neither key set. */
    constructor ()
      ensures userId == None && loginToken == None
    {
      userId := None;
      loginToken := None;
    }
  }

  class User {
    const db: Database
    const id: int
    const username: string
    const email: string
    var pwHash: Hash
    var confirmed: bool
    /** The pending token; null once loaded confirmed, "" once confirmed here. */
    var confirmationToken: Option<string>
    const sessionManager: SessionManager

    ghost predicate Valid()
      reads this
    {
      && sessionManager.userId == id
      && sessionManager.db == db
      && (!confirmed ==> confirmationToken.Some? && confirmationToken != Some(ConfirmedMarker))
      && (confirmed ==> confirmationToken == None || confirmationToken == Some(""))
    }

    /** The cached fields agree with the user's row in the store. */
    ghost predicate InSync()
      requires Valid()
      reads this, db
    {
      id in db.accounts && db.accounts[id] == AccountRow(id, username, email, pwHash, GetConfirmation())
    }

    /** Loads a user from the values of its row: the account is confirmed iff
        the `confirmation` column holds the marker, and otherwise the column
        is the pending token. */
    constructor (db: Database, id: int, username: string, email: string, pwHash: Hash, confirmation: string)
      ensures Valid() && fresh(sessionManager)
      ensures this.db == db && this.id == id && this.username == username && this.email == email
      ensures this.pwHash == pwHash
      ensures confirmed <==> confirmation == ConfirmedMarker
      ensures confirmed ==> confirmationToken == None
      ensures GetConfirmation() == confirmation
      ensures id in db.accounts && db.accounts[id] == AccountRow(id, username, email, pwHash, confirmation) ==> InSync()
    {
      this.db := db;
      this.id := id;
      this.username := username;
      this.email := email;
      this.pwHash := pwHash;
      this.confirmed := confirmation == ConfirmedMarker;
      this.confirmationToken := if confirmation == ConfirmedMarker then None else Some(confirmation);
      this.sessionManager := new SessionManager(id, db);
    }

    /** The value of the `confirmation` column for the cached state. */
    function GetConfirmation(): (c: string)
      requires Valid()
      reads this
      ensures c == ConfirmedMarker <==> confirmed
      ensures !confirmed ==> confirmationToken == Some(c)
    {
      if confirmed then ConfirmedMarker else confirmationToken.value
    }

    /** True iff the cached hash is a hash of `password`. */
    function DoesPasswordMatch(password: string): (matches: bool)
      reads this
      ensures matches <==> exists salt :: pwHash == Hashed(password, salt)
    {
      Matches(password, pwHash)
    }

    /** Confirms the account iff `token` is the pending token; a confirmed
        account loaded from the store has none, so it rejects every token. */
    method Confirm(token: string) returns (ok: bool)
      requires Valid()
      modifies this`confirmed, this`confirmationToken, db`accounts
      ensures Valid()
      ensures ok <==> old(confirmationToken) == Some(token)
      ensures ok ==> confirmed && confirmationToken == Some("") && GetConfirmation() == ConfirmedMarker
      ensures ok ==> db.accounts == SetConfirmed(old(db.accounts), id)
      ensures !ok ==> confirmed == old(confirmed) && confirmationToken == old(confirmationToken)
      ensures !ok ==> db.accounts == old(db.accounts)
      ensures old(InSync()) ==> InSync()
      ensures old(db.Valid()) ==> db.Valid()
    {
      if Some(token) == confirmationToken {
        confirmed := true;
        if UniqueKeys(db.accounts) {
          UpdatesKeepUniqueKeys(db.accounts, id, pwHash);
        }
        db.accounts := SetConfirmed(db.accounts, id);
        confirmed := true;
        confirmationToken := Some("");
        ok := true;
      } else {
        ok := false;
      }
    }

    /** True iff the session holds a login token that this user's row accepts.
        The session's `user_id` is never consulted. */
    function IsLoggedIn(ctx: SessionContext): (loggedIn: bool)
      requires Valid()
      reads this, ctx, db
      ensures ctx.loginToken.None? ==> !loggedIn
      ensures loggedIn <==> ctx.loginToken.Some? && LoginValid(db.sessions, id, ctx.loginToken.value)
    {
      if ctx.loginToken.Some? then sessionManager.IsValidLoginToken(ctx.loginToken.value) else false
    }

    /** Logs in: refused while unconfirmed; accepted without a new token while
        already logged in; otherwise a matching password issues a token that
        the session records with the user's id. */
    method Login(ctx: SessionContext, password: string, random: seq<Byte>, salt: seq<Byte>) returns (ok: bool)
      requires Valid() && |random| == TokenBytes
      modifies ctx, db`sessions
      ensures Valid()
      ensures !confirmed ==> !ok
      ensures confirmed && old(IsLoggedIn(ctx)) ==> ok
      ensures confirmed && !old(IsLoggedIn(ctx)) ==> ok == DoesPasswordMatch(password)
      ensures !ok || old(IsLoggedIn(ctx)) ==> unchanged(ctx) && db.sessions == old(db.sessions)
      ensures ok && !old(IsLoggedIn(ctx)) ==>
        && ctx.userId == Some(id) && ctx.loginToken == Some(Hex(random))
        && db.sessions == UpsertLogin(old(db.sessions), id, PasswordHash(Hex(random), salt))
      ensures ok ==> IsLoggedIn(ctx)
    {
      if !confirmed {
        ok := false;
      } else if IsLoggedIn(ctx) {
        ok := true;
      } else if DoesPasswordMatch(password) {
        var loginToken := sessionManager.Login(random, salt);
        ctx.userId := Some(id);
        ctx.loginToken := Some(loginToken);
        ok := true;
      } else {
        ok := false;
      }
    }

    /** Unsets both session keys, so that no user is logged in on this
        session; the stored login hash stays. */
    method Logout(ctx: SessionContext)
      requires Valid()
      modifies ctx
      ensures ctx.loginToken == None && ctx.userId == None
      ensures forall u: User | u.Valid() :: !u.IsLoggedIn(ctx)
    {
      ctx.loginToken := None;
      ctx.userId := None;
    }

    /** While unconfirmed: null, and nothing is written. Otherwise a fresh
        128-character hex key whose hash replaces the stored API hash. */
    method GenerateNewApiKey(random: seq<Byte>, salt: seq<Byte>) returns (key: Option<string>)
      requires Valid() && |random| == TokenBytes
      modifies db`sessions
      ensures !confirmed ==> key == None && db.sessions == old(db.sessions)
      ensures confirmed ==> key == Some(Hex(random)) && |key.value| == 2 * TokenBytes
      ensures confirmed ==> db.sessions == UpsertApi(old(db.sessions), id, PasswordHash(key.value, salt))
      ensures confirmed ==> forall candidate :: VerifyApiKey(candidate) <==> candidate == key.value
    {
      if confirmed {
        var apiKey := Hex(random);
        sessionManager.StoreApiKey(apiKey, salt);
        key := Some(apiKey);
      } else {
        key := None;
      }
    }

    /** True iff this user's row holds a hash of `key` as its API hash. */
    function VerifyApiKey(key: string): (valid: bool)
      requires Valid()
      reads this, db
      ensures valid ==> id in db.sessions
      ensures valid == ApiValid(db.sessions, id, key)
    {
      sessionManager.IsValidApiToken(key)
    }

    /** Replaces the password iff `previous` matches; the row and the cache
        receive the same new hash. */
    method ChangePassword(previous: string, next: string, salt: seq<Byte>) returns (ok: bool)
      requires Valid()
      modifies this`pwHash, db`accounts
      ensures Valid()
      ensures ok <==> old(DoesPasswordMatch(previous))
      ensures ok ==> pwHash == PasswordHash(next, salt) && DoesPasswordMatch(next)
      ensures ok ==> db.accounts == SetPwHash(old(db.accounts), id, pwHash)
      ensures ok && previous != next ==> !DoesPasswordMatch(previous)
      ensures !ok ==> pwHash == old(pwHash) && db.accounts == old(db.accounts)
      ensures old(InSync()) ==> InSync()
      ensures old(db.Valid()) ==> db.Valid()
    {
      if DoesPasswordMatch(previous) {
        var hash := PasswordHash(next, salt);
        if UniqueKeys(db.accounts) {
          UpdatesKeepUniqueKeys(db.accounts, id, hash);
        }
        db.accounts := SetPwHash(db.accounts, id, hash);
        pwHash := hash;
        ok := true;
      } else {
        ok := false;
      }
    }

    /** Sets a random 40-character hex password, stores its hash in the row
        and the cache, and deletes the session row, which logs the user out
        everywhere and wipes the API key. Always succeeds. */
    method ResetPassword(random: seq<Byte>, salt: seq<Byte>) returns (newPass: string)
      requires Valid() && |random| == PasswordBytes
      modifies this`pwHash, db`accounts, db`sessions
      ensures Valid()
      ensures newPass == Hex(random) && |newPass| == 2 * PasswordBytes
      ensures pwHash == PasswordHash(newPass, salt) && DoesPasswordMatch(newPass)
      ensures db.accounts == SetPwHash(old(db.accounts), id, pwHash)
      ensures db.sessions == DeleteSession(old(db.sessions), id)
      ensures forall ctx: SessionContext :: !IsLoggedIn(ctx)
      ensures forall candidate :: !VerifyApiKey(candidate)
      ensures old(InSync()) ==> InSync()
      ensures old(db.Valid()) ==> db.Valid()
    {
      newPass := Hex(random);
      var newHash := PasswordHash(newPass, salt);
      if UniqueKeys(db.accounts) {
        UpdatesKeepUniqueKeys(db.accounts, id, newHash);
      }
      db.accounts := SetPwHash(db.accounts, id, newHash);
      pwHash := newHash;
      sessionManager.WipeLoginSession();
    }
  }
}
