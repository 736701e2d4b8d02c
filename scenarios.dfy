/** Client code: the account and session life cycles the library's tests walk
    through, run against a fresh in-memory store. Each method's
    postcondition is what the corresponding test asserts; it follows from the
    contracts of User and SessionManager alone. */
module Scenarios {

  import opened Wrappers
  import opened Vault
  import opened Store
  import opened Users

  /** Store with one account row, loaded into a User. */
  method LoadUser(id: int, username: string, email: string, pwHash: Hash, confirmation: string)
    returns (db: Database, user: User)
    ensures fresh(db) && fresh(user) && fresh(user.sessionManager)
    ensures user.Valid() && user.InSync() && db.Valid()
    ensures user.db == db && user.id == id && user.pwHash == pwHash
    ensures user.confirmed <==> confirmation == ConfirmedMarker
    ensures !user.confirmed ==> user.confirmationToken == Some(confirmation)
    ensures db.sessions == map[]
  {
    db := new Database(map[id := AccountRow(id, username, email, pwHash, confirmation)], map[]);
    user := new User(db, id, username, email, pwHash, confirmation);
  }

  /** An unconfirmed account cannot log in; a wrong token does not confirm it;
      the token it was created with does, after which the password logs in
      and any further non-empty token is rejected. */
  method ConfirmBeforeLogin(password: string, token: string, wrong: string, again: string,
                            random: seq<Byte>, salt: seq<Byte>)
    returns (loginBefore: bool, wrongConfirm: bool, loginAfterWrong: bool, rightConfirm: bool, loginAfter: bool,
             secondConfirm: bool)
    requires token != ConfirmedMarker && wrong != token && again != ""
    requires |random| == TokenBytes
    ensures !loginBefore && !wrongConfirm && !loginAfterWrong && rightConfirm && loginAfter && !secondConfirm
  {
    var db, user := LoadUser(3, "3", "3", PasswordHash(password, salt), token);
    var ctx := new SessionContext();
    loginBefore := user.Login(ctx, password, random, salt);
    wrongConfirm := user.Confirm(wrong);
    assert !user.confirmed && user.confirmationToken == Some(token);
    loginAfterWrong := user.Login(ctx, password, random, salt);
    var confirmation := user.GetConfirmation();
    assert confirmation == token;
    rightConfirm := user.Confirm(confirmation);
    assert user.confirmed && user.confirmationToken == Some("");
    assert ctx.loginToken == None && user.DoesPasswordMatch(password);
    loginAfter := user.Login(ctx, password, random, salt);
    secondConfirm := user.Confirm(again);
  }

  /** Two users on one session: only the user whose token the session holds
      is logged in, a wrong password leaves the session to the first user,
      and a second user's login replaces the first one's. */
  method TwoUsersOneSession(pass1: string, pass2: string, random1: seq<Byte>, random2: seq<Byte>, salt: seq<Byte>)
    returns (oneIn: bool, twoBefore: bool, twoWrong: bool, oneStill: bool, userAfterWrong: Option<int>,
             twoIn: bool, twoStill: bool, oneAfter: bool, sessionUser: Option<int>)
    requires pass1 != pass2
    requires |random1| == TokenBytes && |random2| == TokenBytes && random1 != random2
    ensures oneIn && !twoBefore && !twoWrong && twoIn && !oneAfter
    ensures oneStill && userAfterWrong == Some(1) && twoStill
    ensures sessionUser == Some(2)
  {
    var db := new Database(map[1 := AccountRow(1, "UserOne", "user@1.net", PasswordHash(pass1, salt), ConfirmedMarker),
                               2 := AccountRow(2, "UserTwo", "user@2.net", PasswordHash(pass2, salt), ConfirmedMarker)], map[]);
    var one := new User(db, 1, "UserOne", "user@1.net", PasswordHash(pass1, salt), ConfirmedMarker);
    var two := new User(db, 2, "UserTwo", "user@2.net", PasswordHash(pass2, salt), ConfirmedMarker);
    var ctx := new SessionContext();
    oneIn := one.Login(ctx, pass1, random1, salt);
    twoBefore := two.IsLoggedIn(ctx);
    twoWrong := two.Login(ctx, pass1, random2, salt);
    oneStill := one.IsLoggedIn(ctx);
    userAfterWrong := ctx.userId;
    twoIn := two.Login(ctx, pass2, random2, salt);
    twoStill := two.IsLoggedIn(ctx);
    HexInjective(random1, random2);
    oneAfter := one.IsLoggedIn(ctx);
    sessionUser := ctx.userId;
  }

  /** Logging out on behalf of any user ends the session; a new login works. */
  method LogoutAndLoginAgain(password: string, random1: seq<Byte>, random2: seq<Byte>, salt: seq<Byte>)
    returns (firstLogin: bool, afterLogout: bool, secondLogin: bool, loggedIn: bool)
    requires |random1| == TokenBytes && |random2| == TokenBytes
    ensures firstLogin && !afterLogout && secondLogin && loggedIn
  {
    var db, one := LoadUser(1, "UserOne", "user@1.net", PasswordHash(password, salt), ConfirmedMarker);
    var two := new User(db, 2, "UserTwo", "user@2.net", PasswordHash(password, salt), ConfirmedMarker);
    var ctx := new SessionContext();
    firstLogin := one.Login(ctx, password, random1, salt);
    two.Logout(ctx);
    afterLogout := one.IsLoggedIn(ctx) || ctx.loginToken.Some? || ctx.userId.Some?;
    secondLogin := one.Login(ctx, password, random2, salt);
    loggedIn := one.IsLoggedIn(ctx);
  }

  /** A wrong previous password changes nothing; the right one installs the
      new password in the row and the cache, keeps the session, and after a
      logout only the new password logs in. */
  method ChangePasswordFlow(pass: string, wrong: string, newPass: string,
                            random1: seq<Byte>, random2: seq<Byte>, salt1: seq<Byte>, salt2: seq<Byte>)
    returns (wrongChange: bool, newMatchedEarly: bool, rightChange: bool, stillIn: bool,
             oldLogin: bool, newLogin: bool, rowAgrees: bool)
    requires wrong != pass && newPass != pass
    requires |random1| == TokenBytes && |random2| == TokenBytes
    ensures !wrongChange && !newMatchedEarly && rightChange && stillIn
    ensures !oldLogin && newLogin && rowAgrees
  {
    var db, user := LoadUser(1, "UserOne", "user@1.net", PasswordHash(pass, salt1), ConfirmedMarker);
    var ctx := new SessionContext();
    var _ := user.Login(ctx, pass, random1, salt1);
    wrongChange := user.ChangePassword(wrong, newPass, salt2);
    newMatchedEarly := user.DoesPasswordMatch(newPass) || !user.DoesPasswordMatch(pass);
    rightChange := user.ChangePassword(pass, newPass, salt2);
    stillIn := user.DoesPasswordMatch(newPass) && user.IsLoggedIn(ctx);
    user.Logout(ctx);
    oldLogin := user.Login(ctx, pass, random2, salt2);
    newLogin := user.Login(ctx, newPass, random2, salt2);
    rowAgrees := 1 in db.accounts && db.accounts[1].pwHash == user.pwHash;
  }

  /** Changing a password to itself still yields a new hash: the salt is fresh. */
  method SaltedRehash(password: string, salt1: seq<Byte>, salt2: seq<Byte>)
    returns (changed: bool, before: Hash, after: Hash)
    requires salt1 != salt2
    ensures changed && before != after
  {
    var db, user := LoadUser(1, "1", "1", PasswordHash(password, salt1), "token");
    before := user.pwHash;
    changed := user.ChangePassword(password, password, salt2);
    after := user.pwHash;
  }

  /** Resetting the password ends the session, retires the old password and
      installs the returned one in the row and the cache. */
  method ResetWhileLoggedIn(password: string, random: seq<Byte>, resetBytes: seq<Byte>, salt1: seq<Byte>, salt2: seq<Byte>)
    returns (loggedInAfter: bool, oldMatches: bool, newMatches: bool, rowAgrees: bool, newPass: string)
    requires |random| == TokenBytes && |resetBytes| == PasswordBytes
    requires |password| != 2 * PasswordBytes
    ensures !loggedInAfter && !oldMatches && newMatches && rowAgrees && |newPass| == 40
  {
    var db, user := LoadUser(1, "UserOne", "user@1.net", PasswordHash(password, salt1), ConfirmedMarker);
    var ctx := new SessionContext();
    var _ := user.Login(ctx, password, random, salt1);
    newPass := user.ResetPassword(resetBytes, salt2);
    loggedInAfter := user.IsLoggedIn(ctx);
    oldMatches := user.DoesPasswordMatch(password);
    newMatches := user.DoesPasswordMatch(newPass);
    rowAgrees := 1 in db.accounts && db.accounts[1].pwHash == user.pwHash;
  }

  /** No key validates before one is issued; an unconfirmed user gets none;
      once confirmed, the issued key validates and a different one does not. */
  method ApiKeyLifecycle(password: string, token: string, random: seq<Byte>, salt: seq<Byte>)
    returns (noKeyValid: bool, unconfirmedKey: Option<string>, key: Option<string>, wrongValid: bool, keyValid: bool)
    requires token != ConfirmedMarker && |random| == TokenBytes
    ensures !noKeyValid && unconfirmedKey == None && key.Some? && |key.value| == 128
    ensures !wrongValid && keyValid
  {
    var db, user := LoadUser(1, "Tester", "test@namibsun.net", PasswordHash(password, salt), token);
    noKeyValid := user.VerifyApiKey("No Key");
    unconfirmedKey := user.GenerateNewApiKey(random, salt);
    var _ := user.Confirm(token);
    key := user.GenerateNewApiKey(random, salt);
    wrongValid := user.VerifyApiKey("Wrong Key");
    keyValid := user.VerifyApiKey(key.value);
  }
}
