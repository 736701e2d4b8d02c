/** SessionManager: the `sessions` row of one user. It owns the login token
    hash and the API key hash and checks caller-presented tokens against them. */
module Sessions {

  import opened Wrappers
  import opened Vault
  import opened Store

  class SessionManager {
    /** The id of the owning user; every statement is keyed by it. */
    const userId: int
    const db: Database

    constructor (userId: int, db: Database)
      ensures this.userId == userId && this.db == db
    {
      this.userId := userId;
      this.db := db;
    }

    /** `SELECT login_hash, api_hash FROM sessions WHERE user_id=?`: the row, or null. */
    function GetTokenHashes(): (r: Option<SessionRow>)
      reads db
      ensures r.None? <==> userId !in db.sessions
      ensures r.Some? ==> r.value == db.sessions[userId]
    {
      if userId in db.sessions then Some(db.sessions[userId]) else None
    }

    /** The login check of the user's row: fails closed without a row. */
    function IsValidLoginToken(token: string): (valid: bool)
      reads db
      ensures valid ==> GetTokenHashes().Some?
      ensures valid == LoginValid(db.sessions, userId, token)
    {
      match GetTokenHashes()
      case None => false
      case Some(row) => Verify(token, row.loginHash)
    }

    /** The API key check of the user's row: fails closed without a row. */
    function IsValidApiToken(key: string): (valid: bool)
      reads db
      ensures valid ==> GetTokenHashes().Some?
      ensures valid == ApiValid(db.sessions, userId, key)
    {
      match GetTokenHashes()
      case None => false
      case Some(row) => Verify(key, row.apiHash)
    }

    /** Issues a 128-character hex login token and upserts its hash, keeping
        the API hash. Returns the plaintext token. */
    method Login(random: seq<Byte>, salt: seq<Byte>) returns (token: string)
      requires |random| == TokenBytes
      modifies db`sessions
      ensures token == Hex(random) && |token| == 2 * TokenBytes
      ensures db.sessions == UpsertLogin(old(db.sessions), userId, PasswordHash(token, salt))
      ensures IsValidLoginToken(token)
      ensures forall candidate :: IsValidLoginToken(candidate) ==> candidate == token
      ensures forall candidate :: IsValidApiToken(candidate) == old(IsValidApiToken(candidate))
    {
      token := Hex(random);
      var loginHash := PasswordHash(token, salt);
      db.sessions := UpsertLogin(db.sessions, userId, loginHash);
    }

    /** Upserts the hash of `key` as the API hash, keeping the login hash;
        an earlier key stops validating. */
    method StoreApiKey(key: string, salt: seq<Byte>)
      modifies db`sessions
      ensures db.sessions == UpsertApi(old(db.sessions), userId, PasswordHash(key, salt))
      ensures forall candidate :: IsValidApiToken(candidate) <==> candidate == key
      ensures forall candidate :: IsValidLoginToken(candidate) == old(IsValidLoginToken(candidate))
    {
      var hash := PasswordHash(key, salt);
      db.sessions := UpsertApi(db.sessions, userId, hash);
    }

    /** Deletes the whole row: the API key goes with the login token. */
    method WipeLoginSession()
      modifies db`sessions
      ensures db.sessions == DeleteSession(old(db.sessions), userId)
      ensures GetTokenHashes() == None
      ensures forall candidate :: !IsValidLoginToken(candidate) && !IsValidApiToken(candidate)
    {
      db.sessions := DeleteSession(db.sessions, userId);
    }
  }
}
