/** The two MySQL tables the library works on, as in-memory maps keyed by
    account id:

      accounts: | id | username | email | pw_hash | confirmation |
      sessions: | user_id | login_hash | api_hash |

    The functions below are the statements the library issues against them;
    the lemmas state what each statement does to the rows and to the token
    checks made against them. */
module Store {

  import opened Wrappers
  import opened Vault

  /** The value of `confirmation` once an account is confirmed. */
  const ConfirmedMarker := "confirmed"

  datatype AccountRow = AccountRow(id: int, username: string, email: string, pwHash: Hash, confirmation: string)

  /** One `sessions` row; either hash column may be NULL independently. */
  datatype SessionRow = SessionRow(loginHash: Option<Hash>, apiHash: Option<Hash>)

  /** PRIMARY KEY(id), UNIQUE KEY(username), UNIQUE KEY(email). */
  ghost predicate UniqueKeys(accounts: map<int, AccountRow>)
  {
    && (forall i | i in accounts :: accounts[i].id == i)
    && (forall i, j | i in accounts && j in accounts && i != j ::
          accounts[i].username != accounts[j].username && accounts[i].email != accounts[j].email)
  }

  // ---------------------------------------------------------------------
  // accounts

  /** `UPDATE accounts SET pw_hash=? WHERE id=?`: a missing row is left missing. */
  function SetPwHash(accounts: map<int, AccountRow>, id: int, h: Hash): (r: map<int, AccountRow>)
    ensures r.Keys == accounts.Keys
    ensures id in accounts ==> r[id] == accounts[id].(pwHash := h)
    ensures forall k | k in accounts && k != id :: r[k] == accounts[k]
  {
    if id in accounts then accounts[id := accounts[id].(pwHash := h)] else accounts
  }

  /** `UPDATE accounts SET confirmation='confirmed' WHERE id=?`. */
  function SetConfirmed(accounts: map<int, AccountRow>, id: int): (r: map<int, AccountRow>)
    ensures r.Keys == accounts.Keys
    ensures id in accounts ==> r[id] == accounts[id].(confirmation := ConfirmedMarker)
    ensures forall k | k in accounts && k != id :: r[k] == accounts[k]
  {
    if id in accounts then accounts[id := accounts[id].(confirmation := ConfirmedMarker)] else accounts
  }

  /** The two updates touch no key column, so the unique keys survive them. */
  lemma UpdatesKeepUniqueKeys(accounts: map<int, AccountRow>, id: int, h: Hash)
    requires UniqueKeys(accounts)
    ensures UniqueKeys(SetPwHash(accounts, id, h))
    ensures UniqueKeys(SetConfirmed(accounts, id))
  {
  }

  // ---------------------------------------------------------------------
  // sessions

  /** `INSERT INTO sessions VALUES (id, h, NULL) ON DUPLICATE KEY UPDATE login_hash=h`. */
  function UpsertLogin(sessions: map<int, SessionRow>, id: int, h: Hash): (r: map<int, SessionRow>)
    ensures r.Keys == sessions.Keys + {id}
    ensures r[id].loginHash == Some(h)
    ensures r[id].apiHash == if id in sessions then sessions[id].apiHash else None
    ensures forall k | k in sessions && k != id :: r[k] == sessions[k]
  {
    var api := if id in sessions then sessions[id].apiHash else None;
    sessions[id := SessionRow(Some(h), api)]
  }

  /** `INSERT INTO sessions VALUES (id, NULL, h) ON DUPLICATE KEY UPDATE api_hash=h`. */
  function UpsertApi(sessions: map<int, SessionRow>, id: int, h: Hash): (r: map<int, SessionRow>)
    ensures r.Keys == sessions.Keys + {id}
    ensures r[id].apiHash == Some(h)
    ensures r[id].loginHash == if id in sessions then sessions[id].loginHash else None
    ensures forall k | k in sessions && k != id :: r[k] == sessions[k]
  {
    var login := if id in sessions then sessions[id].loginHash else None;
    sessions[id := SessionRow(login, Some(h))]
  }

  /** `DELETE FROM sessions WHERE user_id=?`. */
  function DeleteSession(sessions: map<int, SessionRow>, id: int): (r: map<int, SessionRow>)
    ensures r.Keys == sessions.Keys - {id}
    ensures forall k | k in r :: r[k] == sessions[k]
  {
    sessions - {id}
  }

  /** A login token checked against the row of `id`: fails closed without a row. */
  predicate LoginValid(sessions: map<int, SessionRow>, id: int, token: string)
  {
    id in sessions && Verify(token, sessions[id].loginHash)
  }

  /** An API key checked against the row of `id`: fails closed without a row. */
  predicate ApiValid(sessions: map<int, SessionRow>, id: int, key: string)
  {
    id in sessions && Verify(key, sessions[id].apiHash)
  }

  /** With no row for the user, neither check accepts anything. */
  lemma MissingRowFailsClosed(sessions: map<int, SessionRow>, id: int, token: string)
    requires id !in sessions
    ensures !LoginValid(sessions, id, token) && !ApiValid(sessions, id, token)
  {
  }

  /** After a login upsert the row holds a hash of exactly the new token,
      and the API key check is what it was. */
  lemma UpsertLoginEffect(sessions: map<int, SessionRow>, id: int, token: string, salt: seq<Byte>, candidate: string)
    ensures var r := UpsertLogin(sessions, id, PasswordHash(token, salt));
      && LoginValid(r, id, token)
      && (LoginValid(r, id, candidate) <==> candidate == token)
      && (ApiValid(r, id, candidate) <==> ApiValid(sessions, id, candidate))
  {
  }

  /** After an API upsert the row accepts exactly the new key (an earlier key
      no longer validates), and the login check is what it was. */
  lemma UpsertApiEffect(sessions: map<int, SessionRow>, id: int, key: string, salt: seq<Byte>, candidate: string)
    ensures var r := UpsertApi(sessions, id, PasswordHash(key, salt));
      && ApiValid(r, id, key)
      && (ApiValid(r, id, candidate) <==> candidate == key)
      && (LoginValid(r, id, candidate) <==> LoginValid(sessions, id, candidate))
  {
  }

  /** A freshly inserted row has NULL in the column the upsert does not write. */
  lemma InsertedRowHasNullColumn(sessions: map<int, SessionRow>, id: int, h: Hash)
    requires id !in sessions
    ensures UpsertLogin(sessions, id, h)[id].apiHash == None
    ensures UpsertApi(sessions, id, h)[id].loginHash == None
    ensures forall candidate :: !ApiValid(UpsertLogin(sessions, id, h), id, candidate)
    ensures forall candidate :: !LoginValid(UpsertApi(sessions, id, h), id, candidate)
  {
  }

  /** Deleting the row wipes the API key along with the login token. */
  lemma DeleteSessionEffect(sessions: map<int, SessionRow>, id: int, candidate: string)
    ensures id !in DeleteSession(sessions, id)
    ensures !LoginValid(DeleteSession(sessions, id), id, candidate)
    ensures !ApiValid(DeleteSession(sessions, id), id, candidate)
  {
  }

  /** Every statement is keyed by one user id: the checks against any other
      user's row give what they gave before. In particular a token issued to
      `id` validates against `other` only if it did so already. */
  lemma OtherRowsIsolated(sessions: map<int, SessionRow>, id: int, other: int, h: Hash, candidate: string)
    requires other != id
    ensures LoginValid(UpsertLogin(sessions, id, h), other, candidate) == LoginValid(sessions, other, candidate)
    ensures ApiValid(UpsertLogin(sessions, id, h), other, candidate) == ApiValid(sessions, other, candidate)
    ensures LoginValid(UpsertApi(sessions, id, h), other, candidate) == LoginValid(sessions, other, candidate)
    ensures ApiValid(UpsertApi(sessions, id, h), other, candidate) == ApiValid(sessions, other, candidate)
    ensures LoginValid(DeleteSession(sessions, id), other, candidate) == LoginValid(sessions, other, candidate)
    ensures ApiValid(DeleteSession(sessions, id), other, candidate) == ApiValid(sessions, other, candidate)
  {
  }

  /** The database connection: both tables, updated in place by the
      statements the library runs. */
  class Database {
    var accounts: map<int, AccountRow>
    var sessions: map<int, SessionRow>

    constructor (accounts: map<int, AccountRow>, sessions: map<int, SessionRow>)
      ensures this.accounts == accounts && this.sessions == sessions
    {
      this.accounts := accounts;
      this.sessions := sessions;
    }

    ghost predicate Valid()
      reads this
    {
      UniqueKeys(accounts)
    }
  }
}
