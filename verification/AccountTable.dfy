/**
  The account and OAuth attempt tables, and the effect of each SQL statement or
  immediate transaction that writes them. One function is one atomic write: it
  returns the tables unchanged when its WHERE clause selects no row.

  Account rows are keyed by public id. Public ids are random and never reused, so
  they are drawn from a counter. `id` is the SQLite rowid, which is reused.
 */
module AccountTable {
  import opened Wrappers

  datatype AuthKind = ApiKey | OAuth

  datatype AccountStatus = Draft | Validating | Active | Invalid | ReauthRequired | Disabled

  /** A decrypted credential payload. `owner` is the public id the envelope was sealed for:
      it is bound as associated data, so the envelope opens for that account only. A token's
      `serial` counts the answers of the authorisation server; `parent` is the token whose
      refresh grant produced it. */
  datatype Credential =
    | Key(owner: nat, key: nat)
    | Token(owner: nat, serial: nat, parent: Option<nat>)

  datatype Account = Account(
    id: nat,
    auth: AuthKind,
    upstream: nat,
    proxy: Option<nat>,
    credential: Option<Credential>,
    credentialVersion: nat,
    status: AccountStatus,
    version: nat)

  type Accounts = map<nat, Account>

  /** What LoadAccount joins in from the upstream and proxy rows, which change on their own. */
  datatype Egress = Egress(upstreamVersion: nat, proxy: Option<(nat, nat)>)

  /** The egress fingerprint before hashing (the hash is taken to be injective). */
  datatype Fingerprint = Fingerprint(account: nat, version: nat, upstream: nat, egress: Egress)

  function EgressFingerprint(pub: nat, row: Account, egress: Egress): Fingerprint {
    Fingerprint(pub, row.version, row.upstream, egress)
  }

  datatype AttemptStatus = Pending | Exchanging | Consumed | Failed | Cancelled

  datatype Attempt = Attempt(
    account: nat, // internal id of the account row
    fingerprint: Fingerprint,
    status: AttemptStatus,
    expires: nat)

  type Attempts = map<nat, Attempt>

  const ATTEMPT_TTL: nat := 600_000 // ten minutes, in milliseconds

  datatype Tables = Tables(
    accounts: Accounts,
    attempts: Attempts,
    ids: map<nat, nat>, // the internal id given to every public id ever inserted
    nextPub: nat,
    nextAttempt: nat,
    clock: nat)

  /** What an administrator submits to update an account. */
  datatype UpdateInput = UpdateInput(
    auth: Option<AuthKind>,
    upstream: nat,
    proxy: Option<nat>,
    key: Option<nat>,
    status: AccountStatus)

  // ---------- account rows ----------

  /** The rowid SQLite picks for an INTEGER PRIMARY KEY without AUTOINCREMENT: one more than
      the largest in use, or 1 in an empty table. */
  ghost predicate NextRowId(a: Accounts, id: nat) {
    && (forall pub <- a :: a[pub].id < id)
    && (if a == map[] then id == 1 else exists pub <- a :: a[pub].id == id - 1)
  }

  predicate CreateAllowed(auth: AuthKind, key: Option<nat>, status: AccountStatus) {
    && (auth == ApiKey ==> key.Some?)
    && (auth == OAuth ==> key.None?)
    && (status == Draft || status == Disabled)
  }

  function NewAccount(pub: nat, id: nat, auth: AuthKind, upstream: nat, proxy: Option<nat>, key: Option<nat>,
                      status: AccountStatus): Account {
    var credential := if key.Some? then Some(Key(pub, key.value)) else None;
    Account(id, auth, upstream, proxy, credential, 1, status, 1)
  }

  /** The checks UpdateAccount makes on the row it read, before its transaction. The key of an
      OAuth account is refused only when the input names the authentication kind. */
  predicate UpdateAllowed(seen: Account, input: UpdateInput) {
    && input.status in {Draft, Disabled, Active}
    && !(input.auth == Some(OAuth) && input.key.Some?)
    && (input.auth.Some? ==> input.auth.value == seen.auth)
    && (input.status == Active ==>
          && seen.status == Active
          && input.upstream == seen.upstream
          && input.proxy == seen.proxy
          && input.key.None?)
  }

  function UpdatedRow(row: Account, pub: nat, seen: Account, input: UpdateInput): Account {
    row.(upstream := input.upstream,
         proxy := input.proxy,
         credential := if input.key.Some? then Some(Key(pub, input.key.value)) else seen.credential,
         credentialVersion := row.credentialVersion + (if input.key.Some? then 1 else 0),
         status := input.status,
         version := row.version + 1)
  }

  // ---------- writes of a row, field by field ----------

  /** A new status and the next version; nothing else. */
  predicate OnlyStatus(row: Account, later: Account, status: AccountStatus) {
    && later.status == status && later.version == row.version + 1
    && later.id == row.id && later.auth == row.auth
    && later.upstream == row.upstream && later.proxy == row.proxy
    && later.credential == row.credential && later.credentialVersion == row.credentialVersion
  }

  /** A new credential, its version and the row's; the egress stays. */
  predicate NewCredential(row: Account, later: Account, credential: Credential, status: AccountStatus) {
    && later.credential == Some(credential) && later.credentialVersion == row.credentialVersion + 1
    && later.status == status && later.version == row.version + 1
    && later.id == row.id && later.auth == row.auth
    && later.upstream == row.upstream && later.proxy == row.proxy
  }

  /** What an update writes: status and egress as submitted, the credential as brought or as it
      was read. */
  predicate AsSubmitted(pub: nat, row: Account, later: Account, seen: Account, input: UpdateInput) {
    && later.status == input.status && later.upstream == input.upstream && later.proxy == input.proxy
    && later.id == row.id && later.auth == row.auth && later.version == row.version + 1
    && match input.key
       case None => later.credential == seen.credential && later.credentialVersion == row.credentialVersion
       case Some(key) =>
         later.credential == Some(Key(pub, key)) && later.credentialVersion == row.credentialVersion + 1
  }

  // ---------- statements ----------

  predicate AtVersion(a: Accounts, pub: nat, expected: nat) {
    pub in a && a[pub].version == expected
  }

  /** The versioned UPDATE of UpdateAccount; `seen` is the row its checks were made on. */
  function ApplyUpdate(a: Accounts, pub: nat, expected: nat, seen: Account, input: UpdateInput): Accounts {
    if AtVersion(a, pub, expected) then a[pub := UpdatedRow(a[pub], pub, seen, input)] else a
  }

  function BeginValidation(a: Accounts, pub: nat, expected: nat): Accounts {
    if AtVersion(a, pub, expected) && a[pub].status != Validating
    then a[pub := a[pub].(status := Validating, version := a[pub].version + 1)]
    else a
  }

  predicate FinishSelects(a: Accounts, pub: nat, expected: nat, ok: bool) {
    && AtVersion(a, pub, expected)
    && a[pub].status == Validating
    && (ok ==> a[pub].credential.Some?)
  }

  function FinishValidation(a: Accounts, pub: nat, expected: nat, ok: bool): Accounts {
    if FinishSelects(a, pub, expected, ok)
    then a[pub := a[pub].(status := if ok then Active else Invalid, version := a[pub].version + 1)]
    else a
  }

  function RecoveredRow(row: Account): Account {
    if row.status == Validating then row.(status := Invalid, version := row.version + 1) else row
  }

  function RecoverValidations(a: Accounts): Accounts {
    map pub | pub in a :: RecoveredRow(a[pub])
  }

  /** The statement of a refresh: by internal id and credential version, not by public id. */
  predicate RefreshSelects(a: Accounts, pub: nat, id: nat, credentialVersion: nat) {
    && pub in a
    && a[pub].id == id
    && a[pub].credentialVersion == credentialVersion
    && a[pub].status == Active
    && a[pub].auth == OAuth
  }

  function StoreRefreshed(a: Accounts, pub: nat, id: nat, credentialVersion: nat, rotated: Credential): Accounts {
    if RefreshSelects(a, pub, id, credentialVersion)
    then a[pub := a[pub].(credential := Some(rotated),
                          credentialVersion := a[pub].credentialVersion + 1,
                          version := a[pub].version + 1)]
    else a
  }

  function MarkReauthRequired(a: Accounts, pub: nat, id: nat, credentialVersion: nat): Accounts {
    if pub in a && a[pub].id == id && a[pub].credentialVersion == credentialVersion && a[pub].status == Active
    then a[pub := a[pub].(status := ReauthRequired, version := a[pub].version + 1)]
    else a
  }

  /** What an upstream 401 does to an active account, by internal id alone. */
  function RecordUnauthorized(a: Accounts, pub: nat, id: nat): Accounts {
    if pub in a && a[pub].id == id && a[pub].status == Active
    then a[pub := a[pub].(status := ReauthRequired, version := a[pub].version + 1)]
    else a
  }

  // ---------- attempt rows ----------

  predicate Unexpired(x: Attempt, now: nat) {
    x.status == Exchanging && x.expires > now
  }

  /** An attempt that still stands in the way of another one for the same account. */
  predicate Live(x: Attempt, now: nat) {
    x.status == Pending || Unexpired(x, now)
  }

  predicate Terminal(x: Attempt) {
    x.status in {Consumed, Failed, Cancelled}
  }

  function CancelPending(attempts: Attempts, account: nat): Attempts {
    map n | n in attempts ::
      if attempts[n].account == account && attempts[n].status == Pending
      then attempts[n].(status := Cancelled)
      else attempts[n]
  }

  predicate InsertSelects(t: Tables, pub: nat, version: nat, now: nat) {
    && AtVersion(t.accounts, pub, version)
    && t.accounts[pub].auth == OAuth
    && forall n <- t.attempts ::
         t.attempts[n].account == t.accounts[pub].id ==> !Unexpired(t.attempts[n], now)
  }

  /** The transaction of CreateAttempt: refuse beside an unexpired exchange, cancel what is
      pending, insert the new attempt. */
  function InsertAttempt(t: Tables, pub: nat, fingerprint: Fingerprint, now: nat): Tables {
    if InsertSelects(t, pub, fingerprint.version, now) then
      var account := t.accounts[pub].id;
      var cancelled := CancelPending(t.attempts, account);
      t.(attempts := cancelled[t.nextAttempt := Attempt(account, fingerprint, Pending, now + ATTEMPT_TTL)],
         nextAttempt := t.nextAttempt + 1)
    else t
  }

  function CancelAttempt(attempts: Attempts, n: nat): Attempts {
    if n in attempts && attempts[n].status == Pending then attempts[n := attempts[n].(status := Cancelled)]
    else attempts
  }

  predicate ClaimSelects(attempts: Attempts, n: nat, now: nat) {
    n in attempts && attempts[n].status == Pending && attempts[n].expires > now
  }

  function ClaimAttempt(attempts: Attempts, n: nat, now: nat): Attempts {
    if ClaimSelects(attempts, n, now) then attempts[n := attempts[n].(status := Exchanging)] else attempts
  }

  function FailAttempt(attempts: Attempts, n: nat): Attempts {
    if n in attempts && attempts[n].status in {Pending, Exchanging}
    then attempts[n := attempts[n].(status := Failed)]
    else attempts
  }

  function RecoverAttempts(attempts: Attempts): Attempts {
    map n | n in attempts ::
      if attempts[n].status == Exchanging then attempts[n].(status := Failed) else attempts[n]
  }

  function DropExpired(attempts: Attempts, now: nat): Attempts {
    map n | n in attempts && attempts[n].expires > now :: attempts[n]
  }

  /** Deleting an account row deletes its attempts (ON DELETE CASCADE). */
  function DeleteAccount(t: Tables, pub: nat, expected: nat): Tables {
    if AtVersion(t.accounts, pub, expected) then
      var id := t.accounts[pub].id;
      t.(accounts := t.accounts - {pub},
         attempts := map n | n in t.attempts && t.attempts[n].account != id :: t.attempts[n])
    else t
  }

  // ---------- the transaction that writes both tables ----------

  predicate CompleteSelects(t: Tables, n: nat, pub: nat, expected: nat) {
    && AtVersion(t.accounts, pub, expected)
    && t.accounts[pub].auth == OAuth
    && t.accounts[pub].status != Disabled
    && n in t.attempts
    && t.attempts[n].account == t.accounts[pub].id
    && Unexpired(t.attempts[n], t.clock)
  }

  /** CompleteOAuthAccount activates the account and consumes the attempt, or rolls both back. */
  function CompleteAuthorization(t: Tables, n: nat, pub: nat, expected: nat, token: Credential): Tables {
    if CompleteSelects(t, n, pub, expected) then
      var row := t.accounts[pub];
      t.(accounts := t.accounts[pub := row.(credential := Some(token),
                                            credentialVersion := row.credentialVersion + 1,
                                            status := Active,
                                            version := row.version + 1)],
         attempts := t.attempts[n := t.attempts[n].(status := Consumed)])
    else t
  }
}
