/**
 The authentication service of app/services/supabase_service.py in demo
 mode: an in-memory mock of the backend, the signed-in user and session,
 and the session slot in the OS keyring. Emitted `auth_state_changed` and
 `auth_error` signals are appended to `events`.
 */
module AuthService {
  import opened Wrappers
  import opened DemoTable
  import opened SessionCodec
  import AppConfig

  const EmailTakenMessage: string := "Email already registered"
  const BadCredentialsMessage: string := "Invalid email or password"
  const EmailNotFoundMessage: string := "Email not found"

  /** A signal as observers receive it: `auth_state_changed` with its payload
      (`role` absent where the source leaves the key out), or `auth_error`. */
  datatype Event =
    | StateChanged(user: Option<User>, session: Option<Session>, role: Option<Role>)
    | AuthError(message: string)

  /** Demo mode is chosen when the configuration is exactly the placeholder
      pair, or when connecting to the real backend failed. */
  function DemoModeDetected(config: AppConfig.Config, connectFailed: bool): bool {
    (config.supabaseUrl == AppConfig.DemoUrl && config.supabaseKey == AppConfig.DemoKey) || connectFailed
  }

  /** Missing configuration always ends in demo mode; a fully given one does
      only if it is the placeholder pair itself or the connection fails. */
  lemma LoadedConfigSelectsMode(url: Option<string>, key: Option<string>, connectFailed: bool)
    ensures DemoModeDetected(AppConfig.LoadConfig(url, key), connectFailed) <==>
              (|| AppConfig.Missing(url) || AppConfig.Missing(key) || connectFailed
               || (url == Some(AppConfig.DemoUrl) && key == Some(AppConfig.DemoKey)))
  {
  }

  /** What session restoration finds in the keyring slot. `UnknownToken`
      covers both a token no account owns and a first match under the empty
      email, which `if user_email:` rejects. */
  datatype RestoreOutcome =
    | NothingStored
    | Undecodable
    | UnknownToken(session: Session)
    | Restored(email: string, session: Session)

  /** Classifies the slot against the current key and the table. */
  function ClassifyRestore(slot: Option<Blob>, key: string, emails: seq<string>,
                           users: map<string, Record>): (o: RestoreOutcome)
    requires AllKeyed(emails, users)
    ensures o.NothingStored? <==> slot.None? || EmptyEntry(slot.value)
    ensures o.Undecodable? <==> slot.Some? && !EmptyEntry(slot.value) && Decrypt(slot.value, key).None?
    ensures o.UnknownToken? ==>
              && slot == Some(Encrypt(o.session, key))
              && (|| (forall i :: 0 <= i < |emails| ==> !TokenMatches(users, emails[i], o.session.accessToken))
                  || FirstMatch(emails, users, o.session.accessToken) == Some(""))
    ensures o.Restored? ==>
              && slot == Some(Encrypt(o.session, key)) && o.email != "" && o.email in users
              && FirstMatch(emails, users, o.session.accessToken) == Some(o.email)
              && TokenMatches(users, o.email, o.session.accessToken)
  {
    match slot
    case None => NothingStored
    case Some(b) =>
      if EmptyEntry(b) then NothingStored
      else
        match Decrypt(b, key)
        case None => Undecodable
        case Some(s) =>
          FirstMatchSound(emails, users, s.accessToken);
          match FirstMatch(emails, users, s.accessToken)
          case None => UnknownToken(s)
          case Some(e) => if e == "" then UnknownToken(s) else Restored(e, s)
  }

  /** The OS keyring entries of the application's namespace. */
  class Keyring {
    var encryptionKey: Option<string>
    var session: Option<Blob>

    constructor (encryptionKey: Option<string>, session: Option<Blob>)
      ensures this.encryptionKey == encryptionKey && this.session == session
    {
      this.encryptionKey := encryptionKey;
      this.session := session;
    }

    /** Returns the stored key; a missing or empty one is replaced by
        `generated`, which is stored first. */
    method GetOrCreateKey(generated: string) returns (key: string)
      modifies this`encryptionKey
      ensures old(encryptionKey).Some? && old(encryptionKey).value != "" ==>
                key == old(encryptionKey).value && encryptionKey == old(encryptionKey)
      ensures old(encryptionKey).None? || old(encryptionKey).value == "" ==>
                key == generated && encryptionKey == Some(generated)
    {
      if encryptionKey.Some? && encryptionKey.value != "" {
        key := encryptionKey.value;
      } else {
        key := generated;
        encryptionKey := Some(generated);
      }
    }
  }

  class SupabaseService {
    const keyring: Keyring
    const encryptionKey: string
    const demoMode: bool
    /** `demo_users`: iteration order and contents. */
    var emails: seq<string>
    var users: map<string, Record>
    var currentUser: Option<User>
    var currentSession: Option<Session>
    var events: seq<Event>

    ghost predicate Valid()
      reads this
    {
      && demoMode
      && Listed(emails, users)
      && DemoEmail in users && ProEmail in users
      // signed in or signed out: a current session always belongs to the current user
      && (currentUser.Some? <==> currentSession.Some?)
      && (currentUser.Some? ==> currentSession.value.accessToken == TokenFor(currentUser.value.id))
    }

    /** Selects the mode, loads or creates the encryption key, seeds the
        table with two accounts and tries to restore a saved session. */
    constructor (config: AppConfig.Config, connectFailed: bool, ring: Keyring,
                 generatedKey: string, demoId: string, proId: string)
      requires DemoModeDetected(config, connectFailed)
      modifies ring
      ensures Valid() && keyring == ring
      ensures emails == SeedOrder && users == SeedUsers(demoId, proId)
      ensures old(ring.encryptionKey).Some? && old(ring.encryptionKey).value != "" ==>
                encryptionKey == old(ring.encryptionKey).value
      ensures old(ring.encryptionKey).None? || old(ring.encryptionKey).value == "" ==>
                encryptionKey == generatedKey
      ensures ring.encryptionKey == Some(encryptionKey)
      ensures var o := ClassifyRestore(old(ring.session), encryptionKey, emails, users);
              && (o.Restored? ==>
                    && currentUser == Some(UserOf(o.email, users[o.email]))
                    && currentSession == Some(o.session)
                    && events == [StateChanged(currentUser, currentSession, Some(users[o.email].role))])
              && (!o.Restored? ==> currentUser == None && currentSession == None && events == [])
              && ring.session == (if o.Undecodable? then None else old(ring.session))
    {
      var key := ring.GetOrCreateKey(generatedKey);
      keyring := ring;
      encryptionKey := key;
      demoMode := DemoModeDetected(config, connectFailed);
      emails := SeedOrder;
      users := SeedUsers(demoId, proId);
      currentUser := None;
      currentSession := None;
      events := [];
      new;
      var restored := RestoreSession();
    }

    /** Writes the encrypted session to the keyring only when `remember`.
        `failure` is the exception that building the cipher from the stored
        key or writing the keyring raises, if any: the slot is then left as
        it was and the exception's message is returned. */
    method SaveSession(session: Session, remember: bool, failure: Option<string>) returns (raised: Option<string>)
      modifies keyring`session
      ensures raised == if remember then failure else None
      ensures keyring.session == if remember && failure.None? then Some(Encrypt(session, encryptionKey))
                                 else old(keyring.session)
    {
      raised := None;
      if remember {
        if failure.Some? {
          return failure;
        }
        keyring.session := Some(Encrypt(session, encryptionKey));
      }
    }

    /** The restore loop: the first email, in table order, whose token is
        `token`. */
    method FindUserByToken(token: string) returns (found: Option<string>)
      requires Valid()
      ensures found == FirstMatch(emails, users, token)
    {
      found := None;
      var i := 0;
      while i < |emails|
        invariant 0 <= i <= |emails|
        invariant forall j :: 0 <= j < i ==> !TokenMatches(users, emails[j], token)
      {
        if TokenFor(users[emails[i]].userId) == token {
          found := Some(emails[i]);
          break;
        }
        i := i + 1;
      }
    }

    /** Restores the user of a saved demo session. An undecodable slot is
        cleared together with the in-memory state; an empty slot, or a token
        that leads to no account with a non-empty email, changes nothing. */
    method RestoreSession() returns (restored: bool)
      requires Valid()
      modifies this, keyring`session
      ensures Valid()
      ensures emails == old(emails) && users == old(users)
      ensures var o := ClassifyRestore(old(keyring.session), encryptionKey, emails, users);
              && restored == o.Restored?
              && (o.Restored? ==>
                    && currentUser == Some(UserOf(o.email, users[o.email]))
                    && currentSession == Some(o.session)
                    && keyring.session == old(keyring.session)
                    && events == old(events) + [StateChanged(currentUser, currentSession, Some(users[o.email].role))])
              && (o.Undecodable? ==>
                    && currentUser == None && currentSession == None
                    && keyring.session == None && events == old(events))
              && ((o.NothingStored? || o.UnknownToken?) ==>
                    && currentUser == old(currentUser) && currentSession == old(currentSession)
                    && keyring.session == old(keyring.session) && events == old(events))
    {
      restored := false;
      if keyring.session.None? || EmptyEntry(keyring.session.value) {
        return;
      }
      var decoded := Decrypt(keyring.session.value, encryptionKey);
      if decoded.None? {
        ClearSession();
        return;
      }
      var session := decoded.value;
      var email := FindUserByToken(session.accessToken);
      if email.Some? && email.value != "" {
        var record := users[email.value];
        currentUser := Some(UserOf(email.value, record));
        currentSession := Some(session);
        events := events + [StateChanged(currentUser, currentSession, Some(record.role))];
        restored := true;
      }
    }

    /** Deletes the stored session and signs out locally. */
    method ClearSession()
      modifies this`currentUser, this`currentSession, keyring`session
      ensures keyring.session == None && currentUser == None && currentSession == None
    {
      keyring.session := None;
      currentUser := None;
      currentSession := None;
    }

    /** Registers a new account with role FREE and signs it in; an email
        already in the table is refused and nothing but the error changes. */
    method SignUp(email: string, password: string, username: string, freshId: string, now: int)
      requires Valid()
      modifies this
      ensures Valid()
      ensures email in old(users) ==>
                && emails == old(emails) && users == old(users)
                && currentUser == old(currentUser) && currentSession == old(currentSession)
                && events == old(events) + [AuthError(EmailTakenMessage)]
      ensures email !in old(users) ==>
                && emails == old(emails) + [email]
                && users == old(users)[email := Record(password, freshId, username, Free)]
                && currentUser == Some(User(freshId, email, username))
                && currentSession == Some(SessionFor(freshId, now))
                && events == old(events) + [StateChanged(currentUser, currentSession, None)]
      ensures DistinctIds(old(users)) && !IdInUse(old(users), freshId) ==> DistinctIds(users)
    {
      if email in users {
        events := events + [AuthError(EmailTakenMessage)];
        return;
      }
      InsertKeepsListed(emails, users, email, Record(password, freshId, username, Free));
      if DistinctIds(users) && !IdInUse(users, freshId) {
        InsertKeepsIdsDistinct(users, email, Record(password, freshId, username, Free));
      }
      users := users[email := Record(password, freshId, username, Free)];
      emails := emails + [email];
      currentUser := Some(User(freshId, email, username));
      currentSession := Some(SessionFor(freshId, now));
      events := events + [StateChanged(currentUser, currentSession, None)];
    }

    /** Signs in when the email is known and the password matches; saves the
        session only when `remember`. A refused attempt changes nothing but
        the error it emits. When saving raises (`saveFailure`), the user and
        session are already set: the exception's message is emitted instead
        of the state change and the result is false. */
    method SignIn(email: string, password: string, remember: bool, now: int, saveFailure: Option<string>)
      returns (ok: bool)
      requires Valid()
      modifies this, keyring`session
      ensures Valid()
      ensures emails == old(emails) && users == old(users)
      ensures ok <==> email in users && users[email].password == password && !(remember && saveFailure.Some?)
      ensures !(email in users && users[email].password == password) ==>
                && currentUser == old(currentUser) && currentSession == old(currentSession)
                && keyring.session == old(keyring.session)
                && events == old(events) + [AuthError(BadCredentialsMessage)]
      ensures email in users && users[email].password == password ==>
                && currentUser == Some(UserOf(email, users[email]))
                && currentSession == Some(SessionFor(users[email].userId, now))
      ensures email in users && users[email].password == password && remember && saveFailure.Some? ==>
                && keyring.session == old(keyring.session)
                && events == old(events) + [AuthError(saveFailure.value)]
      ensures ok ==>
                && keyring.session == (if remember then Some(Encrypt(currentSession.value, encryptionKey))
                                       else old(keyring.session))
                && events == old(events) + [StateChanged(currentUser, currentSession, Some(users[email].role))]
    {
      if email !in users || users[email].password != password {
        events := events + [AuthError(BadCredentialsMessage)];
        return false;
      }
      var record := users[email];
      var session := SessionFor(record.userId, now);
      currentUser := Some(UserOf(email, record));
      currentSession := Some(session);
      if remember {
        var raised := SaveSession(session, remember, saveFailure);
        if raised.Some? {
          events := events + [AuthError(raised.value)];
          return false;
        }
      }
      events := events + [StateChanged(currentUser, currentSession, Some(record.role))];
      ok := true;
    }

    /** Demo OAuth: whatever the provider, signs in the fixed PRO account
        without a browser and without saving the session. */
    method SignInWithOAuth(provider: string, useBrowser: bool, now: int) returns (ok: bool)
      requires Valid()
      modifies this
      ensures Valid()
      ensures ok
      ensures emails == old(emails) && users == old(users)
      ensures currentUser == Some(UserOf(ProEmail, users[ProEmail]))
      ensures currentSession == Some(SessionFor(users[ProEmail].userId, now))
      ensures events == old(events) + [StateChanged(currentUser, currentSession, Some(users[ProEmail].role))]
    {
      var record := users[ProEmail];
      currentUser := Some(UserOf(ProEmail, record));
      currentSession := Some(SessionFor(record.userId, now));
      events := events + [StateChanged(currentUser, currentSession, Some(record.role))];
      ok := true;
    }

    /** Demo password reset only checks that the account exists. */
    method SendPasswordResetEmail(email: string) returns (ok: bool)
      requires Valid()
      modifies this`events
      ensures ok <==> email in users
      ensures events == if ok then old(events) else old(events) + [AuthError(EmailNotFoundMessage)]
    {
      if email in users {
        return true;
      }
      events := events + [AuthError(EmailNotFoundMessage)];
      return false;
    }

    /** In demo mode the OAuth callback has nothing left to do: it reports
        success and, even with `remember`, saves nothing. */
    method HandleOAuthCallback(url: string, remember: bool) returns (ok: bool)
      requires Valid()
      ensures ok
    {
      ok := true;
    }

    /** Clears the stored and in-memory session and announces the signed-out
        state; the table is untouched. */
    method SignOut() returns (ok: bool)
      requires Valid()
      modifies this, keyring`session
      ensures Valid()
      ensures ok
      ensures emails == old(emails) && users == old(users)
      ensures currentUser == None && currentSession == None && keyring.session == None
      ensures events == old(events) + [StateChanged(None, None, None)]
    {
      ClearSession();
      events := events + [StateChanged(None, None, None)];
      ok := true;
    }

    /** No role when signed out; the account's role when the signed-in email
        is non-empty and in the table; otherwise the default FREE. */
    method GetUserRole() returns (role: Option<Role>)
      ensures currentUser.None? ==> role == None
      ensures currentUser.Some? && currentUser.value.email != "" && currentUser.value.email in users ==>
                role == Some(users[currentUser.value.email].role)
      ensures currentUser.Some? && (currentUser.value.email == "" || currentUser.value.email !in users) ==>
                role == Some(Free)
    {
      if currentUser.None? {
        return None;
      }
      var email := currentUser.value.email;
      if email != "" && email in users {
        return Some(users[email].role);
      }
      return Some(Free);
    }

    /** Sets the signed-in account's role to PRO in place and announces it;
        fails without any change when signed out or when the signed-in email
        is empty or not in the table. */
    method UpgradeToPro() returns (ok: bool)
      requires Valid()
      modifies this`users, this`events
      ensures Valid()
      ensures ok <==> currentUser.Some? && currentUser.value.email != "" && currentUser.value.email in old(users)
      ensures ok ==>
                && users == old(users)[currentUser.value.email := old(users)[currentUser.value.email].(role := Pro)]
                && events == old(events) + [StateChanged(currentUser, currentSession, Some(Pro))]
      ensures !ok ==> users == old(users) && events == old(events)
      ensures DistinctIds(old(users)) ==> DistinctIds(users)
    {
      if currentUser.None? {
        return false;
      }
      var email := currentUser.value.email;
      if email != "" && email in users {
        users := users[email := users[email].(role := Pro)];
        events := events + [StateChanged(currentUser, currentSession, Some(Pro))];
        return true;
      }
      return false;
    }
  }
}
