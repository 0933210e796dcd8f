/**
 Clients of the demo-mode service that chain its operations. Each is
 verified from the operations' contracts alone, and its postcondition is a
 promise the service makes across several calls.
 */
module Scenarios {
  import opened Wrappers
  import opened DemoTable
  import opened SessionCodec
  import opened AuthService
  import AppConfig

  /** A remembered sign-in is restored to the same account while the table
      is unchanged and its ids are distinct. */
  method RememberedSignInRestores(svc: SupabaseService, email: string, password: string, now: int)
    returns (restored: bool)
    requires svc.Valid() && DistinctIds(svc.users)
    requires email != "" && email in svc.users && svc.users[email].password == password
    modifies svc, svc.keyring`session
    ensures restored
    ensures svc.users == old(svc.users)
    ensures svc.currentUser == Some(UserOf(email, svc.users[email]))
    ensures svc.currentSession == Some(SessionFor(svc.users[email].userId, now))
  {
    var ok := svc.SignIn(email, password, true, now, None);
    OwnTokenFindsOwner(svc.emails, svc.users, email);
    restored := svc.RestoreSession();
  }

  /** An account registered under the empty email can sign in and have its
      session saved, but restoring that session finds the account and then
      refuses it: nothing changes and the result is false. */
  method EmptyEmailIsNotRestored(svc: SupabaseService, password: string, username: string,
                                 freshId: string, now: int)
    returns (restored: bool)
    requires svc.Valid() && DistinctIds(svc.users)
    requires "" !in svc.users && !IdInUse(svc.users, freshId)
    modifies svc, svc.keyring`session
    ensures !restored
    ensures svc.currentUser == Some(User(freshId, "", username))
    ensures svc.keyring.session == Some(Encrypt(SessionFor(freshId, now), svc.encryptionKey))
    ensures svc.currentSession == Some(SessionFor(freshId, now))
    ensures svc.users == old(svc.users)["" := Record(password, freshId, username, Free)]
    ensures svc.events == old(svc.events) + [
              StateChanged(Some(User(freshId, "", username)), Some(SessionFor(freshId, now)), None),
              StateChanged(Some(User(freshId, "", username)), Some(SessionFor(freshId, now)), Some(Free))]
  {
    svc.SignUp("", password, username, freshId, now);
    var ok := svc.SignIn("", password, true, now, None);
    OwnTokenFindsOwner(svc.emails, svc.users, "");
    restored := svc.RestoreSession();
  }

  /** Restoring twice in a row ends in the same user, session, keyring slot
      and table as restoring once. */
  method RestoreTwice(svc: SupabaseService)
    returns (first: bool, second: bool, userOnce: Option<User>, sessionOnce: Option<Session>, slotOnce: Option<Blob>)
    requires svc.Valid()
    modifies svc, svc.keyring`session
    ensures first == second
    ensures svc.currentUser == userOnce && svc.currentSession == sessionOnce && svc.keyring.session == slotOnce
    ensures svc.users == old(svc.users) && svc.emails == old(svc.emails)
  {
    first := svc.RestoreSession();
    userOnce, sessionOnce, slotOnce := svc.currentUser, svc.currentSession, svc.keyring.session;
    second := svc.RestoreSession();
  }

  /** After a successful upgrade the next role lookup reports PRO; signed
      out, the upgrade fails, changes nothing, and the lookup reports none. */
  method UpgradeThenLookUpRole(svc: SupabaseService) returns (ok: bool, role: Option<Role>)
    requires svc.Valid()
    modifies svc`users, svc`events
    ensures ok ==> role == Some(Pro)
    ensures old(svc.currentUser).None? ==>
              !ok && role == None && svc.users == old(svc.users) && svc.events == old(svc.events)
  {
    ok := svc.UpgradeToPro();
    role := svc.GetUserRole();
  }

  /** Signing out after any sequence of calls leaves the user, the session
      and the slot empty and the table as it was. */
  method SignInThenSignOut(svc: SupabaseService, email: string, password: string, remember: bool, now: int,
                           saveFailure: Option<string>)
    returns (signedIn: bool)
    requires svc.Valid()
    modifies svc, svc.keyring`session
    ensures svc.currentUser == None && svc.currentSession == None && svc.keyring.session == None
    ensures svc.users == old(svc.users) && svc.emails == old(svc.emails)
  {
    signedIn := svc.SignIn(email, password, remember, now, saveFailure);
    var ok := svc.SignOut();
  }

  /** A restart is a new service over the same keyring. Demo seed ids are
      generated anew at every start, so a session remembered for the demo
      account is not restored when the new ids differ from the old one; it
      is when they happen to be the same. Either way the slot is kept. */
  method RestartAfterRememberedSignIn(ring: Keyring, generatedKey: string, demoId: string, proId: string,
                                      newDemoId: string, newProId: string, now: int)
    returns (before: SupabaseService, after: SupabaseService)
    requires generatedKey != "" && demoId != proId
    modifies ring
    ensures after.keyring == ring && after.encryptionKey == before.encryptionKey
    ensures ring.session == Some(Encrypt(SessionFor(demoId, now), before.encryptionKey))
    ensures newDemoId != demoId && newProId != demoId ==> after.currentUser == None
    ensures newDemoId == demoId && newProId == proId ==>
              after.currentUser == Some(User(demoId, DemoEmail, "demo_user"))
  {
    before := new SupabaseService(AppConfig.DemoConfig, false, ring, generatedKey, demoId, proId);
    var ok := before.SignIn(DemoEmail, SeedPassword, true, now, None);
    var saved := ring.session;
    assert ring.encryptionKey == Some(before.encryptionKey) && before.encryptionKey != "";
    if newDemoId != demoId && newProId != demoId {
      ForeignTokenFindsNothing(SeedOrder, SeedUsers(newDemoId, newProId), demoId);
    }
    if newDemoId == demoId && newProId == proId {
      OwnTokenFindsOwner(SeedOrder, SeedUsers(demoId, proId), DemoEmail);
    }
    after := new SupabaseService(AppConfig.DemoConfig, false, ring, generatedKey, newDemoId, newProId);
  }

  /** Without "remember me", a restart from an empty slot is signed out. */
  method RestartAfterForgottenSignIn(ring: Keyring, generatedKey: string, demoId: string, proId: string,
                                     newDemoId: string, newProId: string, now: int)
    returns (after: SupabaseService)
    requires ring.session == None
    modifies ring
    ensures after.currentUser == None && after.currentSession == None && ring.session == None
  {
    var before := new SupabaseService(AppConfig.DemoConfig, false, ring, generatedKey, demoId, proId);
    var ok := before.SignIn(DemoEmail, SeedPassword, false, now, None);
    after := new SupabaseService(AppConfig.DemoConfig, false, ring, generatedKey, newDemoId, newProId);
  }
}
