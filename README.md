# Demo-mode authentication of the CS2 login client, in Dafny

The desktop login client talks to a Supabase backend through `SupabaseService`. When no backend is configured, or the connection fails, the service runs in **demo mode**. In demo mode it keeps an in-memory table of accounts (`demo_users`), the signed-in user and session, and one persisted slot in the OS keyring that holds the encrypted "remember me" session. This project models that state machine and the configuration loader that selects it:

- `AppConfig` (`wrappers.dfy`, `app_config.dfy`): `load_config`. Environment values are parameters. A missing or empty URL or key gives the placeholder pair `https://demo.supabase.co` / `demo-anon-key`.
- `DemoTable` (`demo_table.dfy`): account records, the user and session values built from them, and the token format `"demo-token-" + id` / `"demo-refresh-" + id`. It also holds the first-match search that maps a stored token back to an account. The table is a `map` keyed by email plus a `seq` with the dictionary's insertion order, because the search returns the *first* match in that order.
- `SessionCodec` (`session_codec.dfy`): JSON encoding plus Fernet encryption under the installation key, modelled as a sealed value. A slot that does not decode under the current key is an `Unreadable` blob.
- `AuthService` (`auth_service.dfy`): `Keyring` holds the two keyring entries, `encryption_key` and `session`. The class `SupabaseService` holds `current_user`, `current_session`, the table and an `events` log. Each emitted `auth_state_changed` / `auth_error` signal is appended to that log. Every method states its complete new state in terms of the old one. The object invariant `Valid()` keeps the service either signed out (no user, no session) or signed in with a session whose token is `demo-token-` + that user's id.
- `Scenarios` (`scenarios.dfy`): client methods that chain operations. Each is proved from the operations' contracts alone, for example:
  - remember-me followed by restore;
  - restoring twice;
  - upgrading and then looking up the role;
  - restarting over the same keyring.

Demo-mode behaviour of the code that the model reproduces and that a reader might not expect:

- **Restart after remember-me.** The constructor calls `_restore_session` (app/services/supabase_service.py:62-63). That method maps a stored `demo-token-` token back to its account (:111-120). But every start generates new seed ids with `uuid4` and loses accounts created by sign-up. A remembered demo token therefore matches no account after a restart, unless the ids happen to repeat. `Scenarios.RestartAfterRememberedSignIn` proves both cases. In both cases the slot is kept.
- **Upgrade failure.** A failed `sign_in` or `sign_up` emits `auth_error`. A failed `upgrade_to_pro` does not: it returns `False` and emits nothing.
- **Return value of `sign_up`.** Demo `sign_up` returns `None` on both paths, so `SignUp` has no result.
- **Remember unset.** Signing in with `remember` unset leaves an older stored session in the keyring. It does not delete it.
- **Expiry.** `expires_at` is never checked when a session is restored.
- **Empty email.** `_restore_session`, `get_user_role` and `upgrade_to_pro` treat an empty email as absent (Python's `if user_email:` / `user_email and ...`). An account registered under `""` therefore reads as FREE, cannot be upgraded, and its remembered session is never restored (`Scenarios.EmptyEmailIsNotRestored`).
- **Empty keyring entry.** An empty `session` entry is skipped like a missing one (`if encrypted_data:`). It is neither decrypted nor cleared.
- **Failed save at sign-in.** `sign_in` sets the user and session before saving a remembered session. If saving raises, the user stays signed in in memory, but `auth_error` carries the exception's message and the result is `False`. This can happen when building the cipher from the stored key fails, or when the keyring write fails. The failure is the `saveFailure` input.

## Model

| member | source | states |
|---|---|---|
| `AppConfig.LoadConfig` | app/utils/config.py:13-30 | A missing or empty URL or key gives the demo placeholder pair, even when the other value was given. Two non-empty values are returned unchanged. The result never has an empty field. |
| `AuthService.LoadedConfigSelectsMode` | app/services/supabase_service.py:25-40 | Stated about `DemoModeDetected`, the mode selection: missing configuration always selects demo mode. A fully given configuration selects it only if it equals the placeholder pair or the connection failed (both directions). |
| `DemoTable.MatchIndex` | app/services/supabase_service.py:116-120 | The position of the first email, in table order, whose account's token is the given token, or the table length when none matches. |
| `DemoTable.FirstMatchSound` | app/services/supabase_service.py:116-122 | The search finds an email exactly when some account owns the token, and the email it finds owns it. |
| `DemoTable.TokenForInjective` | app/services/supabase_service.py:211-213 | Two ids with the same `demo-token-` token are the same id. |
| `DemoTable.OwnTokenFindsOwner` | app/services/supabase_service.py:110-124 | If ids are distinct, an account's own token leads the search back to that account. |
| `DemoTable.ForeignTokenFindsNothing` | app/services/supabase_service.py:116-122 | A token minted for an id that no account holds matches nothing. |
| `DemoTable.InsertKeepsIdsDistinct` | app/services/supabase_service.py:196-202 | Adding an account under a new email with an unused id keeps ids distinct. |
| `DemoTable.InsertKeepsListed` | app/services/supabase_service.py:196-202 | Inserting a new email appends it to the iteration order, and the order stays in step with the table. |
| `SessionCodec.Decrypt` | app/services/supabase_service.py:104-107 | Decoding succeeds exactly for a blob sealed under the current key, and yields what was sealed. A changed key or an unreadable blob fails. |
| `SessionCodec.Encrypt` | app/services/supabase_service.py:86-90 | Round trip: decrypting with the same key gives the session back, and decrypting with any other key fails. |
| `AuthService.ClassifyRestore` | app/services/supabase_service.py:100-122 | The outcome of a restore attempt is one of four. (1) Nothing stored: the slot is missing or empty. (2) Undecodable: the slot does not decrypt under the current key. (3) Unknown token: the decoded token matches no account, or its first match is the empty email. (4) Restored: the first match is a non-empty email whose account owns the token. |
| `AuthService.Keyring.GetOrCreateKey` | app/services/supabase_service.py:65-74 | A stored non-empty key is returned unchanged. Otherwise the generated key is stored and returned, so repeated calls agree. |
| `AuthService.SupabaseService.constructor` | app/services/supabase_service.py:20-63 | Demo mode starts with the two seed accounts in insertion order and the loaded or created key. The saved session is then restored or not, by the restore outcome, starting from a signed-out state. |
| `AuthService.SupabaseService.SaveSession` | app/services/supabase_service.py:76-94 | When `remember` is set and nothing raises, the slot becomes the encrypted session. Otherwise the slot is left as it was. The exception is passed on exactly when `remember` is set. |
| `AuthService.SupabaseService.FindUserByToken` | app/services/supabase_service.py:116-120 | The loop that breaks at the first match returns exactly the first email whose token matches, or none. |
| `AuthService.SupabaseService.RestoreSession` | app/services/supabase_service.py:96-167 | Three outcomes. On a first match under a non-empty email, it sets that account's user and the stored session and emits its role. An undecodable slot clears the slot, the user and the session. A missing or empty slot, an unknown token, or a match on the empty email changes nothing. The table is never changed. |
| `AuthService.SupabaseService.ClearSession` | app/services/supabase_service.py:169-180 | The slot, user and session become empty. Nothing else changes. |
| `AuthService.SupabaseService.SignUp` | app/services/supabase_service.py:182-228 | A known email emits "Email already registered" and leaves the table, user and session as they were. A new email adds exactly one FREE record at the end of the order and signs it in with the `demo-token-`/`demo-refresh-` session, emitting no role. Ids stay distinct when the fresh id is unused. |
| `AuthService.SupabaseService.SignIn` | app/services/supabase_service.py:269-352 | Bad credentials emit "Invalid email or password" and change no state. Good credentials always set the account's user and session. If a remembered save raises, the slot is kept, the exception's message is emitted and the result is false. Otherwise the result is true, the account's role is emitted, and the slot is written exactly when `remember` is set. |
| `AuthService.SupabaseService.SignInWithOAuth` | app/services/supabase_service.py:354-393 | Ignores the provider, always succeeds, and signs in `pro@example.com` with that record's role. It does not touch the slot. |
| `AuthService.SupabaseService.SendPasswordResetEmail` | app/services/supabase_service.py:416-429 | Succeeds exactly for a known email. Otherwise it emits "Email not found". Only the event log can change. |
| `AuthService.SupabaseService.HandleOAuthCallback` | app/services/supabase_service.py:441-450 | Reports success and changes nothing, even with `remember` set. |
| `AuthService.SupabaseService.SignOut` | app/services/supabase_service.py:485-504 | Always succeeds. User, session and slot become empty, the table is unchanged, and a signed-out state change is emitted. |
| `AuthService.SupabaseService.GetUserRole` | app/services/supabase_service.py:511-528 | No role when signed out. The record's role for a non-empty email in the table. FREE otherwise. |
| `AuthService.SupabaseService.UpgradeToPro` | app/services/supabase_service.py:548-573 | Succeeds exactly when signed in under a non-empty email in the table. It then sets only that record's role to PRO and emits PRO. Otherwise it changes nothing. |
| `Scenarios.RememberedSignInRestores` | app/services/supabase_service.py:309-310 | With an unchanged table and distinct ids, a remembered sign-in under a non-empty email, followed by restore, yields the same user and session. |
| `Scenarios.EmptyEmailIsNotRestored` | app/services/supabase_service.py:116-124 | An account registered under the empty email can sign up and sign in with remember-me. Restoring its saved session is then refused (`if user_email:`). The restore changes nothing: the user, the session, the slot, the table (the old one plus the new FREE record) and the two state-change events of sign-up and sign-in are exactly what those two calls left. |
| `Scenarios.RestoreTwice` | app/services/supabase_service.py:96-167 | A second restore leaves user, session, slot and table exactly as the first left them. |
| `Scenarios.UpgradeThenLookUpRole` | app/services/supabase_service.py:548-573 | After a successful upgrade the next role lookup returns PRO. When signed out, the upgrade fails, changes nothing, and the lookup returns none. |
| `Scenarios.SignInThenSignOut` | app/services/supabase_service.py:485-504 | After any sign-in attempt, including one whose save raised, signing out leaves user, session and slot empty and the table unchanged. |
| `Scenarios.RestartAfterRememberedSignIn` | app/services/supabase_service.py:47-63 | A restart with new seed ids does not restore a remembered demo sign-in. A restart with the same ids does. The remembered session stays in the slot either way. |
| `Scenarios.RestartAfterForgottenSignIn` | app/services/supabase_service.py:82-94 | Without remember-me, a restart from an empty slot is signed out. |

## Left out

- Live-backend branches (`create_client`, `client.auth.*`, `client.table(...)`, `handle_oauth_callback`'s session parsing) are network calls to an external service. The constructor therefore requires demo mode, and the connection failure that falls back to it is a boolean input.
- Fernet and JSON are modelled as an exact sealed value. The model does not capture that every encryption produces a different ciphertext, or the byte-level format. Anything that fails to decrypt, including a JSON payload that is not a session object, is an `Unreadable` blob. The empty entry `Unreadable("")` is the one blob that restoration skips rather than decrypts.
- An unavailable keyring is modelled only for the save at sign-in (`saveFailure`). A read failure in `_restore_session`, which would clear the in-memory state, is not modelled. `clear_session` swallows errors from `keyring.delete_password`, and the model deletes unconditionally.
- A decoded session object is either a full session or `Unreadable`. A validly encrypted JSON object that lacks `refresh_token` or `expires_at`, or whose `access_token` is not a string, is kept by the source but cleared as `Unreadable` by the model. This is reachable only by writing the keyring under the installation key.
- A decoded session object without `access_token` is read as token `""` in the source. That case is the same as a sealed session whose token is `""`, which matches no demo token.
- `uuid.uuid4()`, `time.time()`, `Fernet.generate_key()` and `os.getenv` are parameters: `freshId`, the seed ids, `now`, `generatedKey`, and the `Option` values of `LoadConfig`.
- `webbrowser.open`, logging and the console warnings of `load_config` are I/O.
- Qt signal delivery to observers is not modelled. Signals are appended to `events`.
- The UI screens, widgets, main window, `main.py` and logging setup are not part of this model.
