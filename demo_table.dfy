/**
 The in-memory user table of the demo-mode mock backend
 (app/services/supabase_service.py): its records, the user and session
 values built from a record, the token format that ties a session back to
 a record, and the first-match token search of session restoration.
 */
module DemoTable {
  import opened Wrappers

  datatype Role = Free | Pro

  /** One `demo_users` entry, keyed elsewhere by email. The password is kept
      in plain text, as the demo store does. */
  datatype Record = Record(password: string, userId: string, username: string, role: Role)

  /** The mock user dictionary `{id, email, user_metadata: {username}}`. */
  datatype User = User(id: string, email: string, username: string)

  /** The session dictionary `{access_token, refresh_token, expires_at}`. */
  datatype Session = Session(accessToken: string, refreshToken: string, expiresAt: int)

  const DemoEmail: string := "demo@example.com"
  const ProEmail: string := "pro@example.com"
  const SeedPassword: string := "password123"
  const TokenPrefix: string := "demo-token-"
  const RefreshPrefix: string := "demo-refresh-"
  /** Seconds a demo session is declared valid for. */
  const SessionLifetime: int := 3600

  /** The access token of a demo session for user `id`. */
  function TokenFor(id: string): string {
    TokenPrefix + id
  }

  function UserOf(email: string, r: Record): User {
    User(r.userId, email, r.username)
  }

  /** The session minted by demo sign-up, sign-in and OAuth at time `now`. */
  function SessionFor(id: string, now: int): Session {
    Session(TokenFor(id), RefreshPrefix + id, now + SessionLifetime)
  }

  /** The table as first built: two seed accounts with freshly generated ids. */
  function SeedUsers(demoId: string, proId: string): map<string, Record> {
    map[DemoEmail := Record(SeedPassword, demoId, "demo_user", Free),
        ProEmail := Record(SeedPassword, proId, "pro_user", Pro)]
  }

  /** Insertion order of the seed table. */
  const SeedOrder: seq<string> := [DemoEmail, ProEmail]

  /** Every email of the iteration order is a key of the table. */
  predicate AllKeyed(emails: seq<string>, users: map<string, Record>) {
    forall i :: 0 <= i < |emails| ==> emails[i] in users
  }

  /** `emails` is the dictionary's iteration order: each key exactly once. */
  predicate Listed(emails: seq<string>, users: map<string, Record>) {
    && AllKeyed(emails, users)
    && (forall i, j :: 0 <= i < j < |emails| ==> emails[i] != emails[j])
    && (forall e :: e in users ==> e in emails)
  }

  predicate IdInUse(users: map<string, Record>, id: string) {
    exists e :: e in users && users[e].userId == id
  }

  /** No two accounts share an id (what uuid4 gives in practice). */
  predicate DistinctIds(users: map<string, Record>) {
    forall e1, e2 :: e1 in users && e2 in users && e1 != e2 ==> users[e1].userId != users[e2].userId
  }

  predicate TokenMatches(users: map<string, Record>, e: string, token: string)
    requires e in users
  {
    TokenFor(users[e].userId) == token
  }

  /** Position of the first email, in iteration order, whose account's token
      is `token`; `|emails|` when there is none. */
  function MatchIndex(emails: seq<string>, users: map<string, Record>, token: string): (k: nat)
    requires AllKeyed(emails, users)
    ensures k <= |emails|
    ensures forall j :: 0 <= j < k ==> !TokenMatches(users, emails[j], token)
    ensures k < |emails| ==> TokenMatches(users, emails[k], token)
    decreases |emails|
  {
    if emails == [] then 0
    else if TokenMatches(users, emails[0], token) then 0
    else 1 + MatchIndex(emails[1..], users, token)
  }

  /** The email the restore loop settles on for `token`, if any. */
  function FirstMatch(emails: seq<string>, users: map<string, Record>, token: string): Option<string>
    requires AllKeyed(emails, users)
  {
    var k := MatchIndex(emails, users, token);
    if k < |emails| then Some(emails[k]) else None
  }

  /** The search finds something exactly when some account owns the token,
      and what it finds owns it. */
  lemma FirstMatchSound(emails: seq<string>, users: map<string, Record>, token: string)
    requires AllKeyed(emails, users)
    ensures FirstMatch(emails, users, token).Some? <==>
              exists i :: 0 <= i < |emails| && TokenMatches(users, emails[i], token)
    ensures FirstMatch(emails, users, token).Some? ==>
              FirstMatch(emails, users, token).value in users &&
              TokenMatches(users, FirstMatch(emails, users, token).value, token)
  {
  }

  /** Different ids give different tokens. */
  lemma TokenForInjective(a: string, b: string)
    requires TokenFor(a) == TokenFor(b)
    ensures a == b
  {
    assert a == TokenFor(a)[|TokenPrefix|..];
    assert b == TokenFor(b)[|TokenPrefix|..];
  }

  /** With distinct ids, a record's own token leads the search back to that
      record: this is what lets a saved demo session be restored. */
  lemma OwnTokenFindsOwner(emails: seq<string>, users: map<string, Record>, e: string)
    requires Listed(emails, users) && DistinctIds(users) && e in users
    ensures FirstMatch(emails, users, TokenFor(users[e].userId)) == Some(e)
  {
    var token := TokenFor(users[e].userId);
    var i :| 0 <= i < |emails| && emails[i] == e;
    var k := MatchIndex(emails, users, token);
    assert TokenMatches(users, emails[i], token);
    assert k <= i;
    TokenForInjective(users[emails[k]].userId, users[e].userId);
  }

  /** A token minted for an id that no account holds matches nothing. */
  lemma ForeignTokenFindsNothing(emails: seq<string>, users: map<string, Record>, id: string)
    requires AllKeyed(emails, users) && !IdInUse(users, id)
    ensures FirstMatch(emails, users, TokenFor(id)) == None
  {
    var k := MatchIndex(emails, users, TokenFor(id));
    if k < |emails| {
      TokenForInjective(users[emails[k]].userId, id);
      assert false;
    }
  }

  /** Adding an account under a new email with an unused id keeps ids distinct. */
  lemma InsertKeepsIdsDistinct(users: map<string, Record>, email: string, r: Record)
    requires DistinctIds(users) && email !in users && !IdInUse(users, r.userId)
    ensures DistinctIds(users[email := r])
  {
  }

  /** Inserting a new email at the end of the iteration order keeps the order
      and the table in step. */
  lemma InsertKeepsListed(emails: seq<string>, users: map<string, Record>, email: string, r: Record)
    requires Listed(emails, users) && email !in users
    ensures Listed(emails + [email], users[email := r])
  {
  }
}
