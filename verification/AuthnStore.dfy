/** The tables of the authentication domain and the errors its use cases answer with.
    A unique index of the database is a map from the indexed value to the row's key. */
module AuthnStore {
  import opened Prelude

  type UserId = nat
  type SessionId = nat

  /** The all-zero identifier, which no access claim may carry. */
  const NIL: nat := 0

  /** A stored hash, identified with what it was computed from: SHA-256 of a token and
      argon2id of a password are taken to be injective. */
  datatype Digest = Digest(preimage: string)

  datatype Status = Pending | Active | Suspended | Deleted

  datatype Provider = Local | Email

  datatype Purpose = ForVerifyEmail | ForResetPassword

  datatype User = User(
    username: string,
    email: Option<string>,
    status: Status,
    tokenVersion: int,
    password: Digest)

  datatype Session = Session(
    user: UserId,
    refreshHash: Digest,
    tokenVersion: int,
    expiresAt: int,
    revokedAt: Option<int>)

  datatype AuthToken = AuthToken(
    user: UserId,
    purpose: Purpose,
    target: string,
    expiresAt: int,
    consumedAt: Option<int>)

  datatype ChangeMethod = ByReset | ByOwner

  /** Rows of the outbox, reduced to what the model speaks about. */
  datatype Event =
    | UserRegistered(user: UserId, provider: Provider)
    | UserVerified(user: UserId, email: string)
    | UserEmailBound(user: UserId, email: string)
    | LoginSucceeded(user: UserId, rotatedFrom: Option<SessionId>)
    | LoginFailed(user: UserId)
    | PasswordChanged(user: UserId, how: ChangeMethod)

  datatype Db = Db(
    users: map<UserId, User>,
    usernames: map<string, UserId>,
    identities: map<(Provider, string), UserId>,
    sessions: map<SessionId, Session>,
    refreshIndex: map<Digest, SessionId>,
    tokens: map<Digest, AuthToken>,
    outbox: seq<Event>)

  const EMPTY_DB: Db := Db(map[], map[], map[], map[], map[], map[], [])

  datatype Error =
    | BadRequest
    | Conflict
    | InvalidToken
    | AccessTokenInvalid
    | InvalidCredentials
    | AccountSuspended
    | Internal

  /** The payload of an access token whose signature has been checked. */
  datatype Claims = Claims(user: UserId, session: SessionId, version: int, expiresAt: int)

  /** What a login or a refresh hands to the client. */
  datatype Grant = Grant(access: Claims, refreshToken: string)

  /** Lifetimes as read from the configuration; None when the value does not parse. */
  datatype Config = Config(refreshTtl: Option<int>, accessTtl: Option<int>)

  const SECOND := 1_000
  const MINUTE := 60_000
  const DAY := 24 * 60 * MINUTE
  const TOKEN_TTL := 30 * MINUTE

  function RefreshTtl(cfg: Config): (ttl: int)
    ensures ttl > 0
  {
    if cfg.refreshTtl.Some? && cfg.refreshTtl.value > 0 then cfg.refreshTtl.value else 30 * DAY
  }

  function AccessTtl(cfg: Config): (ttl: int)
    ensures ttl > 0
  {
    if cfg.accessTtl.Some? && cfg.accessTtl.value > 0 then cfg.accessTtl.value else 15 * MINUTE
  }

  /** The expiry a token is signed with: instants are in milliseconds, the signature keeps seconds. */
  function SignedExpiry(at: int): (expiry: int)
    ensures at - SECOND < expiry <= at && expiry % SECOND == 0
  {
    at - at % SECOND
  }

  // ---------- text ----------

  function LowerChar(c: char): char
  {
    if 'A' <= c <= 'Z' then (c as int + 32) as char else c
  }

  function Lower(s: string): string { seq(|s|, i requires 0 <= i < |s| => LowerChar(s[i])) }

  function NormalizeEmail(s: string): string { Lower(Trim(s)) }

  predicate ValidUsername(s: string)
  {
    && 3 <= |s| <= 20
    && forall i | 0 <= i < |s| ::
         'a' <= s[i] <= 'z' || 'A' <= s[i] <= 'Z' || '0' <= s[i] <= '9' || s[i] == '_' || s[i] == '-'
  }

  /** One '@' with something before it, and after it a '.' with something on both sides. */
  predicate ValidEmail(s: string)
  {
    && (forall i | 0 <= i < |s| :: !IsSpace(s[i]))
    && exists at | 0 < at < |s| ::
         && s[at] == '@'
         && (forall i | 0 <= i < |s| :: s[i] == '@' ==> i == at)
         && exists dot | at + 1 < dot < |s| - 1 :: s[dot] == '.'
  }

  lemma LowerTwice(s: string)
    ensures Lower(Lower(s)) == Lower(s)
  {
    var n := Lower(s);
    assert forall i :: 0 <= i < |n| ==> Lower(n)[i] == LowerChar(LowerChar(s[i])) == LowerChar(s[i]);
  }

  /** Normalising twice is normalising once: the address a bind token carries is the address
      that gets bound. */
  lemma NormalizeEmailIdempotent(s: string)
    ensures NormalizeEmail(NormalizeEmail(s)) == NormalizeEmail(s)
  {
    TrimHasCleanEnds(s);
    TrimKeepsCleanEnds(NormalizeEmail(s));
    LowerTwice(Trim(s));
  }

  predicate SameButForCase(s: string, t: string)
  {
    |s| == |t| && forall i | 0 <= i < |s| :: LowerChar(s[i]) == LowerChar(t[i])
  }

  lemma {:induction false} TrimLeftIgnoresCase(s: string, t: string)
    requires SameButForCase(s, t)
    ensures SameButForCase(TrimLeft(s), TrimLeft(t))
    decreases |s|
  {
    if s != [] {
      assert IsSpace(s[0]) <==> IsSpace(t[0]);
      if IsSpace(s[0]) { TrimLeftIgnoresCase(s[1..], t[1..]); }
    }
  }

  lemma {:induction false} TrimRightIgnoresCase(s: string, t: string)
    requires SameButForCase(s, t)
    ensures SameButForCase(TrimRight(s), TrimRight(t))
    decreases |s|
  {
    if s != [] {
      var n := |s| - 1;
      assert IsSpace(s[n]) <==> IsSpace(t[n]);
      if IsSpace(s[n]) { TrimRightIgnoresCase(s[..n], t[..n]); }
    }
  }

  /** Addresses that differ in letter case only are one address, and its normal form has no capitals and no
      white space at its ends. */
  lemma NormalFormIgnoresCase(s: string, t: string)
    requires SameButForCase(s, t)
    ensures NormalizeEmail(s) == NormalizeEmail(t)
    ensures forall c :: c in NormalizeEmail(s) ==> !('A' <= c <= 'Z')
    ensures NormalizeEmail(s) != "" ==>
              !IsSpace(NormalizeEmail(s)[0]) && !IsSpace(NormalizeEmail(s)[|NormalizeEmail(s)| - 1])
  {
    TrimLeftIgnoresCase(s, t);
    TrimRightIgnoresCase(TrimLeft(s), TrimLeft(t));
    TrimHasCleanEnds(s);
  }

  /** " A@b.C" and a line end become "a@b.c", */
  lemma NormalFormExample()
    ensures NormalizeEmail(" A@b.C\n") == "a@b.c"
  {
    assert TrimLeft(" A@b.C\n") == TrimLeft("A@b.C\n") == "A@b.C\n";
    assert "A@b.C\n"[..5] == "A@b.C" && TrimRight("A@b.C\n") == TrimRight("A@b.C") == "A@b.C";
    assert Lower("A@b.C") == "a@b.c";
  }

  /** which is a well-formed address; these are not. */
  lemma AddressExamples()
    ensures ValidEmail("a@b.c")
    ensures !ValidEmail("@b.c") && !ValidEmail("a@b") && !ValidEmail("a@b.") && !ValidEmail("a@@b.c")
    ensures !ValidEmail("a@.c") && !ValidEmail("a @b.c")
  {
    var good, twice, spaced := "a@b.c", "a@@b.c", "a @b.c";
    assert good[1] == '@' && good[3] == '.';
    assert twice[1] == '@' && twice[2] == '@';
    assert IsSpace(spaced[1]);
  }

  /** Usernames have between three and twenty characters, letters, digits, '_' and '-'. */
  lemma UsernameExamples()
    ensures ValidUsername("abc") && ValidUsername("A-z_09") && ValidUsername("abcdefghijklmnopqrst")
    ensures !ValidUsername("ab") && !ValidUsername("abcdefghijklmnopqrstu")
    ensures !ValidUsername("a b") && !ValidUsername("a@b") && !ValidUsername("")
  {
    var spaced, at := "a b", "a@b";
    assert spaced[1] == ' ' && at[1] == '@';
  }

  /** A positive lifetime of the configuration is used as it is, anything else is thirty days for a refresh
      token and fifteen minutes for an access token. */
  lemma LifetimesFollowConfig(ttl: int)
    ensures RefreshTtl(Config(Some(ttl), None)) == (if ttl > 0 then ttl else 2_592_000_000)
    ensures AccessTtl(Config(None, Some(ttl))) == (if ttl > 0 then ttl else 900_000)
    ensures RefreshTtl(Config(None, None)) == 2_592_000_000 && AccessTtl(Config(None, None)) == 900_000
  {
  }
}
