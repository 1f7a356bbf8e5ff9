/**
 Refresh-token families: issuing, rotation, reuse detection and password reset of
 `domains/identity/service.py`, logout of `domains/identity/router.py`, with the
 lifetimes of `core/security.py`.
 Time is counted in microseconds; token claims carry whole seconds.
 */
module Tokens {
  import opened Common

  type Jti = nat
  type UserId = nat

  const SECOND := 1_000_000

  /** `REFRESH_TOKEN_EXPIRE_DAYS`, in seconds. */
  const LIFETIME := 7 * 86_400

  /** The claims of an issued token, and the exact time it was minted at. */
  datatype Token = Token(user: UserId, family: Jti, iat: nat, exp: nat, mintedAt: nat)

  datatype User = User(active: bool, passwordChangedAt: Option<nat>)

  /**
   The keys `blacklist:…` and `revoked_family:…` with the times they expire at, and
   the tokens that were presented to a logout while they were good.
   */
  datatype State = State(
    now: nat, users: map<UserId, User>, tokens: seq<Token>, blacklist: map<Jti, nat>, revoked: map<Jti, nat>, loggedOut: set<Jti>)

  datatype Step =
    | Tick(elapsed: nat)
    | Login(user: UserId)
    | Refresh(token: Jti)
    | Logout(token: Jti)
    | Reset(user: UserId)
    | SetActive(user: UserId, active: bool)

  datatype Verdict = Unknown | Expired | FamilyRevoked | Reused | UserGone | BeforeReset | Accepted

  /** `int(datetime.now(UTC).timestamp())`, which is also how a claim is written. */
  function Seconds(time: nat): nat
  {
    time / SECOND
  }

  /** A Redis key lives until its time to live has run out. */
  predicate KeyLives(keys: map<Jti, nat>, key: Jti, now: nat)
  {
    key in keys && now < keys[key]
  }

  /** Decoding refuses a token on or after its expiry (section 4.1.4 of RFC 7519). */
  predicate Unexpired(token: Token, now: nat)
  {
    now < token.exp * SECOND
  }

  /** `token_issued_after_password_change`. */
  predicate IssuedAfterChange(iat: nat, passwordChangedAt: Option<nat>)
  {
    passwordChangedAt.None? || iat * SECOND >= passwordChangedAt.value
  }

  /** The checks of `refresh`, in their order. */
  function Judge(s: State, token: Jti): Verdict
  {
    if token >= |s.tokens| then Unknown
    else
      var t := s.tokens[token];
      if !Unexpired(t, s.now) then Expired
      else if KeyLives(s.revoked, t.family, s.now) then FamilyRevoked
      else if KeyLives(s.blacklist, token, s.now) then Reused
      else if t.user !in s.users || !s.users[t.user].active then UserGone
      else if !IssuedAfterChange(t.iat, s.users[t.user].passwordChangedAt) then BeforeReset
      else Accepted
  }

  /** `create_refresh_token`; every call draws a fresh id. */
  function Minted(user: UserId, family: Jti, now: nat): Token
  {
    Token(user, family, Seconds(now), Seconds(now) + LIFETIME, now)
  }

  /** `_blacklist_jti`: the key's expiry when the time to live is rounded from whole seconds. */
  function BlacklistUntil(exp: nat, now: nat): nat
  {
    now + (if exp > Seconds(now) + 1 then exp - Seconds(now) else 1) * SECOND
  }

  function Do(s: State, step: Step): State
  {
    match step
    case Tick(elapsed) => s.(now := s.now + elapsed)
    case Login(user) =>
      if user !in s.users || !s.users[user].active then s
      else s.(tokens := s.tokens + [Minted(user, |s.tokens|, s.now)])
    case Refresh(token) =>
      (match Judge(s, token)
       case Reused => s.(revoked := s.revoked[s.tokens[token].family := s.now + LIFETIME * SECOND])
       case Accepted =>
         var t := s.tokens[token];
         s.(blacklist := s.blacklist[token := BlacklistUntil(t.exp, s.now)],
            tokens := s.tokens + [Minted(t.user, t.family, s.now)])
       case _ => s)
    case Logout(token) =>
      if token >= |s.tokens| || !Unexpired(s.tokens[token], s.now) then s
      else s.(blacklist := s.blacklist[token := BlacklistUntil(s.tokens[token].exp, s.now)], loggedOut := s.loggedOut + {token})
    case Reset(user) =>
      if user !in s.users || !s.users[user].active then s
      else s.(users := s.users[user := s.users[user].(passwordChangedAt := Some(s.now))])
    case SetActive(user, active) =>
      if user !in s.users then s else s.(users := s.users[user := s.users[user].(active := active)])
  }

  function Run(s: State, steps: seq<Step>): State
  {
    if steps == [] then s else Do(Run(s, steps[..|steps| - 1]), steps[|steps| - 1])
  }

  // ------------------------------------------------ what every run keeps

  predicate SameFamily(tokens: seq<Token>, j: Jti, k: Jti)
    requires j < |tokens| && k < |tokens|
  {
    tokens[j].family == tokens[k].family
  }

  /** A token that has been exchanged for a successor of its family. */
  ghost predicate Consumed(tokens: seq<Token>, token: Jti)
  {
    exists later: Jti :: token < later < |tokens| && SameFamily(tokens, token, later)
  }

  ghost predicate ClaimsHold(tokens: seq<Token>, now: nat)
  {
    forall j: Jti :: j < |tokens| ==>
      var t := tokens[j]; t.family <= j && t.mintedAt <= now && t.iat == Seconds(t.mintedAt) && t.exp == t.iat + LIFETIME
  }

  /** The blacklist outlives every consumed token. */
  ghost predicate ConsumedAreListed(tokens: seq<Token>, blacklist: map<Jti, nat>)
  {
    forall j: Jti, k: Jti :: j < k < |tokens| && SameFamily(tokens, j, k) ==> j in blacklist && tokens[j].exp * SECOND <= blacklist[j]
  }

  /** A revocation outlives every token of its family. */
  ghost predicate RevocationsOutlive(tokens: seq<Token>, revoked: map<Jti, nat>)
  {
    && (forall f :: f in revoked ==> f < |tokens|)
    && (forall j: Jti :: j < |tokens| && tokens[j].family in revoked ==> tokens[j].exp * SECOND <= revoked[tokens[j].family])
  }

  /** Only consumed tokens and those logged out are blacklisted. */
  ghost predicate ListedAreDone(tokens: seq<Token>, blacklist: map<Jti, nat>, loggedOut: set<Jti>)
  {
    forall j :: j in blacklist ==> j in loggedOut || Consumed(tokens, j)
  }

  /** The blacklist outlives every token that was logged out. */
  ghost predicate LoggedOutAreListed(tokens: seq<Token>, blacklist: map<Jti, nat>, loggedOut: set<Jti>)
  {
    forall j :: j in loggedOut ==> j < |tokens| && j in blacklist && tokens[j].exp * SECOND <= blacklist[j]
  }

  ghost predicate Inv(s: State)
  {
    && ClaimsHold(s.tokens, s.now) && ConsumedAreListed(s.tokens, s.blacklist)
    && RevocationsOutlive(s.tokens, s.revoked)
    && ListedAreDone(s.tokens, s.blacklist, s.loggedOut) && LoggedOutAreListed(s.tokens, s.blacklist, s.loggedOut)
  }

  lemma MintedClaims(tokens: seq<Token>, user: UserId, family: Jti, now: nat)
    requires ClaimsHold(tokens, now) && family <= |tokens|
    ensures ClaimsHold(tokens + [Minted(user, family, now)], now)
  {
  }

  lemma MintedListed(tokens: seq<Token>, blacklist: map<Jti, nat>, t: Token)
    requires ConsumedAreListed(tokens, blacklist)
    requires forall j: Jti :: j < |tokens| && tokens[j].family == t.family ==> j in blacklist && tokens[j].exp * SECOND <= blacklist[j]
    ensures ConsumedAreListed(tokens + [t], blacklist)
  {
    var all := tokens + [t];
    forall j: Jti, k: Jti | j < k < |all| && SameFamily(all, j, k) ensures j in blacklist && all[j].exp * SECOND <= blacklist[j] {
      if k < |tokens| { assert SameFamily(tokens, j, k); }
    }
  }

  lemma MintedConsumed(tokens: seq<Token>, t: Token, j: Jti)
    requires j < |tokens|
    ensures Consumed(tokens + [t], j) <==> Consumed(tokens, j) || tokens[j].family == t.family
  {
    var all := tokens + [t];
    if Consumed(tokens, j) {
      var later: Jti :| j < later < |tokens| && SameFamily(tokens, j, later);
      assert SameFamily(all, j, later);
    }
    if tokens[j].family == t.family { assert SameFamily(all, j, |tokens|); }
    if Consumed(all, j) {
      var later: Jti :| j < later < |all| && SameFamily(all, j, later);
      if later < |tokens| { assert SameFamily(tokens, j, later); }
    }
  }

  lemma MintedListedDone(tokens: seq<Token>, blacklist: map<Jti, nat>, loggedOut: set<Jti>, t: Token)
    requires ListedAreDone(tokens, blacklist, loggedOut)
    ensures ListedAreDone(tokens + [t], blacklist, loggedOut)
  {
    forall j | j in blacklist ensures j in loggedOut || Consumed(tokens + [t], j) {
      if j !in loggedOut { MintedConsumed(tokens, t, j); }
    }
  }

  lemma MintedOutlived(tokens: seq<Token>, revoked: map<Jti, nat>, t: Token)
    requires RevocationsOutlive(tokens, revoked) && t.family !in revoked
    ensures RevocationsOutlive(tokens + [t], revoked)
  {
  }

  /** The key is set with whole seconds, and still never dies before the token, nor a second after it. */
  lemma BlacklistOutlives(exp: nat, now: nat)
    ensures exp * SECOND <= BlacklistUntil(exp, now) && now < BlacklistUntil(exp, now)
    ensures BlacklistUntil(exp, now) < (exp + 1) * SECOND || BlacklistUntil(exp, now) == now + SECOND
  {
    ExpiryBound(now);
  }

  lemma LoginKeeps(s: State, user: UserId)
    requires Inv(s)
    ensures Inv(Do(s, Login(user)))
  {
    if user in s.users && s.users[user].active {
      var t := Minted(user, |s.tokens|, s.now);
      MintedClaims(s.tokens, user, |s.tokens|, s.now);
      MintedListed(s.tokens, s.blacklist, t);
      MintedListedDone(s.tokens, s.blacklist, s.loggedOut, t);
      MintedOutlived(s.tokens, s.revoked, t);
    }
  }

  lemma ConsumedIsListed(tokens: seq<Token>, blacklist: map<Jti, nat>, token: Jti)
    requires ConsumedAreListed(tokens, blacklist) && token < |tokens|
    ensures Consumed(tokens, token) ==> token in blacklist && tokens[token].exp * SECOND <= blacklist[token]
  {
  }

  /** An accepted token is the only unconsumed one of its family, and its family was never revoked. */
  lemma AcceptedIsLast(s: State, token: Jti)
    requires Inv(s) && Judge(s, token) == Accepted
    ensures token < |s.tokens| && !Consumed(s.tokens, token) && token !in s.loggedOut && token !in s.blacklist
    ensures s.tokens[token].family !in s.revoked
    ensures forall j: Jti :: j < |s.tokens| && SameFamily(s.tokens, j, token) ==> j <= token
  {
    ConsumedIsListed(s.tokens, s.blacklist, token);
    forall j: Jti | j < |s.tokens| && SameFamily(s.tokens, j, token) ensures j <= token {
      if token < j { assert SameFamily(s.tokens, token, j); }
    }
  }

  lemma RotationListed(s: State, token: Jti)
    requires Inv(s) && Judge(s, token) == Accepted
    ensures var after := Do(s, Refresh(token)); ConsumedAreListed(after.tokens, after.blacklist)
  {
    AcceptedIsLast(s, token);
    var t := s.tokens[token];
    BlacklistOutlives(t.exp, s.now);
    var blacklist := s.blacklist[token := BlacklistUntil(t.exp, s.now)];
    forall j: Jti | j < |s.tokens| && s.tokens[j].family == t.family ensures j in blacklist && s.tokens[j].exp * SECOND <= blacklist[j] {
      assert SameFamily(s.tokens, j, token);
    }
    MintedListed(s.tokens, blacklist, Minted(t.user, t.family, s.now));
  }

  lemma RotationKeeps(s: State, token: Jti)
    requires Inv(s) && Judge(s, token) == Accepted
    ensures Inv(Do(s, Refresh(token)))
  {
    AcceptedIsLast(s, token);
    RotationListed(s, token);
    var t := s.tokens[token];
    var minted := Minted(t.user, t.family, s.now);
    MintedClaims(s.tokens, t.user, t.family, s.now);
    MintedOutlived(s.tokens, s.revoked, minted);
    MintedListedDone(s.tokens, s.blacklist, s.loggedOut, minted);
    MintedConsumed(s.tokens, minted, token);
  }

  lemma RevocationKeeps(s: State, token: Jti)
    requires Inv(s) && Judge(s, token) == Reused
    ensures Inv(Do(s, Refresh(token)))
  {
    forall j: Jti | j < |s.tokens| ensures s.tokens[j].exp * SECOND <= s.now + LIFETIME * SECOND {
      ExpiryBound(s.tokens[j].mintedAt);
    }
  }

  lemma ExpiryBound(t: nat)
    ensures Seconds(t) * SECOND <= t < Seconds(t) * SECOND + SECOND
  {
  }

  lemma LogoutKeeps(s: State, token: Jti)
    requires Inv(s)
    ensures Inv(Do(s, Logout(token)))
  {
    if token < |s.tokens| { BlacklistOutlives(s.tokens[token].exp, s.now); }
  }

  lemma DoKeeps(s: State, step: Step)
    requires Inv(s)
    ensures Inv(Do(s, step))
  {
    match step
    case Tick(elapsed) =>
    case Login(user) => LoginKeeps(s, user);
    case Refresh(token) =>
      if Judge(s, token) == Accepted {
        RotationKeeps(s, token);
      } else if Judge(s, token) == Reused {
        RevocationKeeps(s, token);
      }
    case Logout(token) => LogoutKeeps(s, token);
    case Reset(user) =>
    case SetActive(user, active) =>
  }

  ghost predicate Fresh(s: State)
  {
    s.tokens == [] && s.blacklist == map[] && s.revoked == map[] && s.loggedOut == {}
  }

  lemma {:induction false} EveryRunKeeps(s: State, steps: seq<Step>)
    requires Inv(s)
    ensures Inv(Run(s, steps))
  {
    if steps != [] {
      EveryRunKeeps(s, steps[..|steps| - 1]);
      DoKeeps(Run(s, steps[..|steps| - 1]), steps[|steps| - 1]);
    }
  }

  // ------------------------------------------------ a family has one user

  /** The token belongs to the user whose login started its family, and that login's token bears the family's name. */
  ghost predicate RootOwns(tokens: seq<Token>, j: Jti)
    requires j < |tokens|
  {
    var f := tokens[j].family; f <= j && tokens[f].family == f && tokens[f].user == tokens[j].user
  }

  ghost predicate FamiliesHold(tokens: seq<Token>)
  {
    forall j: Jti :: j < |tokens| ==> RootOwns(tokens, j)
  }

  lemma OneMoreOwned(tokens: seq<Token>, t: Token)
    requires FamiliesHold(tokens)
    requires t.family == |tokens| || exists j: Jti :: j < |tokens| && tokens[j].family == t.family && tokens[j].user == t.user
    ensures FamiliesHold(tokens + [t])
  {
    var all := tokens + [t];
    forall j: Jti | j < |all| ensures RootOwns(all, j) {
      if j < |tokens| {
        assert RootOwns(tokens, j);
      } else if t.family != |tokens| {
        var k: Jti :| k < |tokens| && tokens[k].family == t.family && tokens[k].user == t.user;
        assert RootOwns(tokens, k);
      }
    }
  }

  lemma DoKeepsFamilies(s: State, step: Step)
    requires FamiliesHold(s.tokens) && ClaimsHold(s.tokens, s.now)
    ensures FamiliesHold(Do(s, step).tokens)
  {
    if step.Login? && step.user in s.users && s.users[step.user].active {
      OneMoreOwned(s.tokens, Minted(step.user, |s.tokens|, s.now));
    } else if step.Refresh? && Judge(s, step.token) == Accepted {
      var t := s.tokens[step.token];
      assert s.tokens[step.token].family == t.family;
      OneMoreOwned(s.tokens, Minted(t.user, t.family, s.now));
    }
  }

  lemma {:induction false} RunKeepsFamilies(start: State, steps: seq<Step>)
    requires Fresh(start)
    ensures FamiliesHold(Run(start, steps).tokens)
  {
    if steps != [] {
      var prior := steps[..|steps| - 1];
      RunKeepsFamilies(start, prior);
      EveryRunKeeps(start, prior);
      DoKeepsFamilies(Run(start, prior), steps[|steps| - 1]);
    }
  }

  /** In every run all tokens of a family are one user's: the one who logged in. */
  lemma FamilyHasOneUser(start: State, steps: seq<Step>, j: Jti, k: Jti)
    requires Fresh(start)
    requires var s := Run(start, steps); j < |s.tokens| && k < |s.tokens| && SameFamily(s.tokens, j, k)
    ensures var s := Run(start, steps); s.tokens[j].user == s.tokens[k].user
  {
    RunKeepsFamilies(start, steps);
    var s := Run(start, steps);
    assert RootOwns(s.tokens, j) && RootOwns(s.tokens, k);
  }

  // ------------------------------------------------ at most one acceptable token

  /** At any moment of any run, at most one token of a family would be accepted: its last. */
  lemma AtMostOneAcceptable(start: State, steps: seq<Step>, j: Jti, k: Jti)
    requires Fresh(start)
    requires var s := Run(start, steps);
             Judge(s, j) == Accepted && Judge(s, k) == Accepted && SameFamily(s.tokens, j, k)
    ensures j == k
  {
    EveryRunKeeps(start, steps);
    var s := Run(start, steps);
    AcceptedIsLast(s, j);
    AcceptedIsLast(s, k);
    assert SameFamily(s.tokens, k, j);
  }

  /**
   A token is accepted exactly while it is the unexpired last of a family never caught
   in reuse, was not logged out, and its user is active and not reset since.
   */
  lemma AcceptedExactly(start: State, steps: seq<Step>, token: Jti)
    requires Fresh(start)
    ensures var s := Run(start, steps);
            Judge(s, token) == Accepted <==>
              && token < |s.tokens| && !Consumed(s.tokens, token) && token !in s.loggedOut
              && var t := s.tokens[token];
              && s.now < t.exp * SECOND && t.family !in s.revoked
              && t.user in s.users && s.users[t.user].active && IssuedAfterChange(t.iat, s.users[t.user].passwordChangedAt)
  {
    EveryRunKeeps(start, steps);
    if Judge(Run(start, steps), token) == Accepted { AcceptedIsLast(Run(start, steps), token); }
  }

  /** How often a run accepts a token. */
  function TimesAccepted(start: State, steps: seq<Step>, token: Jti): nat
  {
    if steps == [] then 0
    else var prior, last := steps[..|steps| - 1], steps[|steps| - 1];
         TimesAccepted(start, prior, token) + if last == Refresh(token) && Judge(Run(start, prior), token) == Accepted then 1 else 0
  }

  lemma DoKeepsTokens(s: State, step: Step)
    ensures var after := Do(s, step);
            s.tokens <= after.tokens && s.now <= after.now && forall f :: f in s.revoked ==> f in after.revoked
  {
  }

  lemma ConsumedStays(before: seq<Token>, after: seq<Token>, token: Jti)
    requires before <= after && Consumed(before, token)
    ensures Consumed(after, token)
  {
    var later: Jti :| token < later < |before| && SameFamily(before, token, later);
    assert SameFamily(after, token, later);
  }

  /** No token is accepted twice, however long ago the first time was. */
  lemma {:induction false} AcceptedAtMostOnce(start: State, steps: seq<Step>, token: Jti)
    requires Fresh(start)
    ensures TimesAccepted(start, steps, token) <= 1
    ensures TimesAccepted(start, steps, token) == 1 ==> Consumed(Run(start, steps).tokens, token)
  {
    if steps != [] {
      var prior, last := steps[..|steps| - 1], steps[|steps| - 1];
      var s := Run(start, prior);
      AcceptedAtMostOnce(start, prior, token);
      EveryRunKeeps(start, prior);
      DoKeepsTokens(s, last);
      if TimesAccepted(start, prior, token) == 1 {
        ConsumedStays(s.tokens, Do(s, last).tokens, token);
        if Judge(s, token) == Accepted { AcceptedIsLast(s, token); }
      } else if last == Refresh(token) && Judge(s, token) == Accepted {
        var t := s.tokens[token];
        MintedConsumed(s.tokens, Minted(t.user, t.family, s.now), token);
      }
    }
  }

  // ------------------------------------------------ reuse kills the family

  lemma RevokedIsNeverAccepted(s: State, token: Jti)
    requires Inv(s) && token < |s.tokens| && s.tokens[token].family in s.revoked
    ensures Judge(s, token) != Accepted
  {
    if Judge(s, token) == Accepted { AcceptedIsLast(s, token); }
  }

  lemma {:induction false} RevokedStays(s: State, steps: seq<Step>, family: Jti)
    requires family in s.revoked
    ensures family in Run(s, steps).revoked && s.tokens <= Run(s, steps).tokens
  {
    if steps != [] {
      RevokedStays(s, steps[..|steps| - 1], family);
      DoKeepsTokens(Run(s, steps[..|steps| - 1]), steps[|steps| - 1]);
    }
  }

  /** A consumed token presented before it expires is always noticed, and its family is marked. */
  lemma {:induction false} ReuseIsNoticed(s: State, token: Jti)
    requires Inv(s) && token < |s.tokens| && Consumed(s.tokens, token) && Unexpired(s.tokens[token], s.now)
    ensures Judge(s, token) == FamilyRevoked || Judge(s, token) == Reused
    ensures s.tokens[token].family in Do(s, Refresh(token)).revoked
  {
    ConsumedIsListed(s.tokens, s.blacklist, token);
  }

  /**
   Reuse detection.  Once a consumed token is presented before it expires, no token
   of its family is accepted at any later time: the revocation key outlives every
   token it covers, and none is added.
   */
  lemma ReuseKillsFamily(start: State, before: seq<Step>, token: Jti, later: seq<Step>, other: Jti)
    requires Fresh(start)
    requires var s := Run(start, before); token < |s.tokens| && Consumed(s.tokens, token) && Unexpired(s.tokens[token], s.now)
    ensures var s := Run(start, before); var end := Run(Do(s, Refresh(token)), later);
            other < |end.tokens| && end.tokens[other].family == s.tokens[token].family ==> Judge(end, other) != Accepted
  {
    var s := Run(start, before);
    EveryRunKeeps(start, before);
    ReuseIsNoticed(s, token);
    DoKeeps(s, Refresh(token));
    DeadFamily(Do(s, Refresh(token)), later, s.tokens[token].family, other);
  }

  lemma DeadFamily(s: State, later: seq<Step>, family: Jti, other: Jti)
    requires Inv(s) && family in s.revoked
    ensures var end := Run(s, later);
            other < |end.tokens| && end.tokens[other].family == family ==> Judge(end, other) != Accepted
  {
    EveryRunKeeps(s, later);
    RevokedStays(s, later, family);
    var end := Run(s, later);
    if other < |end.tokens| && end.tokens[other].family == family { RevokedIsNeverAccepted(end, other); }
  }

  // ------------------------------------------------ logout

  /** No token of the family can be exchanged any more: each is consumed or logged out. */
  ghost predicate FamilyDone(s: State, family: Jti)
  {
    forall j: Jti :: j < |s.tokens| && s.tokens[j].family == family ==> j in s.loggedOut || Consumed(s.tokens, j)
  }

  lemma DoneIsNeverAccepted(s: State, family: Jti, token: Jti)
    requires Inv(s) && FamilyDone(s, family) && token < |s.tokens| && s.tokens[token].family == family
    ensures Judge(s, token) != Accepted
  {
    if Judge(s, token) == Accepted { AcceptedIsLast(s, token); }
  }

  lemma DoneStays(s: State, family: Jti, step: Step)
    requires Inv(s) && FamilyDone(s, family) && family < |s.tokens|
    ensures FamilyDone(Do(s, step), family)
  {
    var after := Do(s, step);
    if step.Refresh? && Judge(s, step.token) == Accepted && s.tokens[step.token].family == family {
      DoneIsNeverAccepted(s, family, step.token);
    }
    DoKeepsTokens(s, step);
    forall j: Jti | j < |after.tokens| && after.tokens[j].family == family ensures j in after.loggedOut || Consumed(after.tokens, j) {
      if j < |s.tokens| {
        assert j in s.loggedOut || Consumed(s.tokens, j);
        if Consumed(s.tokens, j) { ConsumedStays(s.tokens, after.tokens, j); }
      }
    }
  }

  lemma {:induction false} DoneForever(s: State, family: Jti, later: seq<Step>)
    requires Inv(s) && FamilyDone(s, family) && family < |s.tokens|
    ensures var end := Run(s, later); Inv(end) && FamilyDone(end, family) && |s.tokens| <= |end.tokens|
  {
    EveryRunKeeps(s, later);
    if later != [] {
      DoneForever(s, family, later[..|later| - 1]);
      DoneStays(Run(s, later[..|later| - 1]), family, later[|later| - 1]);
      DoKeepsTokens(Run(s, later[..|later| - 1]), later[|later| - 1]);
    }
  }

  /**
   Logging out with the last token of a family, while it is good, ends the family: no
   token of it is accepted at any later time.
   */
  lemma LogoutEndsFamily(start: State, before: seq<Step>, token: Jti, later: seq<Step>, other: Jti)
    requires Fresh(start)
    requires var s := Run(start, before);
             token < |s.tokens| && !Consumed(s.tokens, token) && Unexpired(s.tokens[token], s.now)
    ensures var s := Run(start, before); var end := Run(Do(s, Logout(token)), later);
            other < |end.tokens| && end.tokens[other].family == s.tokens[token].family ==> Judge(end, other) != Accepted
  {
    var s := Run(start, before);
    EveryRunKeeps(start, before);
    var family, after := s.tokens[token].family, Do(s, Logout(token));
    DoKeeps(s, Logout(token));
    forall j: Jti | j < |after.tokens| && after.tokens[j].family == family ensures j in after.loggedOut || Consumed(after.tokens, j) {
      if j < token {
        assert SameFamily(s.tokens, j, token);
      } else if j > token {
        assert SameFamily(s.tokens, token, j);
      }
    }
    DoneForever(after, family, later);
    var end := Run(after, later);
    if other < |end.tokens| && end.tokens[other].family == family { DoneIsNeverAccepted(end, family, other); }
  }

  /** A logout decides over its own token only; that one counts as reused from then on, and takes its family with it if presented. */
  lemma LogoutTouchesOneToken(start: State, before: seq<Step>, token: Jti, other: Jti)
    requires Fresh(start)
    requires var s := Run(start, before); token < |s.tokens| && Unexpired(s.tokens[token], s.now)
    ensures var s := Run(start, before); var after := Do(s, Logout(token));
            && (other != token ==> Judge(after, other) == Judge(s, other))
            && (Judge(after, token) == Reused || Judge(after, token) == FamilyRevoked)
            && s.tokens[token].family in Do(after, Refresh(token)).revoked
  {
    BlacklistOutlives(Run(start, before).tokens[token].exp, Run(start, before).now);
  }

  // ------------------------------------------------ password resets

  lemma {:induction false} ChangeTimeOnlyGrows(s: State, steps: seq<Step>, user: UserId, c: nat)
    requires user in s.users && s.users[user].passwordChangedAt.Some? && c <= s.users[user].passwordChangedAt.value <= s.now
    ensures var end := Run(s, steps);
            && user in end.users && end.users[user].passwordChangedAt.Some? && c <= end.users[user].passwordChangedAt.value <= end.now
            && s.tokens <= end.tokens
  {
    if steps != [] {
      ChangeTimeOnlyGrows(s, steps[..|steps| - 1], user, c);
      DoKeepsTokens(Run(s, steps[..|steps| - 1]), steps[|steps| - 1]);
    }
  }

  /**
   A reset at time c ends every session of the user whose token was minted before
   c: at no later time is such a token accepted.
   */
  lemma ResetEndsSessions(start: State, before: seq<Step>, user: UserId, later: seq<Step>, token: Jti)
    requires Fresh(start)
    requires var s := Run(start, before);
             && user in s.users && s.users[user].active
             && token < |s.tokens| && s.tokens[token].user == user && s.tokens[token].mintedAt < s.now
    ensures Judge(Run(Do(Run(start, before), Reset(user)), later), token) != Accepted
  {
    var s := Run(start, before);
    EveryRunKeeps(start, before);
    ChangeTimeOnlyGrows(Do(s, Reset(user)), later, user, s.now);
    ExpiryBound(s.tokens[token].mintedAt);
  }

  /** Of the tokens already issued, a reset spares exactly those minted at its own instant, when that is a whole second. */
  lemma ResetSparesExactly(start: State, before: seq<Step>, token: Jti)
    requires Fresh(start) && token < |Run(start, before).tokens|
    ensures var s := Run(start, before); var t := s.tokens[token];
            IssuedAfterChange(t.iat, Some(s.now)) <==> t.mintedAt == s.now && s.now % SECOND == 0
  {
    EveryRunKeeps(start, before);
    ExpiryBound(Run(start, before).tokens[token].mintedAt);
  }

  /**
   A token minted after a reset is good at once only if the reset fell on a whole
   second; otherwise those of the rest of that second are refused as if they were older.
   */
  lemma {:induction false} NewTokensPassExactly(mintedAt: nat, changedAt: nat)
    requires changedAt <= mintedAt
    ensures IssuedAfterChange(Minted(0, 0, mintedAt).iat, Some(changedAt)) <==>
            Seconds(mintedAt) > Seconds(changedAt) || changedAt % SECOND == 0
  {
    ExpiryBound(mintedAt);
    ExpiryBound(changedAt);
  }

  // ------------------------------------------------ the service

  /** When each verdict is given, by the rows and the keys. */
  ghost predicate IsVerdict(v: Verdict, tokens: seq<Token>, users: map<UserId, User>, blacklist: map<Jti, nat>, revoked: map<Jti, nat>, now: nat, token: Jti)
  {
    if token >= |tokens| then v == Unknown
    else
      var t := tokens[token];
      var listed := token in blacklist && now < blacklist[token];
      var dead := t.family in revoked && now < revoked[t.family];
      var active := t.user in users && users[t.user].active;
      var older := active && users[t.user].passwordChangedAt.Some? && t.iat * 1_000_000 < users[t.user].passwordChangedAt.value;
      var good := now < t.exp * 1_000_000;
      match v
      case Unknown => false
      case Expired => !good
      case FamilyRevoked => good && dead
      case Reused => good && !dead && listed
      case UserGone => good && !dead && !listed && !active
      case BeforeReset => good && !dead && !listed && older
      case Accepted => good && !dead && !listed && active && !older
  }

  lemma JudgeIsVerdict(s: State, token: Jti)
    ensures IsVerdict(Judge(s, token), s.tokens, s.users, s.blacklist, s.revoked, s.now, token)
  {
  }

  /** The user rows, the keys in Redis, and every refresh token ever issued. */
  class IdentityService {
    var now: nat
    var users: map<UserId, User>
    var tokens: seq<Token>
    var blacklist: map<Jti, nat>
    var revoked: map<Jti, nat>
    ghost var loggedOut: set<Jti>

    ghost function View(): State
      reads this
    {
      State(now, users, tokens, blacklist, revoked, loggedOut)
    }

    /** Every token's claims are as `create_refresh_token` writes them. */
    ghost predicate Valid()
      reads this
    {
      ClaimsHold(tokens, now)
    }

    /** A token made out to the user just now, good for seven days. */
    ghost predicate IsFresh(token: Token, user: UserId, family: Jti)
      reads this
    {
      && token.user == user && token.family == family && token.mintedAt == now
      && token.iat == now / 1_000_000 && token.exp == token.iat + 604_800
    }

    constructor (users: map<UserId, User>, now: nat)
      ensures Valid() && Fresh(View()) && this.users == users && this.now == now
    {
      this.users, this.now := users, now;
      tokens, blacklist, revoked, loggedOut := [], map[], map[], {};
    }

    method Tick(elapsed: nat)
      requires Valid()
      modifies this`now
      ensures Valid() && View() == Do(old(View()), Step.Tick(elapsed))
      ensures now == old(now) + elapsed
    {
      now := now + elapsed;
    }

    /** `create_refresh_token`: a login starts a family of its own. */
    method CreateRefreshToken(user: UserId, family: Option<Jti>) returns (token: Jti)
      modifies this`tokens
      ensures token == |old(tokens)|
      ensures tokens == old(tokens) + [Minted(user, if family.Some? then family.value else token, now)]
      ensures IsFresh(tokens[token], user, if family.Some? then family.value else token)
    {
      token := |tokens|;
      var id := if family.Some? then family.value else token;
      tokens := tokens + [Token(user, id, Seconds(now), Seconds(now) + LIFETIME, now)];
    }

    /** The end of `login`, past the password and the verification gates. */
    method Login(user: UserId) returns (token: Option<Jti>)
      requires Valid()
      modifies this
      ensures Valid() && View() == Do(old(View()), Step.Login(user))
      ensures token == if user in users && users[user].active then Some(|old(tokens)|) else None
      ensures if token.Some? then |tokens| == token.value + 1 && tokens[..token.value] == old(tokens) && IsFresh(tokens[token.value], user, token.value)
              else tokens == old(tokens)
      ensures users == old(users) && blacklist == old(blacklist) && revoked == old(revoked) && now == old(now) && loggedOut == old(loggedOut)
    {
      if user !in users || !users[user].active { return None; }
      MintedClaims(tokens, user, |tokens|, now);
      var minted := CreateRefreshToken(user, None);
      return Some(minted);
    }

    /** `_blacklist_jti`: an issued token is listed at least until it expires. */
    method BlacklistJti(token: Jti, exp: nat)
      modifies this`blacklist
      ensures blacklist == old(blacklist)[token := BlacklistUntil(exp, now)]
      ensures exp * 1_000_000 <= blacklist[token] && now < blacklist[token]
      ensures blacklist[token] < (exp + 1) * 1_000_000 || blacklist[token] == now + 1_000_000
    {
      BlacklistOutlives(exp, now);
      var ttl: int := exp - Seconds(now);
      if ttl < 1 { ttl := 1; }
      blacklist := blacklist[token := now + ttl * SECOND];
    }

    /** `_revoke_family`: the key covers every token the family has, each for as long as it is good, so none is accepted. */
    method RevokeFamily(family: Jti)
      requires Valid() && family < |tokens|
      modifies this`revoked
      ensures Valid() && revoked == old(revoked)[family := now + 604_800_000_000]
      ensures forall j: Jti :: j < |tokens| && tokens[j].family == family ==>
                tokens[j].exp * 1_000_000 <= revoked[family] && Judge(View(), j) != Accepted
    {
      forall j: Jti | j < |tokens| ensures tokens[j].exp * SECOND <= now + LIFETIME * SECOND {
        ExpiryBound(tokens[j].mintedAt);
      }
      revoked := revoked[family := now + LIFETIME * SECOND];
    }

    /** The checks of `refresh`, in their order. */
    method Check(token: Jti) returns (verdict: Verdict)
      ensures verdict == Judge(View(), token) && IsVerdict(verdict, tokens, users, blacklist, revoked, now, token)
    {
      JudgeIsVerdict(View(), token);
      if token >= |tokens| { return Unknown; }
      var t := tokens[token];
      if now >= t.exp * SECOND { return Expired; }
      if t.family in revoked && now < revoked[t.family] { return FamilyRevoked; }
      if token in blacklist && now < blacklist[token] { return Reused; }
      if t.user !in users || !users[t.user].active { return UserGone; }
      if !IssuedAfterChange(t.iat, users[t.user].passwordChangedAt) { return BeforeReset; }
      return Accepted;
    }

    /** The end of `refresh`: the consumed token is listed, and its user gets a successor of the same family. */
    method Rotate(token: Jti) returns (successor: Jti)
      requires Valid() && token < |tokens|
      modifies this`blacklist, this`tokens
      ensures Valid() && successor == |old(tokens)| && |tokens| == successor + 1 && tokens[..successor] == old(tokens)
      ensures tokens == old(tokens) + [Minted(tokens[token].user, tokens[token].family, now)]
      ensures IsFresh(tokens[successor], old(tokens)[token].user, old(tokens)[token].family)
      ensures blacklist == old(blacklist)[token := BlacklistUntil(old(tokens)[token].exp, now)]
      ensures old(tokens)[token].exp * 1_000_000 <= blacklist[token]
    {
      var t := tokens[token];
      MintedClaims(tokens, t.user, t.family, now);
      BlacklistJti(token, t.exp);
      successor := CreateRefreshToken(t.user, Some(t.family));
    }

    /** `refresh`. */
    method Refresh(token: Jti) returns (verdict: Verdict, successor: Jti)
      requires Valid()
      modifies this`blacklist, this`tokens, this`revoked
      ensures Valid() && verdict == Judge(old(View()), token)
      ensures View() == Do(old(View()), Step.Refresh(token))
      ensures IsVerdict(verdict, old(tokens), users, old(blacklist), old(revoked), now, token)
      ensures verdict == Accepted ==>
                && successor == |old(tokens)| && |tokens| == successor + 1 && tokens[..successor] == old(tokens)
                && IsFresh(tokens[successor], old(tokens)[token].user, old(tokens)[token].family)
                && token in blacklist && old(tokens)[token].exp * 1_000_000 <= blacklist[token]
                && blacklist == old(blacklist)[token := blacklist[token]] && revoked == old(revoked)
      ensures verdict == Reused ==>
                && tokens == old(tokens) && blacklist == old(blacklist)
                && revoked == old(revoked)[old(tokens)[token].family := now + 604_800_000_000]
      ensures verdict != Accepted && verdict != Reused ==> tokens == old(tokens) && blacklist == old(blacklist) && revoked == old(revoked)
    {
      successor := 0;
      verdict := Check(token);
      if verdict == Reused {
        RevokeFamily(tokens[token].family);
      } else if verdict == Accepted {
        successor := Rotate(token);
      }
    }

    /** The refresh-token half of the `logout` route; a token that does not decode is ignored. */
    method Logout(token: Jti)
      requires Valid()
      modifies this
      ensures Valid() && View() == Do(old(View()), Step.Logout(token))
      ensures now == old(now) && users == old(users) && tokens == old(tokens) && revoked == old(revoked)
      ensures blacklist - {token} == old(blacklist) - {token}
      ensures if token < |tokens| && now < tokens[token].exp * 1_000_000
              then token in blacklist && tokens[token].exp * 1_000_000 <= blacklist[token] && loggedOut == old(loggedOut) + {token}
              else blacklist == old(blacklist) && loggedOut == old(loggedOut)
    {
      if token >= |tokens| || now >= tokens[token].exp * SECOND { return; }
      BlacklistJti(token, tokens[token].exp);
      loggedOut := loggedOut + {token};
    }

    /** `reset_password`, past the check of its link. */
    method ResetPassword(user: UserId) returns (done: bool)
      requires Valid()
      modifies this`users
      ensures Valid() && View() == Do(old(View()), Reset(user))
      ensures done <==> user in old(users) && old(users)[user].active
      ensures if done then users.Keys == old(users).Keys && users - {user} == old(users) - {user} && users[user] == User(true, Some(now))
              else users == old(users)
    {
      if user !in users || !users[user].active { return false; }
      users := users[user := users[user].(passwordChangedAt := Some(now))];
      return true;
    }

    /** The `is_active` part of `update_user`. */
    method SetActive(user: UserId, active: bool)
      requires Valid()
      modifies this`users
      ensures Valid() && View() == Do(old(View()), Step.SetActive(user, active))
      ensures users.Keys == old(users).Keys && users - {user} == old(users) - {user}
      ensures user in users ==> users[user] == User(active, old(users)[user].passwordChangedAt)
    {
      if user !in users { return; }
      users := users[user := users[user].(active := active)];
    }
  }
}
