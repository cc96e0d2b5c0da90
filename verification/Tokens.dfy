/**
  Refresh-token families and one-time tokens as a timed state machine: rotation, the retry grace,
  reuse detection and revocation, following the rotation of section 4.14.2 of RFC 9700. Each
  transaction is one step and there is one clock. Token hashes and family ids are fresh values.
 */
module Tokens {
  import opened Records

  type Hash = nat

  const SECOND: int := 1_000_000_000
  const REFRESH_REUSE_GRACE: int := 30 * SECOND
  const VERIFICATION_TOKEN_TTL: int := 24 * 60 * 60 * SECOND
  const PASSWORD_RESET_TTL: int := 60 * 60 * SECOND

  datatype RefreshToken = RefreshToken(family: Uuid, user: Uuid, expiresAt: Time,
                                       usedAt: Option<Time>, revokedAt: Option<Time>)

  datatype Kind = VerifyEmail | ResetPassword

  datatype OneTimeToken = OneTimeToken(user: Uuid, kind: Kind, expiresAt: Time, usedAt: Option<Time>)

  /** The token tables, and for every user whether the email address is verified. */
  datatype Auth = Auth(refresh: map<Hash, RefreshToken>, oneTime: map<Hash, OneTimeToken>, verified: map<Uuid, bool>)

  datatype Reply = Issued(token: Hash) | InvalidToken | Reused | NoSession

  // ---- Single statements ----

  function Issue(a: Auth, hash: Hash, family: Uuid, user: Uuid, expiresAt: Time): Auth {
    a.(refresh := a.refresh[hash := RefreshToken(family, user, expiresAt, None, None)])
  }

  /** Set `used_at` unless it is already set. */
  function MarkUsed(a: Auth, hash: Hash, now: Time): Auth
    requires hash in a.refresh
  {
    if a.refresh[hash].usedAt.Some? then a
    else a.(refresh := a.refresh[hash := a.refresh[hash].(usedAt := Some(now))])
  }

  function RevokedRow(t: RefreshToken, now: Time): RefreshToken {
    if t.revokedAt.Some? then t else t.(revokedAt := Some(now))
  }

  function RevokeToken(a: Auth, hash: Hash, now: Time): Auth {
    if hash in a.refresh then a.(refresh := a.refresh[hash := RevokedRow(a.refresh[hash], now)]) else a
  }

  function RevokeFamily(a: Auth, family: Uuid, now: Time): Auth {
    a.(refresh := map h <- a.refresh :: if a.refresh[h].family == family then RevokedRow(a.refresh[h], now) else a.refresh[h])
  }

  function RevokeUser(a: Auth, user: Uuid, now: Time): Auth {
    a.(refresh := map h <- a.refresh :: if a.refresh[h].user == user then RevokedRow(a.refresh[h], now) else a.refresh[h])
  }

  function UsedRow(t: OneTimeToken, now: Time): OneTimeToken {
    if t.usedAt.Some? then t else t.(usedAt := Some(now))
  }

  function Invalidate(a: Auth, user: Uuid, kind: Kind, now: Time): Auth {
    a.(oneTime := map h <- a.oneTime ::
      if a.oneTime[h].user == user && a.oneTime[h].kind == kind then UsedRow(a.oneTime[h], now) else a.oneTime[h])
  }

  function CreateOneTime(a: Auth, hash: Hash, user: Uuid, kind: Kind, now: Time): Auth {
    var ttl := if kind.VerifyEmail? then VERIFICATION_TOKEN_TTL else PASSWORD_RESET_TTL;
    a.(oneTime := a.oneTime[hash := OneTimeToken(user, kind, now + ttl, None)])
  }

  function SetVerified(a: Auth, user: Uuid): Auth {
    a.(verified := a.verified[user := true])
  }

  // ---- Operations ----

  datatype Op =
    | Register(user: Uuid, hash: Hash)
    | Provision(user: Uuid)                                                 // created already verified: by a provider, as admin
    | Resend(user: Uuid, hash: Hash)
    | Forgot(user: Uuid, hash: Hash)
    | SignIn(user: Uuid, hash: Hash, family: Uuid)                          // password or provider accepted
    | Refresh(presented: Hash, hash: Hash)
    | Logout(presented: Hash)
    | Consume(presented: Hash, kind: Kind, hash: Hash, family: Uuid)        // verify email, reset password
    | SetPassword(user: Uuid)
    | Claim(user: Uuid, identities: nat, hash: Hash, family: Uuid)          // provider claims an unverified account

  /** A presented refresh token can still produce a session. */
  predicate Usable(t: RefreshToken, now: Time) {
    && t.revokedAt.None? && t.expiresAt > now
    && (t.usedAt.Some? ==> now - t.usedAt.value <= REFRESH_REUSE_GRACE)
  }

  function DoRefresh(a: Auth, presented: Hash, hash: Hash, now: Time, ttl: int): (Auth, Reply) {
    if presented !in a.refresh then (a, InvalidToken)
    else
      var t := a.refresh[presented];
      if t.revokedAt.None? && t.usedAt.Some? && now - t.usedAt.value <= REFRESH_REUSE_GRACE && t.expiresAt > now then
        (Issue(a, hash, t.family, t.user, now + ttl), Issued(hash))
      else if t.usedAt.Some? || t.revokedAt.Some? then
        (RevokeFamily(a, t.family, now), Reused)
      else if t.expiresAt <= now then (a, InvalidToken)
      else (Issue(MarkUsed(a, presented, now), hash, t.family, t.user, now + ttl), Issued(hash))
  }

  function DoConsume(a: Auth, presented: Hash, kind: Kind, hash: Hash, family: Uuid, now: Time, ttl: int): (Auth, Reply) {
    if presented !in a.oneTime || a.oneTime[presented].kind != kind then (a, InvalidToken)
    else
      var t := a.oneTime[presented];
      if t.usedAt.Some? || t.expiresAt <= now then (a, InvalidToken)
      else
        var a1 := SetVerified(a, t.user);
        var a2 := if kind.ResetPassword? then RevokeUser(a1, t.user, now) else a1;
        var a3 := a2.(oneTime := a2.oneTime[presented := UsedRow(t, now)]);
        (Issue(a3, hash, family, t.user, now + ttl), Issued(hash))
  }

  /** Only an unverified account that no provider identity is linked to yet can be claimed. */
  function DoClaim(a: Auth, user: Uuid, identities: nat, hash: Hash, family: Uuid, now: Time, ttl: int): (Auth, Reply) {
    if user !in a.verified || a.verified[user] || identities > 0 then (a, InvalidToken)
    else
      var a1 := RevokeUser(a, user, now);
      var a2 := Invalidate(Invalidate(a1, user, VerifyEmail, now), user, ResetPassword, now);
      (Issue(SetVerified(a2, user), hash, family, user, now + ttl), Issued(hash))
  }

  function Perform(a: Auth, op: Op, now: Time, ttl: int): (Auth, Reply) {
    match op
    case Register(user, hash) => (CreateOneTime(a.(verified := a.verified[user := false]), hash, user, VerifyEmail, now), NoSession)
    case Provision(user) => (SetVerified(a, user), NoSession)
    case Resend(user, hash) =>
      if user !in a.verified || a.verified[user] then (a, NoSession)
      else (CreateOneTime(Invalidate(a, user, VerifyEmail, now), hash, user, VerifyEmail, now), NoSession)
    case Forgot(user, hash) =>
      if user !in a.verified then (a, NoSession)
      else (CreateOneTime(Invalidate(a, user, ResetPassword, now), hash, user, ResetPassword, now), NoSession)
    case SignIn(user, hash, family) => (Issue(a, hash, family, user, now + ttl), Issued(hash))
    case Refresh(presented, hash) => DoRefresh(a, presented, hash, now, ttl)
    case Logout(presented) => (RevokeToken(a, presented, now), NoSession)
    case Consume(presented, kind, hash, family) => DoConsume(a, presented, kind, hash, family, now, ttl)
    case SetPassword(user) => (RevokeUser(a, user, now), NoSession)
    case Claim(user, identities, hash, family) => DoClaim(a, user, identities, hash, family, now, ttl)
  }

  predicate FreshHash(a: Auth, hash: Hash) {
    hash !in a.refresh && hash !in a.oneTime
  }

  predicate FreshFamily(a: Auth, family: Uuid) {
    forall h <- a.refresh :: a.refresh[h].family != family
  }

  /** Random tokens and new family ids have not been used before; a registered user is new. */
  predicate Fresh(a: Auth, op: Op) {
    match op
    case Register(user, hash) => user !in a.verified && FreshHash(a, hash)
    case Provision(user) => user !in a.verified
    case Resend(_, hash) => FreshHash(a, hash)
    case Forgot(_, hash) => FreshHash(a, hash)
    case SignIn(user, hash, family) => user in a.verified && FreshHash(a, hash) && FreshFamily(a, family)
    case Refresh(_, hash) => FreshHash(a, hash)
    case Consume(_, _, hash, family) => FreshHash(a, hash) && FreshFamily(a, family)
    case Claim(_, _, hash, family) => FreshHash(a, hash) && FreshFamily(a, family)
    case Logout(_) => true
    case SetPassword(_) => true
  }

  /** A run of the service: operations at non-decreasing times, each applied to the state before it. */
  ghost predicate Run(states: seq<Auth>, ops: seq<Op>, times: seq<Time>, ttl: int) {
    && |states| == |ops| + 1 && |times| == |ops|
    && states[0] == Auth(map[], map[], map[])
    && (forall i, j :: 0 <= i < j < |times| ==> times[i] <= times[j])
    && forall i :: 0 <= i < |ops| ==> Fresh(states[i], ops[i]) && states[i + 1] == Perform(states[i], ops[i], times[i], ttl).0
  }

  function ReplyAt(states: seq<Auth>, ops: seq<Op>, times: seq<Time>, ttl: int, i: nat): Reply
    requires i < |states| && i < |ops| && i < |times|
  {
    Perform(states[i], ops[i], times[i], ttl).1
  }

  // ---- Rows only move one way ----

  /** A row keeps its family, user and expiry, and `used_at` and `revoked_at` never change once set. */
  predicate Later(t: RefreshToken, t': RefreshToken) {
    && t'.family == t.family && t'.user == t.user && t'.expiresAt == t.expiresAt
    && (t.usedAt.Some? ==> t'.usedAt == t.usedAt)
    && (t.revokedAt.Some? ==> t'.revokedAt == t.revokedAt)
  }

  lemma {:induction false} RowsMoveOneWay(a: Auth, op: Op, now: Time, ttl: int, h: Hash)
    requires Fresh(a, op) && h in a.refresh
    ensures var a' := Perform(a, op, now, ttl).0; h in a'.refresh && Later(a.refresh[h], a'.refresh[h])
  {
  }

  lemma {:induction false} RowLater(states: seq<Auth>, ops: seq<Op>, times: seq<Time>, ttl: int, i: nat, j: nat, h: Hash)
    requires Run(states, ops, times, ttl) && i <= j < |states| && h in states[i].refresh
    ensures h in states[j].refresh && Later(states[i].refresh[h], states[j].refresh[h])
    decreases j
  {
    if i < j {
      RowLater(states, ops, times, ttl, i, j - 1, h);
      RowsMoveOneWay(states[j - 1], ops[j - 1], times[j - 1], ttl, h);
    }
  }

  // ---- Families ----

  /** All tokens of a family belong to one user, and tokens belong to known users. */
  ghost predicate FamiliesOk(a: Auth) {
    && (forall h <- a.refresh, h' <- a.refresh ::
          a.refresh[h].family == a.refresh[h'].family ==> a.refresh[h].user == a.refresh[h'].user)
    && (forall h <- a.oneTime :: a.oneTime[h].user in a.verified)
  }

  /** Inserting a token keeps families single-user if its family is new or already that user's. */
  lemma {:induction false} IssueKeepsFamilies(a: Auth, hash: Hash, family: Uuid, user: Uuid, expiresAt: Time)
    requires FamiliesOk(a)
    requires forall h <- a.refresh :: a.refresh[h].family == family ==> a.refresh[h].user == user
    ensures FamiliesOk(Issue(a, hash, family, user, expiresAt))
  {
  }

  /** Statements that only set times on refresh rows keep every row's family and user. */
  lemma {:induction false} TimesKeepFamilies(a: Auth, a': Auth)
    requires FamiliesOk(a) && a'.refresh.Keys == a.refresh.Keys
    requires forall h <- a.refresh :: Later(a.refresh[h], a'.refresh[h])
    requires a'.oneTime == a.oneTime && a.verified.Keys <= a'.verified.Keys
    ensures FamiliesOk(a')
  {
  }

  lemma {:induction false} RefreshKeepsFamilies(a: Auth, presented: Hash, hash: Hash, now: Time, ttl: int)
    requires FamiliesOk(a)
    ensures FamiliesOk(DoRefresh(a, presented, hash, now, ttl).0)
  {
    if presented in a.refresh {
      var t := a.refresh[presented];
      TimesKeepFamilies(a, RevokeFamily(a, t.family, now));
      TimesKeepFamilies(a, MarkUsed(a, presented, now));
      IssueKeepsFamilies(a, hash, t.family, t.user, now + ttl);
      IssueKeepsFamilies(MarkUsed(a, presented, now), hash, t.family, t.user, now + ttl);
    }
  }

  lemma {:induction false} OneTimeKeepsFamilies(a: Auth, a': Auth)
    requires FamiliesOk(a) && a'.refresh == a.refresh && a.verified.Keys <= a'.verified.Keys
    requires forall h <- a'.oneTime :: a'.oneTime[h].user in a'.verified
    ensures FamiliesOk(a')
  {
  }

  lemma {:induction false} ConsumeKeepsFamilies(a: Auth, presented: Hash, kind: Kind, hash: Hash, family: Uuid, now: Time, ttl: int)
    requires FamiliesOk(a) && FreshFamily(a, family)
    ensures FamiliesOk(DoConsume(a, presented, kind, hash, family, now, ttl).0)
  {
    if presented in a.oneTime {
      var t := a.oneTime[presented];
      var a1 := SetVerified(a, t.user);
      OneTimeKeepsFamilies(a, a1);
      var a2 := if kind.ResetPassword? then RevokeUser(a1, t.user, now) else a1;
      TimesKeepFamilies(a1, a2);
      var a3 := a2.(oneTime := a2.oneTime[presented := UsedRow(t, now)]);
      OneTimeKeepsFamilies(a2, a3);
      IssueKeepsFamilies(a3, hash, family, t.user, now + ttl);
    }
  }

  lemma {:induction false} ClaimKeepsFamilies(a: Auth, user: Uuid, identities: nat, hash: Hash, family: Uuid, now: Time, ttl: int)
    requires FamiliesOk(a) && FreshFamily(a, family)
    ensures FamiliesOk(DoClaim(a, user, identities, hash, family, now, ttl).0)
  {
    var a1 := RevokeUser(a, user, now);
    TimesKeepFamilies(a, a1);
    var a2 := Invalidate(Invalidate(a1, user, VerifyEmail, now), user, ResetPassword, now);
    OneTimeKeepsFamilies(a1, a2);
    OneTimeKeepsFamilies(a2, SetVerified(a2, user));
    IssueKeepsFamilies(SetVerified(a2, user), hash, family, user, now + ttl);
  }

  lemma {:induction false} PerformKeepsFamilies(a: Auth, op: Op, now: Time, ttl: int)
    requires FamiliesOk(a) && Fresh(a, op)
    ensures FamiliesOk(Perform(a, op, now, ttl).0)
  {
    var a' := Perform(a, op, now, ttl).0;
    match op
    case Register(_, _) => OneTimeKeepsFamilies(a, a');
    case Provision(_) => OneTimeKeepsFamilies(a, a');
    case Resend(_, _) => OneTimeKeepsFamilies(a, a');
    case Forgot(_, _) => OneTimeKeepsFamilies(a, a');
    case SignIn(user, hash, family) => IssueKeepsFamilies(a, hash, family, user, now + ttl);
    case Refresh(presented, hash) => RefreshKeepsFamilies(a, presented, hash, now, ttl);
    case Logout(_) => TimesKeepFamilies(a, a');
    case Consume(presented, kind, hash, family) => ConsumeKeepsFamilies(a, presented, kind, hash, family, now, ttl);
    case SetPassword(_) => TimesKeepFamilies(a, a');
    case Claim(user, identities, hash, family) => ClaimKeepsFamilies(a, user, identities, hash, family, now, ttl);
  }

  /** In every run, all tokens of one family belong to one user. */
  lemma {:induction false} OneUserPerFamily(states: seq<Auth>, ops: seq<Op>, times: seq<Time>, ttl: int, i: nat)
    requires Run(states, ops, times, ttl) && i < |states|
    ensures FamiliesOk(states[i])
  {
    if i > 0 {
      OneUserPerFamily(states, ops, times, ttl, i - 1);
      PerformKeepsFamilies(states[i - 1], ops[i - 1], times[i - 1], ttl);
    }
  }

  /**
    Lineage: a token that appears in a family with earlier tokens was issued by presenting a
    usable token of that family: unrevoked, unexpired, and unused or within the grace.
   */
  lemma {:induction false} NewTokenHasParent(a: Auth, op: Op, now: Time, ttl: int, h: Hash, sibling: Hash)
    requires FamiliesOk(a) && Fresh(a, op)
    requires var a' := Perform(a, op, now, ttl).0;
             h in a'.refresh && h !in a.refresh && sibling in a.refresh && a.refresh[sibling].family == a'.refresh[h].family
    ensures op.Refresh? && op.presented in a.refresh && Usable(a.refresh[op.presented], now)
    ensures var a' := Perform(a, op, now, ttl).0;
            a.refresh[op.presented].family == a'.refresh[h].family && a.refresh[op.presented].user == a'.refresh[h].user
  {
  }

  /** The family has tokens and all of them are revoked. */
  ghost predicate Dead(a: Auth, family: Uuid) {
    && (exists h :: h in a.refresh && a.refresh[h].family == family)
    && forall h <- a.refresh :: a.refresh[h].family == family ==> a.refresh[h].revokedAt.Some?
  }

  lemma {:induction false} ReuseKills(a: Auth, op: Op, now: Time, ttl: int)
    requires op.Refresh? && Perform(a, op, now, ttl).1 == Reused
    ensures op.presented in a.refresh && Dead(Perform(a, op, now, ttl).0, a.refresh[op.presented].family)
  {
    var a' := Perform(a, op, now, ttl).0;
    assert op.presented in a'.refresh && a'.refresh[op.presented].family == a.refresh[op.presented].family;
  }

  lemma {:induction false} DeadStep(a: Auth, op: Op, now: Time, ttl: int, family: Uuid)
    requires Dead(a, family) && Fresh(a, op)
    ensures Dead(Perform(a, op, now, ttl).0, family)
    ensures op.Refresh? && op.presented in a.refresh && a.refresh[op.presented].family == family ==>
              !Perform(a, op, now, ttl).1.Issued?
  {
    var a' := Perform(a, op, now, ttl).0;
    var w :| w in a.refresh && a.refresh[w].family == family;
    RowsMoveOneWay(a, op, now, ttl, w);
    forall h <- a'.refresh | a'.refresh[h].family == family
      ensures a'.refresh[h].revokedAt.Some?
    {
      if h in a.refresh {
        RowsMoveOneWay(a, op, now, ttl, h);
      } else {
        NewTokenNotDead(a, op, now, ttl, h, family);
      }
    }
  }

  /** No operation adds a token to a family that is dead. */
  lemma {:induction false} NewTokenNotDead(a: Auth, op: Op, now: Time, ttl: int, h: Hash, family: Uuid)
    requires Dead(a, family) && Fresh(a, op)
    requires h in Perform(a, op, now, ttl).0.refresh && h !in a.refresh
    ensures Perform(a, op, now, ttl).0.refresh[h].family != family
  {
  }

  lemma {:induction false} DeadLater(states: seq<Auth>, ops: seq<Op>, times: seq<Time>, ttl: int, i: nat, j: nat, family: Uuid)
    requires Run(states, ops, times, ttl) && i <= j < |states| && Dead(states[i], family)
    ensures Dead(states[j], family)
    decreases j
  {
    if i < j {
      DeadLater(states, ops, times, ttl, i, j - 1, family);
      DeadStep(states[j - 1], ops[j - 1], times[j - 1], ttl, family);
    }
  }

  /**
    Dead families stay dead: once a token is refused as reused, no token of its family, old or
    issued since, ever yields a session again.
   */
  lemma {:induction false} DeadFamiliesStayDead(states: seq<Auth>, ops: seq<Op>, times: seq<Time>, ttl: int, i: nat, j: nat)
    requires Run(states, ops, times, ttl) && i < j < |ops|
    requires ops[i].Refresh? && ReplyAt(states, ops, times, ttl, i) == Reused
    requires ops[j].Refresh? && ops[j].presented in states[j].refresh && ops[i].presented in states[i].refresh
    requires states[j].refresh[ops[j].presented].family == states[i].refresh[ops[i].presented].family
    ensures !ReplyAt(states, ops, times, ttl, j).Issued?
  {
    var family := states[i].refresh[ops[i].presented].family;
    ReuseKills(states[i], ops[i], times[i], ttl);
    DeadLater(states, ops, times, ttl, i + 1, j, family);
    DeadStep(states[j], ops[j], times[j], ttl, family);
  }

  /**
    Exactly the usable tokens yield a session: one new token in the same family, for the same user, and
    of the old tokens only the presented one changes, by its first use. A token that was used up or
    revoked is reported as reused, and then exactly the unrevoked tokens of its family are revoked.
    Anything else is invalid and changes nothing.
   */
  lemma {:induction false} RefreshDecides(a: Auth, op: Op, now: Time, ttl: int)
    requires op.Refresh? && Fresh(a, op)
    ensures var r := Perform(a, op, now, ttl);
            && r.0.oneTime == a.oneTime && r.0.verified == a.verified
            && (r.1.Issued? <==> op.presented in a.refresh && Usable(a.refresh[op.presented], now))
            && (r.1.Issued? ==> r.1.token == op.hash && IssuedOnly(a, r.0, op.hash, a.refresh[op.presented].family, a.refresh[op.presented].user, now + ttl)
                                && forall h <- a.refresh :: r.0.refresh[h] ==
                                     if h == op.presented && a.refresh[h].usedAt.None? then a.refresh[h].(usedAt := Some(now)) else a.refresh[h])
            && (r.1.Reused? <==> && op.presented in a.refresh && !Usable(a.refresh[op.presented], now)
                                 && (a.refresh[op.presented].usedAt.Some? || a.refresh[op.presented].revokedAt.Some?))
            && (r.1.Reused? ==> RevokedOnly(a, r.0, (t: RefreshToken) => t.family == a.refresh[op.presented].family, now))
            && (r.1.InvalidToken? ==> r.0 == a)
            && !r.1.NoSession?
  {
  }

  /** The only new token is `hash`, unused and unrevoked. */
  ghost predicate IssuedOnly(a: Auth, a': Auth, hash: Hash, family: Uuid, user: Uuid, expiresAt: Time) {
    && a'.refresh.Keys == a.refresh.Keys + {hash}
    && a'.refresh[hash] == RefreshToken(family, user, expiresAt, None, None)
  }

  /** Exactly the unrevoked tokens that satisfy `chosen` are revoked now, and no other token changes. */
  ghost predicate RevokedOnly(a: Auth, a': Auth, chosen: RefreshToken -> bool, now: Time) {
    && a'.refresh.Keys == a.refresh.Keys
    && forall h <- a.refresh :: a'.refresh[h] ==
         if chosen(a.refresh[h]) && a.refresh[h].revokedAt.None? then a.refresh[h].(revokedAt := Some(now)) else a.refresh[h]
  }

  /** Exactly the unused one-time tokens that satisfy `chosen` are used up now, and no other changes. */
  ghost predicate UsedUpOnly(a: Auth, a': Auth, chosen: OneTimeToken -> bool, now: Time) {
    && a'.oneTime.Keys == a.oneTime.Keys
    && forall h <- a.oneTime :: a'.oneTime[h] ==
         if chosen(a.oneTime[h]) && a.oneTime[h].usedAt.None? then a.oneTime[h].(usedAt := Some(now)) else a.oneTime[h]
  }

  /** Signing in adds one token and changes nothing else. */
  lemma {:induction false} SignInIssues(a: Auth, op: Op, now: Time, ttl: int)
    requires op.SignIn? && Fresh(a, op)
    ensures var r := Perform(a, op, now, ttl);
            && r.1 == Issued(op.hash) && r.0.oneTime == a.oneTime && r.0.verified == a.verified
            && IssuedOnly(a, r.0, op.hash, op.family, op.user, now + ttl)
            && forall h <- a.refresh :: r.0.refresh[h] == a.refresh[h]
  {
  }

  /** Logging out revokes exactly the presented token; a password change exactly those of its user. */
  lemma {:induction false} RevocationsReach(a: Auth, op: Op, now: Time, ttl: int)
    requires op.Logout? || op.SetPassword?
    ensures var r := Perform(a, op, now, ttl);
            && r.1.NoSession? && r.0.oneTime == a.oneTime && r.0.verified == a.verified
            && (op.SetPassword? ==> RevokedOnly(a, r.0, (t: RefreshToken) => t.user == op.user, now))
            && (op.Logout? ==>
                  && r.0.refresh.Keys == a.refresh.Keys
                  && forall h <- a.refresh :: r.0.refresh[h] ==
                       if h == op.presented && a.refresh[h].revokedAt.None? then a.refresh[h].(revokedAt := Some(now)) else a.refresh[h])
  {
  }

  /**
    A request for a one-time token, by a user it is meant for, uses up that user's earlier ones of the
    kind and creates one that lives 24 hours to verify an address and 1 hour to reset a password.
   */
  lemma {:induction false} RequestsCreate(a: Auth, op: Op, now: Time, ttl: int)
    requires (op.Resend? || op.Forgot?) && Fresh(a, op)
    ensures var r := Perform(a, op, now, ttl);
            var kind := if op.Resend? then VerifyEmail else ResetPassword;
            var lifetime := if op.Resend? then 24 * 3600 * 1_000_000_000 else 3600 * 1_000_000_000;
            && r.1.NoSession? && r.0.refresh == a.refresh && r.0.verified == a.verified
            && if op.user !in a.verified || (op.Resend? && a.verified[op.user]) then r.0 == a
               else
                 && op.hash in r.0.oneTime && r.0.oneTime[op.hash] == OneTimeToken(op.user, kind, now + lifetime, None)
                 && UsedUpOnly(a, r.0.(oneTime := r.0.oneTime - {op.hash}), (t: OneTimeToken) => t.user == op.user && t.kind == kind, now)
  {
  }

  /** A registered user is unverified and has a verification token; a provisioned one is verified at once. */
  lemma {:induction false} NewUserStarts(a: Auth, op: Op, now: Time, ttl: int)
    requires (op.Register? || op.Provision?) && Fresh(a, op)
    ensures op.Provision? ==> Perform(a, op, now, ttl) == (a.(verified := a.verified[op.user := true]), NoSession)
    ensures op.Register? ==>
            var r := Perform(a, op, now, ttl);
            && r.1.NoSession? && r.0.refresh == a.refresh && r.0.verified == a.verified[op.user := false]
            && r.0.oneTime == a.oneTime[op.hash := OneTimeToken(op.user, VerifyEmail, now + 24 * 3600 * 1_000_000_000, None)]
  {
  }

  // ---- The grace ----

  /** A success happens no later than 30 seconds after the recorded first use. */
  lemma {:induction false} SuccessIsNearFirstUse(a: Auth, op: Op, now: Time, ttl: int)
    requires op.Refresh? && Fresh(a, op) && Perform(a, op, now, ttl).1.Issued?
    ensures var a' := Perform(a, op, now, ttl).0;
            && op.presented in a.refresh && op.presented in a'.refresh && a'.refresh[op.presented].usedAt.Some?
            && a'.refresh[op.presented].usedAt.value == (if a.refresh[op.presented].usedAt.Some? then a.refresh[op.presented].usedAt.value else now)
            && now <= a'.refresh[op.presented].usedAt.value + REFRESH_REUSE_GRACE
  {
  }

  /** First uses lie in the past. */
  ghost predicate UsesInPast(a: Auth, now: Time) {
    forall h <- a.refresh :: a.refresh[h].usedAt.Some? ==> a.refresh[h].usedAt.value <= now
  }

  lemma {:induction false} UsesStep(a: Auth, op: Op, now: Time, ttl: int)
    requires UsesInPast(a, now)
    ensures UsesInPast(Perform(a, op, now, ttl).0, now)
  {
  }

  lemma {:induction false} UsesHold(states: seq<Auth>, ops: seq<Op>, times: seq<Time>, ttl: int, i: nat)
    requires Run(states, ops, times, ttl) && i < |ops|
    ensures UsesInPast(states[i + 1], times[i])
  {
    if i > 0 {
      UsesHold(states, ops, times, ttl, i - 1);
      assert times[i - 1] <= times[i];
    }
    UsesStep(states[i], ops[i], times[i], ttl);
  }

  /** The grace does not slide: however often a token is retried, all its successes lie within 30 seconds. */
  lemma {:induction false} GraceDoesNotSlide(states: seq<Auth>, ops: seq<Op>, times: seq<Time>, ttl: int, i: nat, j: nat)
    requires Run(states, ops, times, ttl) && i < j < |ops|
    requires ops[i].Refresh? && ops[j].Refresh? && ops[i].presented == ops[j].presented
    requires ReplyAt(states, ops, times, ttl, i).Issued? && ReplyAt(states, ops, times, ttl, j).Issued?
    ensures times[i] <= times[j] <= times[i] + 30 * 1_000_000_000
  {
    var h := ops[i].presented;
    SuccessIsNearFirstUse(states[i], ops[i], times[i], ttl);
    SuccessIsNearFirstUse(states[j], ops[j], times[j], ttl);
    UsesHold(states, ops, times, ttl, i);
    RowLater(states, ops, times, ttl, i + 1, j, h);
  }

  /** What can revoke an unrevoked token: reuse in its family, its logout, and whatever signs its user out. */
  ghost predicate Revokes(a: Auth, op: Op, now: Time, ttl: int, h: Hash)
    requires h in a.refresh
  {
    var reply := Perform(a, op, now, ttl).1;
    match op
    case Refresh(presented, _) => reply.Reused? && presented in a.refresh && a.refresh[presented].family == a.refresh[h].family
    case Logout(presented) => presented == h
    case Consume(presented, kind, _, _) =>
      reply.Issued? && kind.ResetPassword? && presented in a.oneTime && a.oneTime[presented].user == a.refresh[h].user
    case SetPassword(user) => user == a.refresh[h].user
    case Claim(user, _, _, _) => reply.Issued? && user == a.refresh[h].user
    case _ => false
  }

  lemma {:induction false} RevokedExactlyWhen(a: Auth, op: Op, now: Time, ttl: int, h: Hash)
    requires Fresh(a, op) && h in a.refresh && a.refresh[h].revokedAt.None?
    ensures var a' := Perform(a, op, now, ttl).0;
            h in a'.refresh && (a'.refresh[h].revokedAt.Some? <==> Revokes(a, op, now, ttl, h))
  {
  }

  lemma {:induction false} StaysUnrevoked(states: seq<Auth>, ops: seq<Op>, times: seq<Time>, ttl: int, i: nat, j: nat, h: Hash)
    requires Run(states, ops, times, ttl) && i <= j < |states| && h in states[i].refresh && states[i].refresh[h].revokedAt.None?
    requires forall k :: i <= k < j && h in states[k].refresh ==> !Revokes(states[k], ops[k], times[k], ttl, h)
    ensures h in states[j].refresh && states[j].refresh[h].revokedAt.None?
    decreases j
  {
    if i < j {
      StaysUnrevoked(states, ops, times, ttl, i, j - 1, h);
      RevokedExactlyWhen(states[j - 1], ops[j - 1], times[j - 1], ttl, h);
    }
  }

  /**
    The grace helps: a token that once yielded a session yields one again, whenever it is presented up
    to 30 seconds after its first use and before it expires, unless something revoked it in between.
   */
  lemma {:induction false} RetryWithinGraceSucceeds(states: seq<Auth>, ops: seq<Op>, times: seq<Time>, ttl: int, i: nat, j: nat)
    requires Run(states, ops, times, ttl) && i < j < |ops|
    requires ops[i].Refresh? && ops[j].Refresh? && ops[i].presented == ops[j].presented
    requires ReplyAt(states, ops, times, ttl, i).Issued?
    requires forall k :: i < k < j && ops[i].presented in states[k].refresh ==>
               !Revokes(states[k], ops[k], times[k], ttl, ops[i].presented)
    ensures var h := ops[i].presented;
            && h in states[i].refresh && h in states[i + 1].refresh && states[i + 1].refresh[h].usedAt.Some?
            && (states[i].refresh[h].usedAt.None? ==> states[i + 1].refresh[h].usedAt.value == times[i])
            && (times[j] - states[i + 1].refresh[h].usedAt.value <= 30 * 1_000_000_000 && times[j] < states[i].refresh[h].expiresAt ==>
                  ReplyAt(states, ops, times, ttl, j).Issued?)
  {
    var h := ops[i].presented;
    SuccessIsNearFirstUse(states[i], ops[i], times[i], ttl);
    RefreshDecides(states[i], ops[i], times[i], ttl);
    assert states[i + 1].refresh[h].revokedAt.None?;
    StaysUnrevoked(states, ops, times, ttl, i + 1, j, h);
    RowLater(states, ops, times, ttl, i, j, h);
    RowLater(states, ops, times, ttl, i + 1, j, h);
    RefreshDecides(states[j], ops[j], times[j], ttl);
  }

  // ---- One-time tokens ----

  /** Of the unused one-time tokens, no two share user and kind; every token has a known user. */
  ghost predicate OneUnused(a: Auth) {
    && (forall h <- a.oneTime :: a.oneTime[h].user in a.verified)
    && (forall h <- a.oneTime, h' <- a.oneTime ::
          (&& a.oneTime[h].usedAt.None? && a.oneTime[h'].usedAt.None?
           && a.oneTime[h].user == a.oneTime[h'].user && a.oneTime[h].kind == a.oneTime[h'].kind) ==> h == h')
  }

  lemma {:induction false} CreateKeepsOneUnused(a: Auth, hash: Hash, user: Uuid, kind: Kind, now: Time)
    requires OneUnused(a) && user in a.verified
    requires forall h <- a.oneTime :: a.oneTime[h].user == user && a.oneTime[h].kind == kind ==> a.oneTime[h].usedAt.Some?
    ensures OneUnused(CreateOneTime(a, hash, user, kind, now))
  {
  }

  /** Using tokens up keeps the invariant. */
  lemma {:induction false} UsingKeepsOneUnused(a: Auth, a': Auth)
    requires OneUnused(a) && a'.oneTime.Keys == a.oneTime.Keys && a.verified.Keys <= a'.verified.Keys
    requires forall h <- a.oneTime :: a'.oneTime[h].user == a.oneTime[h].user && a'.oneTime[h].kind == a.oneTime[h].kind
                                      && (a'.oneTime[h].usedAt.None? ==> a.oneTime[h].usedAt.None?)
    ensures OneUnused(a')
  {
  }

  lemma {:induction false} PerformKeepsOneUnused(a: Auth, op: Op, now: Time, ttl: int)
    requires OneUnused(a) && Fresh(a, op)
    ensures OneUnused(Perform(a, op, now, ttl).0)
  {
    var a' := Perform(a, op, now, ttl).0;
    match op
    case Register(user, hash) =>
      var a1 := a.(verified := a.verified[user := false]);
      UsingKeepsOneUnused(a, a1);
      CreateKeepsOneUnused(a1, hash, user, VerifyEmail, now);
    case Resend(user, hash) => if a' != a { RenewKeepsOneUnused(a, hash, user, VerifyEmail, now); }
    case Forgot(user, hash) => if a' != a { RenewKeepsOneUnused(a, hash, user, ResetPassword, now); }
    case Consume(_, _, _, _) => UsingKeepsOneUnused(a, a');
    case Claim(_, _, _, _) => UsingKeepsOneUnused(a, a');
    case Provision(_) => UsingKeepsOneUnused(a, a');
    case _ =>
  }

  lemma {:induction false} RenewKeepsOneUnused(a: Auth, hash: Hash, user: Uuid, kind: Kind, now: Time)
    requires OneUnused(a) && user in a.verified
    ensures OneUnused(CreateOneTime(Invalidate(a, user, kind, now), hash, user, kind, now))
  {
    UsingKeepsOneUnused(a, Invalidate(a, user, kind, now));
    CreateKeepsOneUnused(Invalidate(a, user, kind, now), hash, user, kind, now);
  }

  /** In every run at most one one-time token per user and kind is unused. */
  lemma {:induction false} AtMostOneUnused(states: seq<Auth>, ops: seq<Op>, times: seq<Time>, ttl: int, i: nat)
    requires Run(states, ops, times, ttl) && i < |states|
    ensures OneUnused(states[i])
  {
    if i > 0 {
      AtMostOneUnused(states, ops, times, ttl, i - 1);
      PerformKeepsOneUnused(states[i - 1], ops[i - 1], times[i - 1], ttl);
    }
  }

  /**
    Two requests for a new token, running at once, each use up the tokens they see before either
    creates its own. Two unused tokens remain, so the property rests on requests running one by one.
   */
  lemma {:induction false} TwoRequestsAtOnce(a: Auth, user: Uuid, kind: Kind, first: Hash, second: Hash, now: Time)
    requires first != second
    ensures var used := Invalidate(Invalidate(a, user, kind, now), user, kind, now);
            !OneUnused(CreateOneTime(CreateOneTime(used, first, user, kind, now), second, user, kind, now))
  {
    var used := Invalidate(Invalidate(a, user, kind, now), user, kind, now);
    var both := CreateOneTime(CreateOneTime(used, first, user, kind, now), second, user, kind, now);
    assert both.oneTime[first].usedAt.None? && both.oneTime[second].usedAt.None?;
  }

  lemma {:induction false} UsedStaysUsed(states: seq<Auth>, ops: seq<Op>, times: seq<Time>, ttl: int, i: nat, j: nat, h: Hash)
    requires Run(states, ops, times, ttl) && i <= j < |states|
    requires h in states[i].oneTime && states[i].oneTime[h].usedAt.Some?
    ensures h in states[j].oneTime && states[j].oneTime[h].usedAt.Some?
    decreases j
  {
    if i < j {
      UsedStaysUsed(states, ops, times, ttl, i, j - 1, h);
      assert Fresh(states[j - 1], ops[j - 1]);
    }
  }

  /**
    Exactly an unused, unexpired token of the right kind yields a session: it is used up, its user is
    verified and signed in, and a reset revokes exactly that user's other tokens. Anything else changes nothing.
   */
  lemma {:induction false} ConsumeDecides(a: Auth, op: Op, now: Time, ttl: int)
    requires op.Consume? && Fresh(a, op)
    ensures var r := Perform(a, op, now, ttl);
            && (r.1.Issued? <==> && op.presented in a.oneTime && a.oneTime[op.presented].kind == op.kind
                                 && a.oneTime[op.presented].usedAt.None? && a.oneTime[op.presented].expiresAt > now)
            && (!r.1.Issued? ==> r.0 == a && r.1.InvalidToken?)
            && (r.1.Issued? ==>
                  var user := a.oneTime[op.presented].user;
                  && r.1.token == op.hash && r.0.verified == a.verified[user := true]
                  && r.0.oneTime == a.oneTime[op.presented := a.oneTime[op.presented].(usedAt := Some(now))]
                  && IssuedOnly(a, r.0, op.hash, op.family, user, now + ttl)
                  && RevokedOnly(a, r.0.(refresh := r.0.refresh - {op.hash}),
                                 (t: RefreshToken) => op.kind.ResetPassword? && t.user == user, now))
  {
  }

  /** Exactly an unverified account without a linked identity can be claimed; everything of it is discarded, nothing of others. */
  lemma {:induction false} ClaimDecides(a: Auth, op: Op, now: Time, ttl: int)
    requires op.Claim? && Fresh(a, op)
    ensures var r := Perform(a, op, now, ttl);
            && (r.1.Issued? <==> op.user in a.verified && !a.verified[op.user] && op.identities == 0)
            && (!r.1.Issued? ==> r.0 == a && r.1.InvalidToken?)
            && (r.1.Issued? ==>
                  && r.1.token == op.hash && r.0.verified == a.verified[op.user := true]
                  && UsedUpOnly(a, r.0, (t: OneTimeToken) => t.user == op.user, now)
                  && IssuedOnly(a, r.0, op.hash, op.family, op.user, now + ttl)
                  && RevokedOnly(a, r.0.(refresh := r.0.refresh - {op.hash}), (t: RefreshToken) => t.user == op.user, now))
  {
    ClaimUsesUp(a, op.user, now);
  }

  lemma {:induction false} ClaimUsesUp(a: Auth, user: Uuid, now: Time)
    ensures UsedUpOnly(a, Invalidate(Invalidate(a, user, VerifyEmail, now), user, ResetPassword, now), (t: OneTimeToken) => t.user == user, now)
  {
    var a1 := Invalidate(a, user, VerifyEmail, now);
    var a2 := Invalidate(a1, user, ResetPassword, now);
    forall h <- a.oneTime
      ensures a2.oneTime[h] == if a.oneTime[h].user == user && a.oneTime[h].usedAt.None?
                               then a.oneTime[h].(usedAt := Some(now)) else a.oneTime[h]
    {
      assert a.oneTime[h].kind.VerifyEmail? || a.oneTime[h].kind.ResetPassword?;
      assert a1.oneTime[h].kind == a.oneTime[h].kind;
    }
  }

  /** A one-time token yields at most one session. */
  lemma {:induction false} OneTimeMeansOnce(states: seq<Auth>, ops: seq<Op>, times: seq<Time>, ttl: int, i: nat, j: nat)
    requires Run(states, ops, times, ttl) && i < j < |ops|
    requires ops[i].Consume? && ops[j].Consume? && ops[i].presented == ops[j].presented
    requires ReplyAt(states, ops, times, ttl, i).Issued?
    ensures !ReplyAt(states, ops, times, ttl, j).Issued?
  {
    UsedStaysUsed(states, ops, times, ttl, i + 1, j, ops[i].presented);
  }

  /** Right after a password reset the only unrevoked refresh token of the user is the one just issued. */
  lemma {:induction false} ResetLeavesOneSurvivor(a: Auth, op: Op, now: Time, ttl: int)
    requires op.Consume? && op.kind.ResetPassword? && Fresh(a, op) && Perform(a, op, now, ttl).1.Issued?
    ensures var a' := Perform(a, op, now, ttl).0;
            && op.presented in a.oneTime && op.hash in a'.refresh
            && forall h <- a'.refresh ::
                 (a'.refresh[h].user == a.oneTime[op.presented].user && a'.refresh[h].revokedAt.None?) <==> h == op.hash
  {
  }

  /** Right after a claim the claimed user has one unrevoked refresh token and no unused one-time token. */
  lemma {:induction false} ClaimDiscardsEverything(a: Auth, op: Op, now: Time, ttl: int)
    requires op.Claim? && Fresh(a, op) && Perform(a, op, now, ttl).1.Issued?
    ensures var a' := Perform(a, op, now, ttl).0;
            && op.hash in a'.refresh
            && (forall h <- a'.refresh :: (a'.refresh[h].user == op.user && a'.refresh[h].revokedAt.None?) <==> h == op.hash)
            && (forall h <- a'.oneTime :: a'.oneTime[h].user == op.user ==> a'.oneTime[h].usedAt.Some?)
  {
    var a1 := RevokeUser(a, op.user, now);
    var a2 := Invalidate(a1, op.user, VerifyEmail, now);
    var a3 := Invalidate(a2, op.user, ResetPassword, now);
    forall h <- a3.oneTime | a3.oneTime[h].user == op.user
      ensures a3.oneTime[h].usedAt.Some?
    {
      assert a2.oneTime[h].kind.VerifyEmail? ==> a2.oneTime[h].usedAt.Some?;
    }
  }

  // ---- The service ----

  class AuthService {
    var refresh: map<Hash, RefreshToken>
    var oneTime: map<Hash, OneTimeToken>
    var verified: map<Uuid, bool>
    const refreshTtl: int

    constructor (refreshTtl: int)
      ensures State() == Auth(map[], map[], map[]) && this.refreshTtl == refreshTtl
    {
      refresh, oneTime, verified := map[], map[], map[];
      this.refreshTtl := refreshTtl;
    }

    ghost function State(): Auth
      reads this
    {
      Auth(refresh, oneTime, verified)
    }

    /** Insert the new refresh token of a session. */
    method IssueSession(user: Uuid, family: Uuid, hash: Hash, now: Time)
      modifies this`refresh
      ensures State() == Issue(old(State()), hash, family, user, now + refreshTtl)
    {
      refresh := refresh[hash := RefreshToken(family, user, now + refreshTtl, None, None)];
    }

    /** Revoke every unrevoked token of the rows selected by family or by user. */
    method RevokeWhere(family: Option<Uuid>, user: Option<Uuid>, now: Time)
      requires family.Some? != user.Some?
      modifies this`refresh
      ensures State() == if family.Some? then RevokeFamily(old(State()), family.value, now)
                         else RevokeUser(old(State()), user.value, now)
    {
      var rows := refresh;
      var left := refresh.Keys;
      while left != {}
        invariant left <= refresh.Keys == rows.Keys
        invariant forall h <- left :: rows[h] == refresh[h]
        invariant forall h <- refresh :: h !in left ==>
                    rows[h] == if (if family.Some? then refresh[h].family == family.value else refresh[h].user == user.value)
                               then RevokedRow(refresh[h], now) else refresh[h]
        decreases left
      {
        var h :| h in left;
        var selected := if family.Some? then refresh[h].family == family.value else refresh[h].user == user.value;
        if selected && refresh[h].revokedAt.None? {
          rows := rows[h := rows[h].(revokedAt := Some(now))];
        }
        left := left - {h};
      }
      refresh := rows;
    }

    method Refresh(presented: Hash, hash: Hash, now: Time) returns (reply: Reply)
      modifies this`refresh
      ensures (State(), reply) == DoRefresh(old(State()), presented, hash, now, refreshTtl)
    {
      if presented !in refresh {
        return InvalidToken;
      }
      var record := refresh[presented];
      if record.revokedAt.None? && record.usedAt.Some?
         && now - record.usedAt.value <= REFRESH_REUSE_GRACE && record.expiresAt > now {
        IssueSession(record.user, record.family, hash, now);
        return Issued(hash);
      }
      if record.usedAt.Some? || record.revokedAt.Some? {
        RevokeWhere(Some(record.family), None, now);
        return Reused;
      }
      if record.expiresAt <= now {
        return InvalidToken;
      }
      refresh := refresh[presented := record.(usedAt := Some(now))];
      IssueSession(record.user, record.family, hash, now);
      return Issued(hash);
    }

    /** Verify an email address or reset a password, and sign in. */
    method ConsumeOneTimeToken(presented: Hash, kind: Kind, hash: Hash, family: Uuid, now: Time) returns (reply: Reply)
      modifies this
      ensures (State(), reply) == DoConsume(old(State()), presented, kind, hash, family, now, refreshTtl)
    {
      if presented !in oneTime || oneTime[presented].kind != kind {
        return InvalidToken;
      }
      var record := oneTime[presented];
      if record.usedAt.Some? || record.expiresAt <= now {
        return InvalidToken;
      }
      verified := verified[record.user := true];
      if kind.ResetPassword? {
        RevokeWhere(None, Some(record.user), now);
      }
      oneTime := oneTime[presented := record.(usedAt := Some(now))];
      IssueSession(record.user, family, hash, now);
      return Issued(hash);
    }

    /** Use up every unused one-time token of a user and kind. */
    method InvalidateOneTimeTokens(user: Uuid, kind: Kind, now: Time)
      modifies this`oneTime
      ensures State() == Invalidate(old(State()), user, kind, now)
    {
      var rows := oneTime;
      var left := oneTime.Keys;
      while left != {}
        invariant left <= oneTime.Keys == rows.Keys
        invariant forall h <- left :: rows[h] == oneTime[h]
        invariant forall h <- oneTime :: h !in left ==>
                    rows[h] == if oneTime[h].user == user && oneTime[h].kind == kind
                               then UsedRow(oneTime[h], now) else oneTime[h]
        decreases left
      {
        var h :| h in left;
        if oneTime[h].user == user && oneTime[h].kind == kind && oneTime[h].usedAt.None? {
          rows := rows[h := rows[h].(usedAt := Some(now))];
        }
        left := left - {h};
      }
      oneTime := rows;
    }

    /** Replace the verification token of an unverified user; silent for anyone else. */
    method ResendVerification(user: Uuid, hash: Hash, now: Time)
      modifies this`oneTime
      ensures (State(), NoSession) == Perform(old(State()), Resend(user, hash), now, refreshTtl)
    {
      if user !in verified || verified[user] {
        return;
      }
      InvalidateOneTimeTokens(user, VerifyEmail, now);
      oneTime := oneTime[hash := OneTimeToken(user, VerifyEmail, now + VERIFICATION_TOKEN_TTL, None)];
    }

    method ForgotPassword(user: Uuid, hash: Hash, now: Time)
      modifies this`oneTime
      ensures (State(), NoSession) == Perform(old(State()), Forgot(user, hash), now, refreshTtl)
    {
      if user !in verified {
        return;
      }
      InvalidateOneTimeTokens(user, ResetPassword, now);
      oneTime := oneTime[hash := OneTimeToken(user, ResetPassword, now + PASSWORD_RESET_TTL, None)];
    }

    /** A provider identity takes over an unverified account; everything outstanding is discarded. */
    method ClaimUnverifiedAccount(user: Uuid, identities: nat, hash: Hash, family: Uuid, now: Time) returns (reply: Reply)
      modifies this
      ensures (State(), reply) == Perform(old(State()), Claim(user, identities, hash, family), now, refreshTtl)
    {
      if user !in verified || verified[user] || identities > 0 {
        return InvalidToken;
      }
      RevokeWhere(None, Some(user), now);
      InvalidateOneTimeTokens(user, VerifyEmail, now);
      InvalidateOneTimeTokens(user, ResetPassword, now);
      verified := verified[user := true];
      IssueSession(user, family, hash, now);
      return Issued(hash);
    }

    method Logout(presented: Hash, now: Time)
      modifies this`refresh
      ensures State() == RevokeToken(old(State()), presented, now)
    {
      if presented in refresh && refresh[presented].revokedAt.None? {
        refresh := refresh[presented := refresh[presented].(revokedAt := Some(now))];
      }
    }
  }
}
