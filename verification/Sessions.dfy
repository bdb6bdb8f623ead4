/** Refresh-token rotation (src/services/auth.service.ts): login, refresh, logout, password reset
    and the expiry of stored tokens, each request atomic. */
module Sessions {
  import opened Wrappers

  const REFRESH_TOKEN_TTL_MS := 7 * 24 * 60 * 60 * 1000

  /** A stored token; tokens are known by their hash, and every issued hash is new. */
  datatype Token = Token(userId: nat, expiresAt: int, revokedAt: Option<int>, replacedBy: Option<nat>)

  /** `serial` numbers the hashes in the order they were issued, and `sessionOf` names the login
      each descends from; neither is stored by the service. */
  datatype World = World(
    tokens: map<nat, Token>,
    inactive: set<nat>,
    serial: map<nat, nat>,
    nextSerial: nat,
    sessionOf: map<nat, nat>)

  const EMPTY := World(map[], {}, map[], 0, map[])

  datatype Event =
    | Login(userId: nat, hash: nat, now: int)
    | Refresh(presented: nat, hash: nat, now: int)
    | Logout(presented: nat)
    | ResetPassword(userId: nat)
    | Suspend(userId: nat)
    | Reactivate(userId: nat)
    | Expire(hash: nat, now: int)

  datatype RefreshError = Missing | InvalidOrRevoked | Expired | AccountInactive

  predicate Live(w: World, hash: nat) {
    hash in w.tokens && w.tokens[hash].revokedAt.None?
  }

  function NewToken(userId: nat, now: int): Token {
    Token(userId, now + REFRESH_TOKEN_TTL_MS, None, None)
  }

  function IssueFor(w: World, userId: nat, hash: nat, session: nat, now: int): World {
    w.(tokens := w.tokens[hash := NewToken(userId, now)],
       serial := w.serial[hash := w.nextSerial], nextSerial := w.nextSerial + 1,
       sessionOf := w.sessionOf[hash := session])
  }

  function SessionOf(w: World, hash: nat): nat {
    if hash in w.sessionOf then w.sessionOf[hash] else hash
  }

  /** The new token is stored first; then the old one is revoked and linked to it. */
  function Rotate(w: World, presented: nat, hash: nat, now: int): World
    requires presented in w.tokens
  {
    var previous := w.tokens[presented];
    var w' := IssueFor(w, previous.userId, hash, SessionOf(w, presented), now);
    w'.(tokens := w'.tokens[presented := previous.(revokedAt := Some(now), replacedBy := Some(hash))])
  }

  function WithoutUser(tokens: map<nat, Token>, userId: nat): map<nat, Token> {
    map h | h in tokens && tokens[h].userId != userId :: tokens[h]
  }

  function DeleteTokensOf(w: World, userId: nat): World {
    w.(tokens := WithoutUser(w.tokens, userId))
  }

  function RefreshResult(w: World, presented: Option<nat>, hash: nat, now: int): Result<nat, RefreshError> {
    match presented
    case None => Err(Missing)
    case Some(old') =>
      if !Live(w, old') then Err(InvalidOrRevoked)
      else if w.tokens[old'].expiresAt < now then Err(Expired)
      else if w.tokens[old'].userId in w.inactive then Err(AccountInactive)
      else Ok(hash)
  }

  function AfterRefresh(w: World, presented: nat, hash: nat, now: int): World {
    match RefreshResult(w, Some(presented), hash, now)
    case Ok(_) => Rotate(w, presented, hash, now)
    case Err(Expired) => w.(tokens := w.tokens - {presented})
    case Err(_) => w
  }

  function Serve(w: World, e: Event): World {
    match e
    case Login(userId, hash, now) =>
      if userId in w.inactive then w else IssueFor(w, userId, hash, hash, now)
    case Refresh(presented, hash, now) => AfterRefresh(w, presented, hash, now)
    case Logout(presented) => w.(tokens := w.tokens - {presented})
    case ResetPassword(userId) => DeleteTokensOf(w, userId)
    case Suspend(userId) => DeleteTokensOf(w, userId).(inactive := w.inactive + {userId})
    case Reactivate(userId) => w.(inactive := w.inactive - {userId})
    case Expire(hash, now) =>
      if hash in w.tokens && w.tokens[hash].expiresAt <= now then w.(tokens := w.tokens - {hash}) else w
  }

  function ServeAll(w: World, es: seq<Event>): World
    decreases |es|
  {
    if es == [] then w else ServeAll(Serve(w, es[0]), es[1..])
  }

  /** Every hash issued along the way is new. */
  predicate FreshHashes(w: World, es: seq<Event>)
    decreases |es|
  {
    es == [] || (
      && (es[0].Login? || es[0].Refresh? ==> es[0].hash !in w.serial)
      && FreshHashes(Serve(w, es[0]), es[1..]))
  }

  // ----- Invariants -----------------------------------------------------------------------------

  predicate Tracked(w: World) {
    && w.tokens.Keys <= w.serial.Keys == w.sessionOf.Keys
    && (forall h | h in w.serial :: w.serial[h] < w.nextSerial)
    && (forall h | h in w.sessionOf :: w.sessionOf[h] in w.serial)
  }

  /** At most one unrevoked token descends from each login. */
  predicate OnePerSession(w: World) {
    forall a, b | a in w.tokens && b in w.tokens && a != b ::
      Live(w, a) && Live(w, b) ==> SessionOf(w, a) != SessionOf(w, b)
  }

  /** `a` was replaced by `b`. */
  predicate Link(w: World, a: nat, b: nat) {
    a in w.tokens && w.tokens[a].replacedBy == Some(b)
  }

  /** A link leads from a revoked token to one issued later. */
  predicate LinksForward(w: World) {
    forall a | a in w.tokens && w.tokens[a].replacedBy.Some? ::
      && w.tokens[a].revokedAt.Some?
      && a in w.serial && w.tokens[a].replacedBy.value in w.serial
      && w.serial[a] < w.serial[w.tokens[a].replacedBy.value]
  }

  /** A token replaces at most one other. */
  predicate ReplacesOne(w: World) {
    forall a, b | a in w.tokens && b in w.tokens && a != b && w.tokens[a].replacedBy.Some? ::
      w.tokens[a].replacedBy != w.tokens[b].replacedBy
  }

  predicate Sound(w: World) {
    Tracked(w) && OnePerSession(w) && LinksForward(w) && ReplacesOne(w)
  }

  lemma IssueTracked(w: World, userId: nat, hash: nat, session: nat, now: int)
    requires Tracked(w) && hash !in w.serial && (session in w.serial || session == hash)
    ensures Tracked(IssueFor(w, userId, hash, session, now))
  {
  }

  lemma IssueOnePerSession(w: World, userId: nat, hash: nat, now: int)
    requires Tracked(w) && OnePerSession(w) && hash !in w.serial
    ensures OnePerSession(IssueFor(w, userId, hash, hash, now))
  {
    var w' := IssueFor(w, userId, hash, hash, now);
    forall a, b | a in w'.tokens && b in w'.tokens && a != b && Live(w', a) && Live(w', b)
      ensures SessionOf(w', a) != SessionOf(w', b)
    {
      assert a != hash ==> w.sessionOf[a] in w.serial;
      assert b != hash ==> w.sessionOf[b] in w.serial;
      assert a != hash && b != hash ==> Live(w, a) && Live(w, b);
    }
  }

  lemma IssueLinksForward(w: World, userId: nat, hash: nat, session: nat, now: int)
    requires Tracked(w) && LinksForward(w) && hash !in w.serial
    ensures LinksForward(IssueFor(w, userId, hash, session, now))
  {
  }

  lemma IssueReplacesOne(w: World, userId: nat, hash: nat, now: int)
    requires ReplacesOne(w) && hash !in w.tokens
    ensures ReplacesOne(IssueFor(w, userId, hash, hash, now))
  {
  }

  lemma IssueSound(w: World, userId: nat, hash: nat, now: int)
    requires Sound(w) && hash !in w.serial
    ensures Sound(IssueFor(w, userId, hash, hash, now))
  {
    IssueTracked(w, userId, hash, hash, now);
    IssueOnePerSession(w, userId, hash, now);
    IssueLinksForward(w, userId, hash, hash, now);
    IssueReplacesOne(w, userId, hash, now);
  }

  lemma RotateTracked(w: World, presented: nat, hash: nat, now: int)
    requires Tracked(w) && hash !in w.serial && presented in w.tokens
    ensures Tracked(Rotate(w, presented, hash, now))
  {
    assert w.sessionOf[presented] in w.serial;
    IssueTracked(w, w.tokens[presented].userId, hash, SessionOf(w, presented), now);
  }

  lemma RotateOnePerSession(w: World, presented: nat, hash: nat, now: int)
    requires Tracked(w) && OnePerSession(w) && hash !in w.serial && Live(w, presented)
    ensures OnePerSession(Rotate(w, presented, hash, now))
  {
    var w' := Rotate(w, presented, hash, now);
    forall a | a in w.tokens ensures SessionOf(w', a) == SessionOf(w, a) {
    }
    forall a | a in w.tokens && a != presented && Live(w', a)
      ensures SessionOf(w', a) != SessionOf(w', hash)
    {
      assert Live(w, a);
    }
  }

  lemma RotateLinksForward(w: World, presented: nat, hash: nat, now: int)
    requires Tracked(w) && LinksForward(w) && hash !in w.serial && Live(w, presented)
    ensures LinksForward(Rotate(w, presented, hash, now))
  {
    var issued := IssueFor(w, w.tokens[presented].userId, hash, SessionOf(w, presented), now);
    IssueLinksForward(w, w.tokens[presented].userId, hash, SessionOf(w, presented), now);
    assert issued.serial[presented] < issued.serial[hash];
  }

  lemma RotateReplacesOne(w: World, presented: nat, hash: nat, now: int)
    requires Tracked(w) && LinksForward(w) && ReplacesOne(w) && hash !in w.serial && Live(w, presented)
    ensures ReplacesOne(Rotate(w, presented, hash, now))
  {
    var w' := Rotate(w, presented, hash, now);
    forall a | a in w'.tokens && a != presented ensures w'.tokens[a].replacedBy != Some(hash) {
      assert a in w.tokens && w.tokens[a].replacedBy.Some? ==> w.tokens[a].replacedBy.value in w.serial;
    }
  }

  lemma RotateSound(w: World, presented: nat, hash: nat, now: int)
    requires Sound(w) && hash !in w.serial && Live(w, presented)
    ensures Sound(Rotate(w, presented, hash, now))
  {
    RotateTracked(w, presented, hash, now);
    RotateOnePerSession(w, presented, hash, now);
    RotateLinksForward(w, presented, hash, now);
    RotateReplacesOne(w, presented, hash, now);
  }

  /** Deleting tokens keeps what remains sound. */
  lemma DeleteSound(w: World, w': World)
    requires Sound(w) && w' == w.(tokens := w'.tokens, inactive := w'.inactive)
    requires forall h | h in w'.tokens :: h in w.tokens && w'.tokens[h] == w.tokens[h]
    ensures Sound(w')
  {
    assert OnePerSession(w') by {
      forall a | a in w'.tokens ensures SessionOf(w', a) == SessionOf(w, a) && (Live(w', a) <==> Live(w, a)) {
      }
    }
  }

  lemma RefreshSound(w: World, presented: nat, hash: nat, now: int)
    requires Sound(w) && hash !in w.serial
    ensures Sound(AfterRefresh(w, presented, hash, now))
  {
    if RefreshResult(w, Some(presented), hash, now).Ok? {
      RotateSound(w, presented, hash, now);
    } else {
      DeleteSound(w, AfterRefresh(w, presented, hash, now));
    }
  }

  lemma DeleteTokensSound(w: World, userId: nat)
    requires Sound(w)
    ensures Sound(DeleteTokensOf(w, userId))
    ensures Sound(DeleteTokensOf(w, userId).(inactive := w.inactive + {userId}))
  {
    DeleteSound(w, DeleteTokensOf(w, userId));
    DeleteSound(w, DeleteTokensOf(w, userId).(inactive := w.inactive + {userId}));
  }

  lemma DeleteOneSound(w: World, h: nat)
    requires Sound(w)
    ensures Sound(w.(tokens := w.tokens - {h}))
  {
    DeleteSound(w, w.(tokens := w.tokens - {h}));
  }

  lemma ReactivateSound(w: World, userId: nat)
    requires Sound(w)
    ensures Sound(w.(inactive := w.inactive - {userId}))
  {
    DeleteSound(w, w.(inactive := w.inactive - {userId}));
  }

  lemma LoginSound(w: World, userId: nat, hash: nat, now: int)
    requires Sound(w) && hash !in w.serial
    ensures Sound(Serve(w, Login(userId, hash, now)))
  {
    if userId !in w.inactive {
      IssueSound(w, userId, hash, now);
    }
  }

  lemma ExpireSound(w: World, hash: nat, now: int)
    requires Sound(w)
    ensures Sound(Serve(w, Expire(hash, now)))
  {
    if hash in w.tokens && w.tokens[hash].expiresAt <= now {
      DeleteOneSound(w, hash);
    }
  }

  lemma ServeSound(w: World, e: Event)
    requires Sound(w) && (e.Login? || e.Refresh? ==> e.hash !in w.serial)
    ensures Sound(Serve(w, e))
  {
    match e
    case Login(userId, hash, now) => LoginSound(w, userId, hash, now);
    case Refresh(presented, hash, now) => RefreshSound(w, presented, hash, now);
    case Logout(presented) => DeleteOneSound(w, presented);
    case ResetPassword(userId) => DeleteTokensSound(w, userId);
    case Suspend(userId) => DeleteTokensSound(w, userId);
    case Reactivate(userId) => ReactivateSound(w, userId);
    case Expire(hash, now) => ExpireSound(w, hash, now);
  }

  lemma {:induction false} ServeAllSound(w: World, es: seq<Event>)
    requires Sound(w) && FreshHashes(w, es)
    ensures Sound(ServeAll(w, es))
    decreases |es|
  {
    if es != [] {
      ServeSound(w, es[0]);
      ServeAllSound(Serve(w, es[0]), es[1..]);
    }
  }

  /** However often a session is rotated, at most one of its tokens is unrevoked. */
  lemma OneLiveTokenPerSession(es: seq<Event>, a: nat, b: nat)
    requires FreshHashes(EMPTY, es)
    requires Live(ServeAll(EMPTY, es), a) && Live(ServeAll(EMPTY, es), b)
    requires SessionOf(ServeAll(EMPTY, es), a) == SessionOf(ServeAll(EMPTY, es), b)
    ensures a == b
  {
    ServeAllSound(EMPTY, es);
  }

  predicate IsChain(w: World, path: seq<nat>) {
    forall k | 0 < k < |path| :: Link(w, path[k - 1], path[k])
  }

  lemma {:induction false} ChainRises(w: World, path: seq<nat>)
    requires Sound(w) && IsChain(w, path) && 1 < |path|
    ensures path[0] in w.serial && path[|path| - 1] in w.serial
    ensures w.serial[path[0]] < w.serial[path[|path| - 1]]
    decreases |path|
  {
    assert Link(w, path[|path| - 2], path[|path| - 1]);
    if 2 < |path| {
      ChainRises(w, path[..|path| - 1]);
    }
  }

  /** Replacement links never lead back, and never meet. */
  lemma LinksFormChains(es: seq<Event>, path: seq<nat>, a: nat, b: nat, c: nat)
    requires FreshHashes(EMPTY, es)
    ensures IsChain(ServeAll(EMPTY, es), path) && 1 < |path| ==> path[0] != path[|path| - 1]
    ensures Link(ServeAll(EMPTY, es), a, c) && Link(ServeAll(EMPTY, es), b, c) ==> a == b
  {
    ServeAllSound(EMPTY, es);
    if IsChain(ServeAll(EMPTY, es), path) && 1 < |path| {
      ChainRises(ServeAll(EMPTY, es), path);
    }
  }

  lemma DeadNext(w: World, e: Event, h: nat)
    requires h in w.serial && !Live(w, h) && (e.Login? || e.Refresh? ==> e.hash !in w.serial)
    ensures h in Serve(w, e).serial && !Live(Serve(w, e), h)
  {
    match e
    case Refresh(presented, hash, now) =>
      if RefreshResult(w, Some(presented), hash, now).Ok? {
        assert h != hash && h != presented;
      }
    case _ =>
  }

  /** A token once issued and then revoked or deleted is never accepted again. */
  lemma {:induction false} DeadStaysDead(w: World, es: seq<Event>, h: nat)
    requires h in w.serial && !Live(w, h) && FreshHashes(w, es)
    ensures !Live(ServeAll(w, es), h)
    decreases |es|
  {
    if es != [] {
      DeadNext(w, es[0], h);
      DeadStaysDead(Serve(w, es[0]), es[1..], h);
    }
  }

  /** Rotation uses a token up: presenting it again is refused, whatever happens in between. */
  lemma RotatedTokenRefused(w: World, es: seq<Event>, presented: nat, hash: nat, now: int, hash': nat, now': int)
    requires Sound(w) && hash !in w.serial
    requires RefreshResult(w, Some(presented), hash, now).Ok?
    requires FreshHashes(AfterRefresh(w, presented, hash, now), es)
    ensures RefreshResult(ServeAll(AfterRefresh(w, presented, hash, now), es), Some(presented), hash', now')
      == Err(InvalidOrRevoked)
  {
    RotateSound(w, presented, hash, now);
    DeadStaysDead(AfterRefresh(w, presented, hash, now), es, presented);
  }

  /** A password reset leaves the user no token, and no token the user held is accepted again. */
  lemma ResetEndsEverySession(w: World, userId: nat, es: seq<Event>, h: nat, hash: nat, now: int)
    requires Sound(w) && h in w.tokens && w.tokens[h].userId == userId
    requires FreshHashes(Serve(w, ResetPassword(userId)), es)
    ensures forall t | t in Serve(w, ResetPassword(userId)).tokens ::
      Serve(w, ResetPassword(userId)).tokens[t].userId != userId
    ensures RefreshResult(ServeAll(Serve(w, ResetPassword(userId)), es), Some(h), hash, now)
      == Err(InvalidOrRevoked)
  {
    DeadStaysDead(Serve(w, ResetPassword(userId)), es, h);
  }

  // ----- Lifetime of a token -------------------------------------------------------------------

  /** The event is the one that issues a token: a login, or the rotation of a user's token. */
  predicate Issues(w: World, e: Event, h: nat, userId: nat, at: int) {
    && h !in w.serial && h in Serve(w, e).serial
    && match e
       case Login(u, hash, now) => hash == h && u == userId && now == at
       case Refresh(presented, hash, now) =>
         hash == h && now == at && presented in w.tokens && w.tokens[presented].userId == userId
       case _ => false
  }

  predicate AsIssued(w: World, h: nat, userId: nat, at: int) {
    Live(w, h) ==> w.tokens[h].userId == userId && w.tokens[h].expiresAt == at + 7 * 24 * 60 * 60 * 1000
  }

  /** A step leaves a live token as it was issued. */
  lemma AsIssuedNext(w: World, e: Event, h: nat, userId: nat, at: int)
    requires h in w.serial && AsIssued(w, h, userId, at) && (e.Login? || e.Refresh? ==> e.hash !in w.serial)
    ensures h in Serve(w, e).serial && AsIssued(Serve(w, e), h, userId, at)
  {
    if !Live(w, h) {
      DeadNext(w, e, h);
    } else {
      match e
      case Refresh(presented, hash, now) =>
        if RefreshResult(w, Some(presented), hash, now).Ok? {
          assert h != hash;
        }
      case _ =>
    }
  }

  lemma {:induction false} StaysAsIssued(w: World, es: seq<Event>, h: nat, userId: nat, at: int)
    requires h in w.serial && AsIssued(w, h, userId, at) && FreshHashes(w, es)
    ensures AsIssued(ServeAll(w, es), h, userId, at)
    decreases |es|
  {
    if es != [] {
      AsIssuedNext(w, es[0], h, userId, at);
      StaysAsIssued(Serve(w, es[0]), es[1..], h, userId, at);
    }
  }

  /** A token issued at some instant and neither revoked nor deleted since is accepted exactly while
      its user is active and seven days have not passed; presented later, it is deleted. */
  lemma AcceptedForSevenDays(w: World, e: Event, es: seq<Event>, h: nat, userId: nat, at: int, hash: nat, now: int)
    requires Issues(w, e, h, userId, at) && FreshHashes(Serve(w, e), es)
    requires Live(ServeAll(Serve(w, e), es), h)
    ensures var w' := ServeAll(Serve(w, e), es);
      && (RefreshResult(w', Some(h), hash, now) == Ok(hash)
          <==> userId !in w'.inactive && now <= at + 7 * 24 * 60 * 60 * 1000)
      && (at + 7 * 24 * 60 * 60 * 1000 < now ==>
            && RefreshResult(w', Some(h), hash, now) == Err(Expired)
            && !Live(AfterRefresh(w', h, hash, now), h))
      && (now <= at + 7 * 24 * 60 * 60 * 1000 && userId in w'.inactive ==>
            && RefreshResult(w', Some(h), hash, now) == Err(AccountInactive)
            && AfterRefresh(w', h, hash, now) == w')
  {
    StaysAsIssued(Serve(w, e), es, h, userId, at);
  }

  /** A token that is not there, or is revoked, is refused whatever the time, and nothing changes. */
  lemma RefusedUnlessLive(w: World, h: nat, hash: nat, now: int)
    requires !(h in w.tokens && w.tokens[h].revokedAt == None)
    ensures RefreshResult(w, Some(h), hash, now) == Err(InvalidOrRevoked)
    ensures AfterRefresh(w, h, hash, now) == w && RefreshResult(w, None, hash, now) == Err(Missing)
  {
  }

  /** An accepted refresh hands over to one new token of the same user and session, revokes the old
      one then and there, and touches no other. */
  lemma RotationHandsOver(w: World, h: nat, hash: nat, now: int)
    requires Tracked(w) && hash !in w.serial && RefreshResult(w, Some(h), hash, now).Ok?
    ensures var w' := AfterRefresh(w, h, hash, now);
      && Live(w', hash) && w'.tokens[hash].userId == w.tokens[h].userId
      && SessionOf(w', hash) == SessionOf(w, h) && w'.tokens[hash].replacedBy == None
      && w'.tokens[h] == w.tokens[h].(revokedAt := Some(now), replacedBy := Some(hash))
      && w'.tokens.Keys == w.tokens.Keys + {hash}
      && forall t | t in w.tokens && t != h :: w'.tokens[t] == w.tokens[t]
  {
  }

  predicate NoReactivation(es: seq<Event>, userId: nat) {
    forall i | 0 <= i < |es| :: es[i] != Reactivate(userId)
  }

  predicate ShutOut(w: World, userId: nat) {
    userId in w.inactive && forall h | h in w.tokens :: w.tokens[h].userId != userId
  }

  lemma ShutOutNext(w: World, e: Event, userId: nat)
    requires ShutOut(w, userId) && e != Reactivate(userId)
    ensures ShutOut(Serve(w, e), userId)
  {
    match e
    case Refresh(presented, hash, now) =>
      if RefreshResult(w, Some(presented), hash, now).Ok? {
        assert w.tokens[presented].userId != userId;
      }
    case _ =>
  }

  lemma {:induction false} ShutOutStays(w: World, es: seq<Event>, userId: nat)
    requires ShutOut(w, userId) && NoReactivation(es, userId)
    ensures ShutOut(ServeAll(w, es), userId)
    decreases |es|
  {
    if es != [] {
      assert es[0] != Reactivate(userId);
      ShutOutNext(w, es[0], userId);
      ShutOutStays(Serve(w, es[0]), es[1..], userId);
    }
  }

  /** From a suspension to the next reactivation the user has no token, logins included. */
  lemma SuspendedHasNoToken(w: World, userId: nat, es: seq<Event>)
    requires NoReactivation(es, userId)
    ensures ShutOut(ServeAll(Serve(w, Suspend(userId)), es), userId)
  {
    ShutOutStays(Serve(w, Suspend(userId)), es, userId);
  }

  /** A login starts a session of its own exactly for a user who is not suspended. */
  lemma LoginStartsSessionIff(w: World, userId: nat, hash: nat, now: int)
    requires Tracked(w) && hash !in w.serial
    ensures var w' := Serve(w, Login(userId, hash, now));
      && (Live(w', hash) <==> userId !in w.inactive)
      && (Live(w', hash) ==> w'.tokens[hash].userId == userId)
      && (Live(w', hash) ==> forall t | t in w.tokens :: SessionOf(w', t) != SessionOf(w', hash))
  {
    forall t | t in w.tokens ensures SessionOf(w, t) != hash {
      assert w.sessionOf[t] in w.serial;
    }
  }

  /** Which tokens are left: all but the one logged out, all but the user's after a reset or a
      suspension, all but one that has run out after its expiry. */
  lemma LeftAfter(w: World, h: nat, other: nat, userId: nat, now: int)
    requires h in w.tokens
    ensures h in Serve(w, Logout(other)).tokens <==> h != other
    ensures h in Serve(w, ResetPassword(userId)).tokens <==> w.tokens[h].userId != userId
    ensures h in Serve(w, Suspend(userId)).tokens <==> w.tokens[h].userId != userId
    ensures h in Serve(w, Expire(other, now)).tokens <==> h != other || now < w.tokens[h].expiresAt
    ensures Serve(w, Reactivate(userId)) == w.(inactive := w.inactive - {userId})
  {
  }

  /** The token store as the service updates it. */
  class TokenStore {
    var tokens: map<nat, Token>
    var inactive: set<nat>
    ghost var serial: map<nat, nat>
    ghost var nextSerial: nat
    ghost var sessionOf: map<nat, nat>

    ghost function State(): World
      reads this
    {
      World(tokens, inactive, serial, nextSerial, sessionOf)
    }

    constructor ()
      ensures State() == EMPTY && Sound(State())
    {
      tokens, inactive := map[], {};
      serial, nextSerial, sessionOf := map[], 0, map[];
    }

    /** Create the new record, then revoke and link the previous one if there is one. */
    method IssueTokens(userId: nat, hash: nat, now: int, previous: Option<nat>)
      requires hash !in tokens
      requires previous.Some? ==> previous.value in tokens && tokens[previous.value].userId == userId
      modifies this
      ensures State() ==
        if previous.Some? then Rotate(old(State()), previous.value, hash, now)
        else IssueFor(old(State()), userId, hash, hash, now)
    {
      ghost var session := if previous.Some? then SessionOf(State(), previous.value) else hash;
      tokens := tokens[hash := NewToken(userId, now)];
      serial, nextSerial, sessionOf := serial[hash := nextSerial], nextSerial + 1, sessionOf[hash := session];
      if previous.Some? {
        var stored := tokens[previous.value];
        tokens := tokens[previous.value := stored.(revokedAt := Some(now), replacedBy := Some(hash))];
      }
    }

    method RefreshTokens(presented: Option<nat>, hash: nat, now: int) returns (r: Result<nat, RefreshError>)
      requires Sound(State()) && hash !in serial
      modifies this
      ensures r == RefreshResult(old(State()), presented, hash, now)
      ensures State() ==
        if presented.Some? then AfterRefresh(old(State()), presented.value, hash, now) else old(State())
      ensures Sound(State())
    {
      if presented.None? {
        return Err(Missing);
      }
      var h := presented.value;
      RefreshSound(State(), h, hash, now);
      if h !in tokens || tokens[h].revokedAt.Some? {
        return Err(InvalidOrRevoked);
      }
      if tokens[h].expiresAt < now {
        tokens := tokens - {h};
        return Err(Expired);
      }
      if tokens[h].userId in inactive {
        return Err(AccountInactive);
      }
      IssueTokens(tokens[h].userId, hash, now, presented);
      return Ok(hash);
    }

    method LogOut(presented: Option<nat>)
      requires Sound(State())
      modifies this`tokens
      ensures State() == if presented.Some? then Serve(old(State()), Logout(presented.value)) else old(State())
      ensures Sound(State())
    {
      if presented.Some? {
        DeleteOneSound(State(), presented.value);
        tokens := tokens - {presented.value};
      }
    }

    /** The part of a password reset that concerns tokens: every one of the user's is deleted. */
    method DeleteAllOf(userId: nat)
      requires Sound(State())
      modifies this`tokens
      ensures State() == Serve(old(State()), Event.ResetPassword(userId)) && Sound(State())
    {
      DeleteTokensSound(State(), userId);
      tokens := WithoutUser(tokens, userId);
    }
  }
}
