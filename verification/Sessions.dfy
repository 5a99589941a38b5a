/**
 Sign-in sessions: the concurrent-device limit and token rotation.

 Every transaction reads the clock once.  A token is a signed (session, user, version)
 triple; a token issued before rotation carries no version and counts as version 0.
 */
module Sessions {
  import opened Options

  type UserId = nat
  type SessionId = nat
  type Time = int   // seconds

  const REFRESH_RETRY_WINDOW: Time := 120

  datatype Settings = Settings(maxActive: nat, ttl: Time, grace: Option<Time>)

  datatype Session = Session(
    user: UserId, expiresAt: Time, revokedAt: Option<Time>, version: nat, refreshedAt: Option<Time>)

  datatype Token = Token(session: SessionId, user: UserId, version: nat)

  datatype Error = UserNotFound | TooManyDevices | SessionNotFound | Revoked | Expired | Inactive

  /** `users` maps an account to whether it is active. */
  datatype Store = Store(users: map<UserId, bool>, sessions: map<SessionId, Session>)

  predicate IsActive(x: Session, at: Time) {
    x.revokedAt.None? && x.expiresAt > at
  }

  function ActiveSessions(s: Store, u: UserId, at: Time): set<SessionId> {
    set i | i in s.sessions && s.sessions[i].user == u && IsActive(s.sessions[i], at)
  }

  /** Lapsed at or before the grace window; None means a session never lapses for good. */
  predicate PastGrace(x: Session, cfg: Settings, now: Time) {
    cfg.grace.Some? && x.expiresAt <= now - cfg.grace.value
  }

  // ---- Transactions, on values ----

  function Created(s: Store, cfg: Settings, u: UserId, id: SessionId, now: Time): Result<Store, Error> {
    if u !in s.users then Err(UserNotFound)
    else if |ActiveSessions(s, u, now)| >= cfg.maxActive then Err(TooManyDevices)
    else Ok(s.(sessions := s.sessions[id := Session(u, now + cfg.ttl, None, 0, None)]))
  }

  /** Rotated: a new version.  Retried: the current version again.  Both extend the session. */
  datatype Refreshing = Rotated | Retried | Replayed

  function Judge(x: Session, version: nat, now: Time): Refreshing {
    if version == x.version then Rotated
    else if version == x.version - 1 && x.refreshedAt.Some? && now - x.refreshedAt.value < REFRESH_RETRY_WINDOW then
      Retried
    else Replayed
  }

  /** The store afterwards, and the token handed out or the error. */
  function Refreshed(s: Store, cfg: Settings, tok: Token, now: Time): (Store, Result<Token, Error>) {
    if tok.session !in s.sessions || s.sessions[tok.session].revokedAt.Some? ||
      s.sessions[tok.session].user != tok.user then
      (s, Err(Revoked))
    else
      var x := s.sessions[tok.session];
      if PastGrace(x, cfg, now) then (s, Err(Expired))
      else if Judge(x, tok.version, now) == Replayed then
        (s.(sessions := s.sessions[tok.session := x.(revokedAt := Some(now))]), Err(Revoked))
      else if tok.user !in s.users || !s.users[tok.user] then (s, Err(Inactive))
      else if x.expiresAt <= now && |ActiveSessions(s, tok.user, now)| >= cfg.maxActive then (s, Err(Expired))
      else
        var x' := if Judge(x, tok.version, now) == Rotated
                  then x.(version := x.version + 1, refreshedAt := Some(now), expiresAt := now + cfg.ttl)
                  else x.(expiresAt := now + cfg.ttl);
        (s.(sessions := s.sessions[tok.session := x']), Ok(Token(tok.session, tok.user, x'.version)))
  }

  function Revoke(s: Store, u: UserId, id: SessionId, now: Time): Result<Store, Error> {
    if id !in s.sessions || s.sessions[id].user != u || s.sessions[id].revokedAt.Some? then Err(SessionNotFound)
    else Ok(s.(sessions := s.sessions[id := s.sessions[id].(revokedAt := Some(now))]))
  }

  function RevokedAll(s: Store, u: UserId, now: Time): Store {
    s.(sessions := map i | i in s.sessions ::
      if s.sessions[i].user == u && s.sessions[i].revokedAt.None?
      then s.sessions[i].(revokedAt := Some(now)) else s.sessions[i])
  }

  // ---- The service ----

  class SessionService {
    const cfg: Settings
    var users: map<UserId, bool>
    var sessions: map<SessionId, Session>

    constructor (cfg: Settings)
      ensures this.cfg == cfg && State() == Store(map[], map[])
    {
      this.cfg, users, sessions := cfg, map[], map[];
    }

    function State(): Store
      reads this
    {
      Store(users, sessions)
    }

    method CountActiveSessions(u: UserId, now: Time) returns (n: nat)
      ensures n == |ActiveSessions(State(), u, now)|
    {
      var live := set i | i in sessions && sessions[i].user == u && sessions[i].revokedAt.None? &&
        sessions[i].expiresAt > now;
      n := |live|;
      assert live
        == ActiveSessions(State(), u, now);
    }

    /** `id` is the freshly generated key of the new row. */
    method CreateSession(u: UserId, id: SessionId, now: Time) returns (r: Result<SessionId, Error>)
      modifies this`sessions
      ensures match Created(old(State()), cfg, u, id, now)
              case Ok(s) => r == Ok(id) && State() == s
              case Err(e) => r == Err(e) && State() == old(State())
    {
      if u !in users {
        return Err(UserNotFound);
      }
      var active := CountActiveSessions(u, now);
      if active >= cfg.maxActive {
        return Err(TooManyDevices);
      }
      sessions := sessions[id := Session(u, now + cfg.ttl, None, 0, None)];
      r := Ok(id);
    }

    method RefreshSession(tok: Token, now: Time) returns (r: Result<Token, Error>)
      modifies this`sessions
      ensures (State(), r) == Refreshed(old(State()), cfg, tok, now)
    {
      if tok.session !in sessions || sessions[tok.session].revokedAt.Some? {
        return Err(Revoked);
      }
      var session := sessions[tok.session];
      if session.user != tok.user {
        return Err(Revoked);
      }
      if cfg.grace.Some? && session.expiresAt <= now - cfg.grace.value {
        return Err(Expired);
      }
      var current: int := session.version;
      var next := session.version;
      if tok.version == current {
        next := session.version + 1;
      } else if tok.version == current - 1 && session.refreshedAt.Some?
                && now - session.refreshedAt.value < REFRESH_RETRY_WINDOW {
        next := session.version;
      } else {
        sessions := sessions[tok.session := session.(revokedAt := Some(now))];
        return Err(Revoked);
      }
      if tok.user !in users || !users[tok.user] {
        return Err(Inactive);
      }
      if session.expiresAt <= now {
        var active := CountActiveSessions(tok.user, now);
        if active >= cfg.maxActive {
          return Err(Expired);
        }
      }
      if next != current {
        session := session.(version := next, refreshedAt := Some(now));
      }
      session := session.(expiresAt := now + cfg.ttl);
      sessions := sessions[tok.session := session];
      r := Ok(Token(tok.session, tok.user, next));
    }

    method RevokeSession(u: UserId, id: SessionId, now: Time) returns (r: Result<SessionId, Error>)
      modifies this`sessions
      ensures match Revoke(old(State()), u, id, now)
              case Ok(s) => r == Ok(id) && State() == s
              case Err(e) => r == Err(e) && State() == old(State())
    {
      if id !in sessions || sessions[id].user != u || sessions[id].revokedAt.Some? {
        return Err(SessionNotFound);
      }
      sessions := sessions[id := sessions[id].(revokedAt := Some(now))];
      r := Ok(id);
    }

    method RevokeAllUserSessions(u: UserId, now: Time)
      modifies this`sessions
      ensures State() == RevokedAll(old(State()), u, now)
    {
      sessions := map i | i in sessions ::
        if sessions[i].user == u && sessions[i].revokedAt.None?
        then sessions[i].(revokedAt := Some(now)) else sessions[i];
    }
  }

  // ---- Runs ----

  datatype Event =
    | Login(user: UserId, id: SessionId)      // also a pairing confirm
    | Refresh(token: Token)
    | Logout(user: UserId, id: SessionId)
    | LogoutAll(user: UserId)
    | Account(user: UserId, active: bool)     // an account is created, disabled or enabled

  datatype Tick = Tick(event: Event, now: Time)

  /** A new row's key is fresh. */
  predicate Enabled(s: Store, e: Event) {
    e.Login? ==> e.id !in s.sessions
  }

  function Step(s: Store, cfg: Settings, e: Event, now: Time): Store {
    match e
    case Login(u, id) => (match Created(s, cfg, u, id, now) case Ok(s') => s' case Err(_) => s)
    case Refresh(tok) => Refreshed(s, cfg, tok, now).0
    case Logout(u, id) => (match Revoke(s, u, id, now) case Ok(s') => s' case Err(_) => s)
    case LogoutAll(u) => RevokedAll(s, u, now)
    case Account(u, active) => s.(users := s.users[u := active])
  }

  /** The token a step hands out. */
  function Issued(s: Store, cfg: Settings, e: Event, now: Time): Option<Token> {
    match e
    case Login(u, id) => if Created(s, cfg, u, id, now).Ok? then Some(Token(id, u, 0)) else None
    case Refresh(tok) =>
      var r := Refreshed(s, cfg, tok, now).1;
      if r.Ok? then Some(r.value) else None
    case _ => None
  }

  function ClockAt(ticks: seq<Tick>, start: Time, k: nat): Time
    requires k <= |ticks|
  {
    if k == 0 then start else ticks[k - 1].now
  }

  ghost predicate Transition(s: Store, tick: Tick, s': Store, cfg: Settings, clock: Time) {
    clock <= tick.now && Enabled(s, tick.event) && s' == Step(s, cfg, tick.event, tick.now)
  }

  ghost predicate Run(states: seq<Store>, ticks: seq<Tick>, cfg: Settings, start: Time) {
    && |states| == |ticks| + 1
    && states[0].sessions == map[]
    && forall k :: 0 <= k < |ticks| ==> Transition(states[k], ticks[k], states[k + 1], cfg, ClockAt(ticks, start, k))
  }

  // ---- The device limit ----

  lemma SubsetSize<T>(a: set<T>, b: set<T>)
    requires a <= b
    ensures |a| <= |b|
  {
    assert b == a + (b - a);
  }

  /** Time alone only lets sessions lapse. */
  lemma LapsingShrinks(s: Store, u: UserId, at: Time, later: Time)
    requires at <= later
    ensures |ActiveSessions(s, u, later)| <= |ActiveSessions(s, u, at)|
  {
    SubsetSize(ActiveSessions(s, u, later), ActiveSessions(s, u, at));
  }

  /** One transaction never takes a user above the limit. */
  lemma StepKeepsLimit(s: Store, cfg: Settings, e: Event, now: Time, u: UserId)
    requires Enabled(s, e) && |ActiveSessions(s, u, now)| <= cfg.maxActive
    ensures |ActiveSessions(Step(s, cfg, e, now), u, now)| <= cfg.maxActive
  {
    var s' := Step(s, cfg, e, now);
    var before, after := ActiveSessions(s, u, now), ActiveSessions(s', u, now);
    match e
    case Login(w, id) =>
      if w == u && Created(s, cfg, w, id, now).Ok? {
        assert after <= before + {id};
        SubsetSize(after, before + {id});
      } else {
        assert after <= before;
        SubsetSize(after, before);
      }
    case Refresh(tok) =>
      if after <= before {
        SubsetSize(after, before);
      } else {
        assert tok.user == u && s.sessions[tok.session].expiresAt <= now;
        assert after <= before + {tok.session};
        SubsetSize(after, before + {tok.session});
      }
    case Logout(_, _) =>
      assert after <= before;
      SubsetSize(after, before);
    case LogoutAll(_) =>
      assert after <= before;
      SubsetSize(after, before);
    case Account(_, _) =>
      assert after == before;
  }

  /** In every reachable state, at the current and at every later clock value, no user has more
      than the permitted number of live sessions. */
  lemma {:induction false} DeviceLimit(states: seq<Store>, ticks: seq<Tick>, cfg: Settings, start: Time, k: nat,
                                       u: UserId, at: Time)
    requires Run(states, ticks, cfg, start) && k < |states| && ClockAt(ticks, start, k) <= at
    ensures |ActiveSessions(states[k], u, at)| <= cfg.maxActive
    decreases k
  {
    if k == 0 {
      assert ActiveSessions(states[0], u, at) == {};
    } else {
      var now := ticks[k - 1].now;
      assert Transition(states[k - 1], ticks[k - 1], states[k], cfg, ClockAt(ticks, start, k - 1));
      DeviceLimit(states, ticks, cfg, start, k - 1, u, now);
      StepKeepsLimit(states[k - 1], cfg, ticks[k - 1].event, now, u);
      LapsingShrinks(states[k], u, now, at);
    }
  }

  // ---- Token rotation ----

  /** Step k rotates session id from version v. */
  predicate Bumps(s: Store, cfg: Settings, tick: Tick, id: SessionId, v: nat) {
    && tick.event.Refresh? && tick.event.token.session == id && tick.event.token.version == v
    && Issued(s, cfg, tick.event, tick.now) == Some(Token(id, tick.event.token.user, v + 1))
    && id in s.sessions && s.sessions[id].version == v
  }

  /** Step k accepts a token of session id at version v. */
  predicate Accepts(s: Store, cfg: Settings, tick: Tick, id: SessionId, v: nat) {
    && tick.event.Refresh? && tick.event.token.session == id && tick.event.token.version == v
    && Issued(s, cfg, tick.event, tick.now).Some?
  }

  /** What one step may do to one session row. */
  ghost predicate RowStep(x: Session, x': Session, s: Store, cfg: Settings, tick: Tick, id: SessionId) {
    && x'.user == x.user
    && x.version <= x'.version <= x.version + 1
    && (x.revokedAt.Some? ==> x' == x)
    && (x'.version == x.version ==> x'.refreshedAt == x.refreshedAt)
    && (x'.version == x.version + 1 <==> Bumps(s, cfg, tick, id, x.version))
    && (x'.version == x.version + 1 ==> x'.refreshedAt == Some(tick.now))
  }

  lemma StepRow(s: Store, cfg: Settings, tick: Tick, id: SessionId)
    requires Enabled(s, tick.event) && id in s.sessions
    ensures var s' := Step(s, cfg, tick.event, tick.now);
            id in s'.sessions && RowStep(s.sessions[id], s'.sessions[id], s, cfg, tick, id)
  {
  }

  /** Rows persist, versions and revocations only move forward. */
  lemma {:induction false} RowsMoveForward(states: seq<Store>, ticks: seq<Tick>, cfg: Settings, start: Time,
                                           j: nat, k: nat, id: SessionId)
    requires Run(states, ticks, cfg, start) && j <= k < |states| && id in states[j].sessions
    ensures id in states[k].sessions
    ensures states[j].sessions[id].version <= states[k].sessions[id].version
    ensures states[j].sessions[id].user == states[k].sessions[id].user
    ensures states[j].sessions[id].revokedAt.Some? ==> states[k].sessions[id] == states[j].sessions[id]
    ensures states[k].sessions[id].version == states[j].sessions[id].version ==>
              states[k].sessions[id].refreshedAt == states[j].sessions[id].refreshedAt
    decreases k
  {
    hide Step;
    if j < k {
      RowsMoveForward(states, ticks, cfg, start, j, k - 1, id);
      assert Transition(states[k - 1], ticks[k - 1], states[k], cfg, ClockAt(ticks, start, k - 1));
      StepRow(states[k - 1], cfg, ticks[k - 1], id);
    }
  }

  /** No issued token is ever newer than its session. */
  lemma IssuedNotAhead(states: seq<Store>, ticks: seq<Tick>, cfg: Settings, start: Time, j: nat, k: nat)
    requires Run(states, ticks, cfg, start) && j < |ticks| && j < k < |states|
    requires Issued(states[j], cfg, ticks[j].event, ticks[j].now).Some?
    ensures var tok := Issued(states[j], cfg, ticks[j].event, ticks[j].now).value;
            && tok.session in states[k].sessions
            && tok.version <= states[k].sessions[tok.session].version
            && tok.user == states[k].sessions[tok.session].user
  {
    assert Transition(states[j], ticks[j], states[j + 1], cfg, ClockAt(ticks, start, j));
    var tok := Issued(states[j], cfg, ticks[j].event, ticks[j].now).value;
    assert tok.session in states[j + 1].sessions && states[j + 1].sessions[tok.session].version == tok.version;
    RowsMoveForward(states, ticks, cfg, start, j + 1, k, tok.session);
  }

  /** Each version of a session is rotated away at most once. */
  lemma OneBumpPerVersion(states: seq<Store>, ticks: seq<Tick>, cfg: Settings, start: Time, j: nat, k: nat,
                          id: SessionId, v: nat)
    requires Run(states, ticks, cfg, start) && j < |ticks| && k < |ticks|
    requires Bumps(states[j], cfg, ticks[j], id, v) && Bumps(states[k], cfg, ticks[k], id, v)
    ensures j == k
  {
    if j < k {
      BumpMovesOn(states, ticks, cfg, start, j, k, id, v);
    } else if k < j {
      BumpMovesOn(states, ticks, cfg, start, k, j, id, v);
    }
  }

  lemma BumpMovesOn(states: seq<Store>, ticks: seq<Tick>, cfg: Settings, start: Time, j: nat, k: nat, id: SessionId,
                    v: nat)
    requires Run(states, ticks, cfg, start) && j < |ticks| && j < k < |states|
    requires Bumps(states[j], cfg, ticks[j], id, v)
    ensures id in states[k].sessions && states[k].sessions[id].version >= v + 1
    ensures states[k].sessions[id].version == v + 1 ==> states[k].sessions[id].refreshedAt == Some(ticks[j].now)
  {
    assert Transition(states[j], ticks[j], states[j + 1], cfg, ClockAt(ticks, start, j));
    StepRow(states[j], cfg, ticks[j], id);
    RowsMoveForward(states, ticks, cfg, start, j + 1, k, id);
    hide Step;
  }

  /** Once a version has been rotated away at time T, a token of that version is refused from T + 120 on,
      however often it was retried in between; so a stolen copy is useless two minutes after the
      device refreshes. */
  lemma ReplacedTokenDies(states: seq<Store>, ticks: seq<Tick>, cfg: Settings, start: Time, j: nat, k: nat,
                          id: SessionId, v: nat)
    requires Run(states, ticks, cfg, start) && j < k < |ticks|
    requires Bumps(states[j], cfg, ticks[j], id, v) && Accepts(states[k], cfg, ticks[k], id, v)
    ensures ticks[k].now < ticks[j].now + REFRESH_RETRY_WINDOW
    ensures Issued(states[k], cfg, ticks[k].event, ticks[k].now) == Some(Token(id, ticks[k].event.token.user, v + 1))
  {
    BumpMovesOn(states, ticks, cfg, start, j, k, id, v);
  }

  /** Presenting a replaced token after its retry window, or after a second rotation, revokes the
      session, unless the session has lapsed beyond the grace window and cannot refresh anyway. */
  lemma ReplayRevokes(states: seq<Store>, ticks: seq<Tick>, cfg: Settings, start: Time, j: nat, k: nat, id: SessionId,
                      v: nat)
    requires Run(states, ticks, cfg, start) && j < k < |ticks|
    requires Bumps(states[j], cfg, ticks[j], id, v)
    requires ticks[k].event == Refresh(Token(id, states[j].sessions[id].user, v))
    requires id in states[k].sessions
    requires ticks[k].now >= ticks[j].now + REFRESH_RETRY_WINDOW || states[k].sessions[id].version > v + 1
    ensures id in states[k + 1].sessions
    ensures states[k + 1].sessions[id].revokedAt.Some? || PastGrace(states[k].sessions[id], cfg, ticks[k].now)
  {
    BumpMovesOn(states, ticks, cfg, start, j, k, id, v);
    RowsMoveForward(states, ticks, cfg, start, j, k, id);
    assert Transition(states[k], ticks[k], states[k + 1], cfg, ClockAt(ticks, start, k));
  }

  /** A revoked session hands out no token ever again. */
  lemma RevokedForGood(states: seq<Store>, ticks: seq<Tick>, cfg: Settings, start: Time, j: nat, k: nat, id: SessionId,
                       v: nat)
    requires Run(states, ticks, cfg, start) && j <= k < |ticks|
    requires id in states[j].sessions && states[j].sessions[id].revokedAt.Some?
    ensures !Accepts(states[k], cfg, ticks[k], id, v)
    ensures id in states[k].sessions && states[k].sessions[id].revokedAt == states[j].sessions[id].revokedAt
  {
    RowsMoveForward(states, ticks, cfg, start, j, k, id);
  }

  // ---- What a token is worth ----

  /** Fewer than the permitted number of u's sessions are live. */
  predicate SlotFree(s: Store, cfg: Settings, u: UserId, now: Time) {
    |set i | i in s.sessions && s.sessions[i].user == u && s.sessions[i].revokedAt.None? &&
             now < s.sessions[i].expiresAt| < cfg.maxActive
  }

  /** The current version, or the one before it within two minutes of the rotation. */
  predicate VersionAccepted(x: Session, version: nat, now: Time) {
    || version == x.version
    || (version + 1 == x.version && x.refreshedAt.Some? && now < x.refreshedAt.value + 120)
  }

  /** The token is for a session of its user that was not revoked and has not lapsed beyond grace. */
  predicate Presentable(s: Store, cfg: Settings, tok: Token, now: Time) {
    && tok.session in s.sessions
    && s.sessions[tok.session].user == tok.user && s.sessions[tok.session].revokedAt.None?
    && (cfg.grace.Some? ==> now < s.sessions[tok.session].expiresAt + cfg.grace.value)
  }

  lemma SlotFreeMeans(s: Store, cfg: Settings, u: UserId, now: Time)
    ensures SlotFree(s, cfg, u, now) <==> |ActiveSessions(s, u, now)| < cfg.maxActive
  {
    assert ActiveSessions(s, u, now) ==
      set i | i in s.sessions && s.sessions[i].user == u && s.sessions[i].revokedAt.None? &&
              now < s.sessions[i].expiresAt;
  }

  /** A refresh hands out a token exactly when it presents an accepted version to an active account, and the session
      is either still live or finds a free device slot; a current version is replaced by the next one. */
  lemma RefreshIssuesIff(s: Store, cfg: Settings, tok: Token, now: Time)
    ensures Issued(s, cfg, Refresh(tok), now).Some? <==>
              && Presentable(s, cfg, tok, now)
              && VersionAccepted(s.sessions[tok.session], tok.version, now)
              && tok.user in s.users && s.users[tok.user]
              && (now < s.sessions[tok.session].expiresAt || SlotFree(s, cfg, tok.user, now))
    ensures Issued(s, cfg, Refresh(tok), now).Some? ==>
              && tok.session in s.sessions
              && Issued(s, cfg, Refresh(tok), now) ==
                 Some(Token(tok.session, tok.user,
                            if tok.version == s.sessions[tok.session].version then tok.version + 1
                            else s.sessions[tok.session].version))
  {
    SlotFreeMeans(s, cfg, tok.user, now);
    hide SlotFree, ActiveSessions;
  }

  /** A login hands out a token exactly when the account exists and has a free device slot. */
  lemma LoginIssuesIff(s: Store, cfg: Settings, u: UserId, id: SessionId, now: Time)
    ensures Issued(s, cfg, Login(u, id), now) ==
            if u in s.users && SlotFree(s, cfg, u, now) then Some(Token(id, u, 0)) else None
  {
    SlotFreeMeans(s, cfg, u, now);
  }

  /** The step revokes session id: its user logs out of it or of everything, or a token for it that is no longer
      accepted is replayed before it lapses for good. */
  predicate RevokedBy(s: Store, cfg: Settings, tick: Tick, id: SessionId)
    requires id in s.sessions
  {
    var x := s.sessions[id];
    match tick.event
    case Logout(u, i) => i == id && u == x.user
    case LogoutAll(u) => u == x.user
    case Refresh(tok) =>
      tok.session == id && Presentable(s, cfg, tok, tick.now) && !VersionAccepted(x, tok.version, tick.now)
    case _ => false
  }

  /** What one step does to one unrevoked session row: it is revoked or not, and lives longer exactly if the step hands
      out a token for it. */
  lemma StepRevokesIff(s: Store, cfg: Settings, tick: Tick, id: SessionId)
    requires Enabled(s, tick.event) && id in s.sessions && s.sessions[id].revokedAt.None?
    ensures var s' := Step(s, cfg, tick.event, tick.now);
            && id in s'.sessions
            && s'.sessions[id].revokedAt == (if RevokedBy(s, cfg, tick, id) then Some(tick.now) else None)
            && s'.sessions[id].expiresAt ==
               (match Issued(s, cfg, tick.event, tick.now)
                case Some(tok) => if tok.session == id then tick.now + cfg.ttl else s.sessions[id].expiresAt
                case None => s.sessions[id].expiresAt)
  {
    hide ActiveSessions;
  }

  /** Whoever gets a token has a session that lasts the whole lifetime from that moment on. */
  lemma IssuedIsLive(s: Store, cfg: Settings, tick: Tick)
    requires Enabled(s, tick.event) && Issued(s, cfg, tick.event, tick.now).Some?
    ensures var s' := Step(s, cfg, tick.event, tick.now);
            var tok := Issued(s, cfg, tick.event, tick.now).value;
            && tok.session in s'.sessions
            && s'.sessions[tok.session].user == tok.user && s'.sessions[tok.session].version == tok.version
            && s'.sessions[tok.session].revokedAt.None?
            && s'.sessions[tok.session].expiresAt == tick.now + cfg.ttl
  {
    hide ActiveSessions;
  }

  /** Over any run, the session of an issued token is live until its lifetime is over, and longer if it is refreshed
      meanwhile, unless a later step revokes it. */
  lemma {:induction false} IssuedStaysLive(states: seq<Store>, ticks: seq<Tick>, cfg: Settings, start: Time,
                                           j: nat, k: nat)
    requires Run(states, ticks, cfg, start) && j < k < |states|
    requires Issued(states[j], cfg, ticks[j].event, ticks[j].now).Some?
    ensures ticks[j].now <= ClockAt(ticks, start, k)
    ensures var id := Issued(states[j], cfg, ticks[j].event, ticks[j].now).value.session;
            && (forall i :: j < i <= k ==> id in states[i].sessions)
            && states[k].sessions[id].expiresAt >= ticks[j].now + cfg.ttl
            && (states[k].sessions[id].revokedAt.Some? <==>
                  exists i :: j < i < k && states[i].sessions[id].revokedAt.None? &&
                              RevokedBy(states[i], cfg, ticks[i], id))
            && (states[k].sessions[id].revokedAt.None? ==>
                  forall at :: at < ticks[j].now + cfg.ttl ==>
                    IsActive(states[k].sessions[id], at))
  {
    assert Transition(states[k - 1], ticks[k - 1], states[k], cfg, ClockAt(ticks, start, k - 1));
    var id := Issued(states[j], cfg, ticks[j].event, ticks[j].now).value.session;
    if k == j + 1 {
      IssuedIsLive(states[j], cfg, ticks[j]);
      hide Step, Issued;
    } else {
      IssuedStaysLive(states, ticks, cfg, start, j, k - 1);
      StepRow(states[k - 1], cfg, ticks[k - 1], id);
      if states[k - 1].sessions[id].revokedAt.None? {
        StepRevokesIff(states[k - 1], cfg, ticks[k - 1], id);
      }
      hide Step, Issued, RevokedBy;
    }
  }
}
