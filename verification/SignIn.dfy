/**
 The two sign-in code protocols, Telegram bot login and TV pairing, on top of sessions.

 A code is identified with its row; codes are unguessable, so a step names the code it holds.
 A request that raises commits nothing.
 */
module SignIn {
  import opened Options
  import S = Sessions

  type Code = nat
  type TelegramId = nat
  type Time = S.Time

  datatype LoginStatus = Pending | Started | Confirmed | Used | Cancelled
  datatype Login = Login(status: LoginStatus, telegramId: Option<TelegramId>, expiresAt: Time)

  datatype PairingStatus = Waiting | Approved | Consumed
  datatype Pairing = Pairing(status: PairingStatus, token: Option<S.Token>, user: Option<S.UserId>, expiresAt: Time)

  datatype Settings = Settings(sessions: S.Settings, loginTtl: Time, pairingTtl: Time)

  datatype Store = Store(
    sessions: S.Store, accounts: map<TelegramId, S.UserId>, logins: map<Code, Login>, pairings: map<Code, Pairing>)

  datatype Output = Nothing | ExpiredCode | Unconfirmed | HandedOut(token: S.Token) | LoginFailed

  // ---- Telegram bot login ----

  function Message(s: Store, code: Code, sender: TelegramId, now: Time): Store {
    if code !in s.logins || s.logins[code].expiresAt < now then s
    else
      var row := s.logins[code];
      if row.status == Pending || (row.status == Started && row.telegramId == Some(sender)) then
        s.(logins := s.logins[code := row.(status := Started, telegramId := Some(sender))])
      else s
  }

  function Callback(s: Store, code: Code, sender: TelegramId, approve: bool, now: Time): Store {
    if code !in s.logins || s.logins[code].status != Started || s.logins[code].expiresAt < now
       || s.logins[code].telegramId != Some(sender) then s
    else s.(logins := s.logins[code := s.logins[code].(status := if approve then Confirmed else Cancelled)])
  }

  /** Find or create the account of a vouched-for Telegram identity and open a session.
      `claimFails` says whether moving the guest's purchases is refused. */
  function LoginIdentity(s: Store, cfg: Settings, tg: TelegramId, newUser: S.UserId, id: S.SessionId, claimFails: bool,
                         now: Time): Option<(Store, S.Token)> {
    var known := tg in s.accounts;
    var user := if known then s.accounts[tg] else newUser;
    var sessions := if known then s.sessions else s.sessions.(users := s.sessions.users[newUser := true]);
    if user !in sessions.users || !sessions.users[user] || claimFails then None
    else
      match S.Created(sessions, cfg.sessions, user, id, now)
      case Err(_) => None
      case Ok(created) => Some((s.(sessions := created, accounts := s.accounts[tg := user]), S.Token(id, user, 0)))
  }

  function PollLogin(s: Store, cfg: Settings, code: Code, newUser: S.UserId, id: S.SessionId, claimFails: bool,
                     now: Time)
    : (Store, Output)
  {
    if code !in s.logins || s.logins[code].expiresAt < now || s.logins[code].status in {Used, Cancelled} then
      (s, ExpiredCode)
    else
      var row := s.logins[code];
      if row.status != Confirmed || row.telegramId.None? then (s, Unconfirmed)
      else
        match LoginIdentity(s, cfg, row.telegramId.value, newUser, id, claimFails, now)
        case None => (s, LoginFailed)
        case Some(r) => (r.0.(logins := s.logins[code := row.(status := Used)]), HandedOut(r.1))
  }

  // ---- TV pairing ----

  predicate PairingLive(s: Store, code: Code, now: Time) {
    code in s.pairings && !(s.pairings[code].expiresAt < now) && s.pairings[code].status in {Waiting, Approved}
  }

  function ConfirmPairing(s: Store, cfg: Settings, code: Code, user: S.UserId, id: S.SessionId, now: Time)
    : (Store, Output)
  {
    if !PairingLive(s, code, now) || s.pairings[code].status != Waiting then (s, ExpiredCode)
    else
      match S.Created(s.sessions, cfg.sessions, user, id, now)
      case Err(_) => (s, LoginFailed)
      case Ok(created) =>
        var row := s.pairings[code].(token := Some(S.Token(id, user, 0)), user := Some(user), status := Approved);
        (s.(sessions := created, pairings := s.pairings[code := row]), Nothing)
  }

  function PollPairing(s: Store, code: Code, now: Time): (Store, Output) {
    if !PairingLive(s, code, now) then (s, ExpiredCode)
    else
      var row := s.pairings[code];
      if row.status == Waiting then (s, Unconfirmed)
      else
        (s.(pairings := s.pairings[code := row.(status := Consumed, token := None)]),
         if row.token.Some? then HandedOut(row.token.value) else Nothing)
  }

  // ---- The service ----

  class SignInService {
    const cfg: Settings
    const sessions: S.SessionService
    var accounts: map<TelegramId, S.UserId>
    var logins: map<Code, Login>
    var pairings: map<Code, Pairing>

    constructor (cfg: Settings, sessions: S.SessionService)
      requires sessions.cfg == cfg.sessions
      ensures this.cfg == cfg && this.sessions == sessions && accounts == map[] && logins == map[] && pairings == map[]
    {
      this.cfg, this.sessions := cfg, sessions;
      accounts, logins, pairings := map[], map[], map[];
    }

    function State(): Store
      reads this, sessions
    {
      Store(sessions.State(), accounts, logins, pairings)
    }

    method StartBotLogin(code: Code, now: Time)
      modifies this`logins
      ensures State() == old(State()).(logins := old(logins)[code := Login(Pending, None, now + cfg.loginTtl)])
    {
      logins := logins[code := Login(Pending, None, now + cfg.loginTtl)];
    }

    /** The user tapped Start: remember who. */
    method HandleMessage(code: Code, sender: TelegramId, now: Time)
      modifies this`logins
      ensures State() == Message(old(State()), code, sender, now)
    {
      if code !in logins || logins[code].expiresAt < now {
        return;
      }
      var row := logins[code];
      if !(row.status == Pending || (row.status == Started && row.telegramId == Some(sender))) {
        return;
      }
      row := row.(status := Started);
      row := row.(telegramId := Some(sender));
      logins := logins[code := row];
    }

    /** The user tapped Confirm or Cancel. */
    method HandleCallback(code: Code, sender: TelegramId, approve: bool, now: Time)
      modifies this`logins
      ensures State() == Callback(old(State()), code, sender, approve, now)
    {
      if code !in logins {
        return;
      }
      var row := logins[code];
      if row.status != Started || row.expiresAt < now || row.telegramId != Some(sender) {
        return;
      }
      logins := logins[code := row.(status := if approve then Confirmed else Cancelled)];
    }

    method PollBotLogin(code: Code, newUser: S.UserId, id: S.SessionId, claimFails: bool, now: Time)
      returns (out: Output)
      requires sessions.cfg == cfg.sessions
      modifies this, sessions
      ensures (State(), out) == PollLogin(old(State()), cfg, code, newUser, id, claimFails, now)
    {
      if code !in logins {
        return ExpiredCode;
      }
      var row := logins[code];
      if row.expiresAt < now || row.status == Used || row.status == Cancelled {
        return ExpiredCode;
      }
      if row.status != Confirmed || row.telegramId.None? {
        return Unconfirmed;
      }
      var tg := row.telegramId.value;
      var users := sessions.users;
      var user := newUser;
      if tg in accounts {
        user := accounts[tg];
      } else {
        sessions.users := sessions.users[newUser := true];
      }
      if user !in sessions.users || !sessions.users[user] || claimFails {
        sessions.users := users;   // rolled back
        return LoginFailed;
      }
      var r := sessions.CreateSession(user, id, now);
      if r.Err? {
        sessions.users := users;   // rolled back
        return LoginFailed;
      }
      accounts := accounts[tg := user];
      logins := logins[code := row.(status := Used)];
      out := HandedOut(S.Token(id, user, 0));
    }

    method StartPairing(code: Code, now: Time)
      modifies this`pairings
      ensures State() ==
              old(State()).(pairings := old(pairings)[code := Pairing(Waiting, None, None, now + cfg.pairingTtl)])
    {
      pairings := pairings[code := Pairing(Waiting, None, None, now + cfg.pairingTtl)];
    }

    method ConfirmPairingCode(code: Code, user: S.UserId, id: S.SessionId, now: Time) returns (out: Output)
      requires sessions.cfg == cfg.sessions
      modifies this`pairings, sessions
      ensures (State(), out) == ConfirmPairing(old(State()), cfg, code, user, id, now)
    {
      if code !in pairings || pairings[code].expiresAt < now || pairings[code].status != Waiting {
        return ExpiredCode;
      }
      var r := sessions.CreateSession(user, id, now);
      if r.Err? {
        return LoginFailed;
      }
      var row := pairings[code];
      row := row.(token := Some(S.Token(id, user, 0)));
      row := row.(user := Some(user));
      pairings := pairings[code := row.(status := Approved)];
      out := Nothing;
    }

    method PollPairingCode(code: Code, now: Time) returns (out: Output)
      modifies this`pairings
      ensures (State(), out) == PollPairing(old(State()), code, now)
    {
      if code !in pairings || pairings[code].expiresAt < now || pairings[code].status == Consumed {
        return ExpiredCode;
      }
      var row := pairings[code];
      if row.status == Waiting {
        return Unconfirmed;
      }
      out := if row.token.Some? then HandedOut(row.token.value) else Nothing;
      row := row.(status := Consumed);
      pairings := pairings[code := row.(token := None)];
    }
  }

  // ---- Runs ----

  datatype Event =
    | LoginStarted(code: Code)
    | StartTapped(code: Code, sender: TelegramId)
    | ButtonTapped(code: Code, sender: TelegramId, approve: bool)
    | LoginPolled(code: Code, newUser: S.UserId, id: S.SessionId, claimFails: bool)
    | PairingStarted(code: Code)
    | PairingConfirmed(code: Code, user: S.UserId, id: S.SessionId)
    | PairingPolled(code: Code)
    | SessionEvent(event: S.Event)

  datatype Tick = Tick(event: Event, now: Time)

  /** Fresh codes, account ids and session keys. */
  predicate Enabled(s: Store, e: Event) {
    match e
    case LoginStarted(c) => c !in s.logins
    case PairingStarted(c) => c !in s.pairings
    case LoginPolled(_, u, id, _) => u !in s.sessions.users && id !in s.sessions.sessions
    case PairingConfirmed(_, _, id) => id !in s.sessions.sessions
    case SessionEvent(e) => S.Enabled(s.sessions, e)
    case _ => true
  }

  function Act(s: Store, cfg: Settings, e: Event, now: Time): (Store, Output) {
    match e
    case LoginStarted(c) => (s.(logins := s.logins[c := Login(Pending, None, now + cfg.loginTtl)]), Nothing)
    case StartTapped(c, x) => (Message(s, c, x, now), Nothing)
    case ButtonTapped(c, x, ok) => (Callback(s, c, x, ok, now), Nothing)
    case LoginPolled(c, u, id, f) => PollLogin(s, cfg, c, u, id, f, now)
    case PairingStarted(c) => (s.(pairings := s.pairings[c := Pairing(Waiting, None, None, now + cfg.pairingTtl)]),
                               Nothing)
    case PairingConfirmed(c, u, id) => ConfirmPairing(s, cfg, c, u, id, now)
    case PairingPolled(c) => PollPairing(s, c, now)
    case SessionEvent(x) => (s.(sessions := S.Step(s.sessions, cfg.sessions, x, now)), Nothing)
  }

  ghost predicate Transition(s: Store, tick: Tick, s': Store, cfg: Settings) {
    Enabled(s, tick.event) && s' == Act(s, cfg, tick.event, tick.now).0
  }

  ghost predicate Run(states: seq<Store>, ticks: seq<Tick>, cfg: Settings) {
    && |states| == |ticks| + 1
    && states[0].logins == map[] && states[0].pairings == map[]
    && forall k :: 0 <= k < |ticks| ==> Transition(states[k], ticks[k], states[k + 1], cfg)
  }

  function OutputOf(states: seq<Store>, ticks: seq<Tick>, cfg: Settings, k: nat): Output
    requires |states| == |ticks| + 1 && k < |ticks|
  {
    Act(states[k], cfg, ticks[k].event, ticks[k].now).1
  }

  /** A spent code stays spent. */
  lemma {:induction false} SpentForGood(states: seq<Store>, ticks: seq<Tick>, cfg: Settings, j: nat, k: nat, code: Code)
    requires Run(states, ticks, cfg) && j <= k < |states|
    ensures code in states[j].logins ==> code in states[k].logins
    ensures code in states[j].logins && states[j].logins[code].status == Used ==> states[k].logins[code].status == Used
    ensures code in states[j].pairings ==> code in states[k].pairings
    ensures code in states[j].pairings && states[j].pairings[code].status == Consumed ==>
              states[k].pairings[code].status == Consumed
    decreases k
  {
    if j < k {
      SpentForGood(states, ticks, cfg, j, k - 1, code);
      assert Transition(states[k - 1], ticks[k - 1], states[k], cfg);
    }
  }

  /** Each Telegram code hands out at most one token, whoever polls. */
  lemma LoginTokenOnce(states: seq<Store>, ticks: seq<Tick>, cfg: Settings, j: nat, k: nat)
    requires Run(states, ticks, cfg) && j < |ticks| && k < |ticks|
    requires ticks[j].event.LoginPolled? && ticks[k].event.LoginPolled? && ticks[j].event.code == ticks[k].event.code
    requires OutputOf(states, ticks, cfg, j).HandedOut? && OutputOf(states, ticks, cfg, k).HandedOut?
    ensures j == k
  {
    var a, b := if j <= k then j else k, if j <= k then k else j;
    if a < b {
      assert Transition(states[a], ticks[a], states[a + 1], cfg);
      SpentForGood(states, ticks, cfg, a + 1, b, ticks[a].event.code);
    }
  }

  /** Each pairing code hands out at most one token. */
  lemma PairingTokenOnce(states: seq<Store>, ticks: seq<Tick>, cfg: Settings, j: nat, k: nat)
    requires Run(states, ticks, cfg) && j < |ticks| && k < |ticks|
    requires ticks[j].event.PairingPolled? && ticks[k].event == ticks[j].event
    requires OutputOf(states, ticks, cfg, j).HandedOut? && OutputOf(states, ticks, cfg, k).HandedOut?
    ensures j == k
  {
    var a, b := if j <= k then j else k, if j <= k then k else j;
    if a < b {
      assert Transition(states[a], ticks[a], states[a + 1], cfg);
      SpentForGood(states, ticks, cfg, a + 1, b, ticks[a].event.code);
    }
  }

  /** Step i is the Start that took the code: it met the code pending and unexpired. */
  predicate Takes(states: seq<Store>, ticks: seq<Tick>, i: nat, code: Code, x: TelegramId)
    requires |states| == |ticks| + 1 && i < |ticks|
  {
    && ticks[i].event == StartTapped(code, x)
    && code in states[i].logins && states[i].logins[code].status == Pending &&
      ticks[i].now <= states[i].logins[code].expiresAt
  }

  /** Step j is the Confirm that was accepted: by the code's starter, before it expired. */
  predicate Approves(states: seq<Store>, ticks: seq<Tick>, j: nat, code: Code, x: TelegramId)
    requires |states| == |ticks| + 1 && j < |ticks|
  {
    && ticks[j].event == ButtonTapped(code, x, true)
    && code in states[j].logins && states[j].logins[code].status == Started &&
      states[j].logins[code].telegramId == Some(x)
    && ticks[j].now <= states[j].logins[code].expiresAt
  }

  /** x took the code at step i, and by step k approved it if the row is confirmed. */
  ghost predicate TakenBy(states: seq<Store>, ticks: seq<Tick>, i: nat, k: nat, code: Code, x: TelegramId)
    requires |states| == |ticks| + 1
  {
    i < k <= |ticks| && Takes(states, ticks, i, code, x)
  }

  ghost predicate ApprovedBy(states: seq<Store>, ticks: seq<Tick>, j: nat, k: nat, code: Code, x: TelegramId)
    requires |states| == |ticks| + 1
  {
    j < k <= |ticks| && Approves(states, ticks, j, code, x)
  }

  /** A code that has been taken is never pending again and keeps its taker and its expiry. */
  lemma {:induction false} TakerStays(states: seq<Store>, ticks: seq<Tick>, cfg: Settings, j: nat, k: nat, code: Code)
    requires Run(states, ticks, cfg) && j <= k < |states| && code in states[j].logins
    ensures code in states[k].logins && states[k].logins[code].expiresAt == states[j].logins[code].expiresAt
    ensures states[j].logins[code].status != Pending ==>
              states[k].logins[code].status != Pending &&
              states[k].logins[code].telegramId == states[j].logins[code].telegramId
    decreases k
  {
    if j < k {
      TakerStays(states, ticks, cfg, j, k - 1, code);
      assert Transition(states[k - 1], ticks[k - 1], states[k], cfg);
      LoginRowStep(states[k - 1], cfg, ticks[k - 1].event, ticks[k - 1].now, code);
      hide Act;
    }
  }

  /** What one step may do to the row of a Telegram code. */
  lemma LoginRowStep(s: Store, cfg: Settings, e: Event, now: Time, code: Code)
    requires Enabled(s, e) && code in s.logins
    ensures var (s', out) := Act(s, cfg, e, now);
            && code in s'.logins && s'.logins[code].expiresAt == s.logins[code].expiresAt
            && (s.logins[code].status != Pending ==>
                  s'.logins[code].status != Pending && s'.logins[code].telegramId == s.logins[code].telegramId)
            && (s.logins[code].status == Confirmed && !(e.LoginPolled? && e.code == code && out.HandedOut?) ==>
                  s'.logins[code] == s.logins[code])
  {
    hide S.Created, S.Step;
  }

  /** The Start that took a code is the only one. */
  lemma OneTaker(states: seq<Store>, ticks: seq<Tick>, cfg: Settings, i: nat, i': nat, code: Code, x: TelegramId,
                 y: TelegramId)
    requires Run(states, ticks, cfg) && i < |ticks| && i' < |ticks|
    requires Takes(states, ticks, i, code, x) && Takes(states, ticks, i', code, y)
    ensures i == i' && x == y
  {
    var a, b := if i <= i' then i else i', if i <= i' then i' else i;
    if a < b {
      assert Transition(states[a], ticks[a], states[a + 1], cfg);
      TakerStays(states, ticks, cfg, a + 1, b, code);
    }
  }

  /** What the row of a code says happened. */
  ghost predicate Explained(states: seq<Store>, ticks: seq<Tick>, k: nat, code: Code)
    requires |states| == |ticks| + 1 && k < |states|
  {
    code in states[k].logins ==>
      var row := states[k].logins[code];
      && (row.status in {Started, Confirmed} ==>
            row.telegramId.Some? && exists i :: TakenBy(states, ticks, i, k, code, row.telegramId.value))
      && (row.status == Confirmed ==> exists j :: ApprovedBy(states, ticks, j, k, code, row.telegramId.value))
  }

  lemma {:induction false} RowsExplained(states: seq<Store>, ticks: seq<Tick>, cfg: Settings, k: nat, code: Code)
    requires Run(states, ticks, cfg) && k < |states|
    ensures Explained(states, ticks, k, code)
  {
    if k > 0 {
      RowsExplained(states, ticks, cfg, k - 1, code);
      var s, s', tick := states[k - 1], states[k], ticks[k - 1];
      assert Transition(s, tick, s', cfg);
      if code in s.logins {
        RowMoves(s, cfg, tick.event, tick.now, code);
        hide Act;
        var row := s'.logins[code];
        if row.status == Started && s.logins[code].status == Pending {
          assert TakenBy(states, ticks, k - 1, k, code, row.telegramId.value);
        } else if row.status in {Started, Confirmed} {
          var i :| TakenBy(states, ticks, i, k - 1, code, row.telegramId.value);
          assert TakenBy(states, ticks, i, k, code, row.telegramId.value);
        }
        if row.status == Confirmed && s.logins[code].status == Started {
          assert ApprovedBy(states, ticks, k - 1, k, code, row.telegramId.value);
        } else if row.status == Confirmed {
          var j :| ApprovedBy(states, ticks, j, k - 1, code, row.telegramId.value);
          assert ApprovedBy(states, ticks, j, k, code, row.telegramId.value);
        }
      }
    }
  }

  /** How a row comes to be started or confirmed. */
  lemma RowMoves(s: Store, cfg: Settings, e: Event, now: Time, code: Code)
    requires Enabled(s, e) && code in s.logins
    ensures var s' := Act(s, cfg, e, now).0;
            && code in s'.logins
            && (s'.logins[code].status == Started ==>
                  || (s.logins[code].status == Started && s'.logins[code].telegramId == s.logins[code].telegramId)
                  || (s.logins[code].status == Pending && s'.logins[code].telegramId.Some? &&
                      now <= s.logins[code].expiresAt
                      && e == StartTapped(code, s'.logins[code].telegramId.value)))
            && (s'.logins[code].status == Confirmed ==>
                  && s'.logins[code].telegramId == s.logins[code].telegramId
                  && (s.logins[code].status == Confirmed
                      || (s.logins[code].status == Started && s.logins[code].telegramId.Some? &&
                          now <= s.logins[code].expiresAt
                          && e == ButtonTapped(code, s.logins[code].telegramId.value, true))))
  {
    hide S.Created, S.Step;
  }

  /** A Telegram token is handed out before its code expires, and belongs to the account of the one Telegram id
      whose Start met the code pending, and who then confirmed it; both before it expired. */
  lemma LoginTokenBelongsToTapper(states: seq<Store>, ticks: seq<Tick>, cfg: Settings, k: nat)
    requires Run(states, ticks, cfg) && k < |ticks| && ticks[k].event.LoginPolled?
    requires OutputOf(states, ticks, cfg, k).HandedOut?
    ensures var code := ticks[k].event.code;
            && code in states[k].logins && ticks[k].now <= states[k].logins[code].expiresAt
            && exists i, j, x ::
                 && TakenBy(states, ticks, i, k, code, x) && ApprovedBy(states, ticks, j, k, code, x) && i < j
                 && (forall i': nat, y :: i' < |ticks| && Takes(states, ticks, i', code, y) ==> i' == i && y == x)
                 && x in states[k + 1].accounts &&
                   OutputOf(states, ticks, cfg, k).token.user == states[k + 1].accounts[x]
  {
    var code := ticks[k].event.code;
    RowsExplained(states, ticks, cfg, k, code);
    assert Transition(states[k], ticks[k], states[k + 1], cfg);
    var x := states[k].logins[code].telegramId.value;
    var i :| TakenBy(states, ticks, i, k, code, x);
    var j :| ApprovedBy(states, ticks, j, k, code, x);
    forall i': nat, y | i' < |ticks| && Takes(states, ticks, i', code, y)
      ensures i' == i && y == x
    {
      OneTaker(states, ticks, cfg, i, i', code, x, y);
    }
    StartBeforeConfirm(states, ticks, cfg, i, j, code, x);
    assert x in states[k + 1].accounts;
  }

  lemma StartBeforeConfirm(states: seq<Store>, ticks: seq<Tick>, cfg: Settings, i: nat, j: nat, code: Code,
                           x: TelegramId)
    requires Run(states, ticks, cfg) && i < |ticks| && j < |ticks|
    requires Takes(states, ticks, i, code, x) && Approves(states, ticks, j, code, x)
    ensures i < j
  {
    if j <= i {
      TakerStays(states, ticks, cfg, j, i, code);
    }
  }

  // ---- A failure leaves the code usable ----

  /** No poll of the code hands out a token in steps j to n - 1. */
  ghost predicate NotHandedOut(states: seq<Store>, ticks: seq<Tick>, cfg: Settings, j: nat, n: nat, code: Code)
    requires |states| == |ticks| + 1 && j <= n <= |ticks|
  {
    forall k :: j <= k < n && ticks[k].event.LoginPolled? && ticks[k].event.code == code ==>
      !OutputOf(states, ticks, cfg, k).HandedOut?
  }

  /** A confirmed row stands unchanged, whatever else happens, until a poll of its code hands out the token. */
  lemma {:induction false} ConfirmedStands(states: seq<Store>, ticks: seq<Tick>, cfg: Settings, j: nat, n: nat,
                                           code: Code)
    requires Run(states, ticks, cfg) && j <= n <= |ticks| && NotHandedOut(states, ticks, cfg, j, n, code)
    requires code in states[j].logins && states[j].logins[code].status == Confirmed
    ensures code in states[n].logins && states[n].logins[code] == states[j].logins[code]
    decreases n
  {
    if j < n {
      ConfirmedStands(states, ticks, cfg, j, n - 1, code);
      assert Transition(states[n - 1], ticks[n - 1], states[n], cfg);
      LoginRowStep(states[n - 1], cfg, ticks[n - 1].event, ticks[n - 1].now, code);
      hide Act;
    }
  }

  /** A session can be opened for the Telegram identity: its account, if it has one, is active and below the
      device limit, and the guest's purchases can be claimed. */
  predicate CanSignIn(s: Store, cfg: Settings, tg: TelegramId, newUser: S.UserId, claimFails: bool, now: Time) {
    var user := if tg in s.accounts then s.accounts[tg] else newUser;
    && (tg in s.accounts ==> user in s.sessions.users && s.sessions.users[user])
    && |S.ActiveSessions(s.sessions, user, now)| < cfg.sessions.maxActive && !claimFails
  }

  lemma PollMeans(s: Store, cfg: Settings, code: Code, newUser: S.UserId, id: S.SessionId, claimFails: bool, now: Time)
    requires code in s.logins && s.logins[code].status == Confirmed && s.logins[code].telegramId.Some?
    requires now <= s.logins[code].expiresAt
    ensures PollLogin(s, cfg, code, newUser, id, claimFails, now).1.HandedOut? <==>
            CanSignIn(s, cfg, s.logins[code].telegramId.value, newUser, claimFails, now)
  {
    var sessions := s.sessions.(users := s.sessions.users[newUser := true]);
    assert S.ActiveSessions(sessions, newUser, now) == S.ActiveSessions(s.sessions, newUser, now);
  }

  /** After a poll whose login failed, and whatever happens to this and all other codes in between, the next poll of
      the code before it expires hands out a token exactly when a session can then be opened. */
  lemma FailedLoginRetries(states: seq<Store>, ticks: seq<Tick>, cfg: Settings, j: nat, n: nat)
    requires Run(states, ticks, cfg) && j < n < |ticks|
    requires ticks[j].event.LoginPolled? && ticks[n].event.LoginPolled? && ticks[j].event.code == ticks[n].event.code
    requires OutputOf(states, ticks, cfg, j) == LoginFailed
    requires NotHandedOut(states, ticks, cfg, j, n, ticks[n].event.code)
    ensures var e, s, code := ticks[n].event, states[n], ticks[n].event.code;
            && code in s.logins && s.logins[code].telegramId.Some? &&
              s.logins[code].telegramId == states[j].logins[code].telegramId
            && (ticks[n].now <= states[j].logins[code].expiresAt ==>
                  (OutputOf(states, ticks, cfg, n).HandedOut? <==>
                   CanSignIn(s, cfg, s.logins[code].telegramId.value, e.newUser, e.claimFails, ticks[n].now)))
  {
    var e, code := ticks[n].event, ticks[n].event.code;
    FailedPoll(states[j], cfg, ticks[j].event, ticks[j].now);
    ConfirmedStands(states, ticks, cfg, j, n, code);
    if ticks[n].now <= states[j].logins[code].expiresAt {
      PollMeans(states[n], cfg, code, e.newUser, e.id, e.claimFails, ticks[n].now);
    }
    hide PollLogin;
  }

  lemma FailedPoll(s: Store, cfg: Settings, e: Event, now: Time)
    requires e.LoginPolled? && Act(s, cfg, e, now).1 == LoginFailed
    ensures e.code in s.logins && s.logins[e.code].status == Confirmed && s.logins[e.code].telegramId.Some?
  {
  }

  /** No confirm of the code is accepted in steps j to n - 1. */
  ghost predicate NotApproved(states: seq<Store>, ticks: seq<Tick>, cfg: Settings, j: nat, n: nat, code: Code)
    requires |states| == |ticks| + 1 && j <= n <= |ticks|
  {
    forall k :: j <= k < n && ticks[k].event.PairingConfirmed? && ticks[k].event.code == code ==>
      OutputOf(states, ticks, cfg, k) != Nothing
  }

  /** A waiting row stands unchanged until a confirm of its code is accepted. */
  lemma {:induction false} WaitingStands(states: seq<Store>, ticks: seq<Tick>, cfg: Settings, j: nat, n: nat,
                                         code: Code)
    requires Run(states, ticks, cfg) && j <= n <= |ticks| && NotApproved(states, ticks, cfg, j, n, code)
    requires code in states[j].pairings && states[j].pairings[code].status == Waiting
    ensures code in states[n].pairings && states[n].pairings[code] == states[j].pairings[code]
    decreases n
  {
    if j < n {
      WaitingStands(states, ticks, cfg, j, n - 1, code);
      assert Transition(states[n - 1], ticks[n - 1], states[n], cfg);
      hide S.Created, S.Step;
    }
  }

  /** After a confirm that was refused, the next confirm of the code before it expires approves it, with the
      token of that confirmer, exactly when a session can then be opened for him. */
  lemma RefusedConfirmRetries(states: seq<Store>, ticks: seq<Tick>, cfg: Settings, j: nat, n: nat)
    requires Run(states, ticks, cfg) && j < n < |ticks|
    requires ticks[j].event.PairingConfirmed? && ticks[n].event.PairingConfirmed?
    requires ticks[j].event.code == ticks[n].event.code
    requires OutputOf(states, ticks, cfg, j) == LoginFailed
    requires NotApproved(states, ticks, cfg, j, n, ticks[n].event.code)
    ensures var e, s, code := ticks[n].event, states[n], ticks[n].event.code;
            && code in s.pairings && code in states[n + 1].pairings
            && (ticks[n].now <= states[j].pairings[code].expiresAt ==>
                  (states[n + 1].pairings[code].status == Approved <==>
                   e.user in s.sessions.users &&
                   |S.ActiveSessions(s.sessions, e.user, ticks[n].now)| < cfg.sessions.maxActive))
            && (states[n + 1].pairings[code].status == Approved ==>
                  states[n + 1].pairings[code].token == Some(S.Token(e.id, e.user, 0)))
  {
    var code := ticks[n].event.code;
    WaitingStands(states, ticks, cfg, j, n, code);
    assert Transition(states[n], ticks[n], states[n + 1], cfg);
  }

  // ---- Pairing tokens ----

  /** Approved rows hold exactly the token of the account that confirmed them. */
  ghost predicate PairingRowsOk(s: Store) {
    forall c :: c in s.pairings && s.pairings[c].status == Approved ==>
      && s.pairings[c].token.Some? && s.pairings[c].user == Some(s.pairings[c].token.value.user)
      && s.pairings[c].token.value.session in s.sessions.sessions
      && s.sessions.sessions[s.pairings[c].token.value.session].user == s.pairings[c].token.value.user
  }

  lemma StepKeepsPairingRows(s: Store, cfg: Settings, e: Event, now: Time)
    requires Enabled(s, e) && PairingRowsOk(s)
    ensures PairingRowsOk(Act(s, cfg, e, now).0)
  {
    var s' := Act(s, cfg, e, now).0;
    if e.SessionEvent? {
      forall id | id in s.sessions.sessions
        ensures id in s'.sessions.sessions && s'.sessions.sessions[id].user == s.sessions.sessions[id].user
      {
        S.StepRow(s.sessions, cfg.sessions, S.Tick(e.event, now), id);
      }
      hide S.Step;
    }
  }

  lemma {:induction false} RunKeepsPairingRows(states: seq<Store>, ticks: seq<Tick>, cfg: Settings, k: nat)
    requires Run(states, ticks, cfg) && k < |states|
    ensures PairingRowsOk(states[k])
  {
    if k > 0 {
      RunKeepsPairingRows(states, ticks, cfg, k - 1);
      assert Transition(states[k - 1], ticks[k - 1], states[k], cfg);
      StepKeepsPairingRows(states[k - 1], cfg, ticks[k - 1].event, ticks[k - 1].now);
    }
  }

  /** A poll of an approved, unexpired code always hands out the token of the account that approved it. */
  lemma PairingTokenBelongsToConfirmer(states: seq<Store>, ticks: seq<Tick>, cfg: Settings, k: nat)
    requires Run(states, ticks, cfg) && k < |ticks| && ticks[k].event.PairingPolled?
    ensures var code := ticks[k].event.code;
            PairingLive(states[k], code, ticks[k].now) && states[k].pairings[code].status == Approved <==>
              OutputOf(states, ticks, cfg, k).HandedOut?
    ensures var code := ticks[k].event.code;
            OutputOf(states, ticks, cfg, k).HandedOut? ==>
              && ticks[k].now <= states[k].pairings[code].expiresAt
              && states[k].pairings[code].user == Some(OutputOf(states, ticks, cfg, k).token.user)
              && OutputOf(states, ticks, cfg, k).token.session in states[k].sessions.sessions
  {
    RunKeepsPairingRows(states, ticks, cfg, k);
  }

  // ---- Codes respect the device limit ----

  /** Signing in by a code is, for the sessions, an account creation and a login. */
  lemma StepKeepsLimit(s: Store, cfg: Settings, e: Event, now: Time, u: S.UserId)
    requires Enabled(s, e) && |S.ActiveSessions(s.sessions, u, now)| <= cfg.sessions.maxActive
    ensures |S.ActiveSessions(Act(s, cfg, e, now).0.sessions, u, now)| <= cfg.sessions.maxActive
  {
    match e
    case LoginPolled(c, w, id, f) =>
      if Act(s, cfg, e, now).1.HandedOut? {
        var known := s.logins[c].telegramId.value in s.accounts;
        var user := if known then s.accounts[s.logins[c].telegramId.value] else w;
        var mid := if known then s.sessions else S.Step(s.sessions, cfg.sessions, S.Account(w, true), now);
        if !known {
          S.StepKeepsLimit(s.sessions, cfg.sessions, S.Account(w, true), now, u);
        }
        S.StepKeepsLimit(mid, cfg.sessions, S.Login(user, id), now, u);
      }
    case PairingConfirmed(c, w, id) =>
      S.StepKeepsLimit(s.sessions, cfg.sessions, S.Login(w, id), now, u);
    case SessionEvent(x) =>
      S.StepKeepsLimit(s.sessions, cfg.sessions, x, now, u);
    case _ =>
  }

  /** With sign-in codes in the mix, no user ever has more live sessions than permitted. */
  lemma {:induction false} CodesKeepDeviceLimit(states: seq<Store>, ticks: seq<Tick>, cfg: Settings, k: nat,
                                                u: S.UserId, at: Time)
    requires Run(states, ticks, cfg) && k < |states| && states[0].sessions.sessions == map[]
    requires forall j :: 0 <= j < |ticks| - 1 ==> ticks[j].now <= ticks[j + 1].now
    requires k > 0 ==> ticks[k - 1].now <= at
    ensures |S.ActiveSessions(states[k].sessions, u, at)| <= cfg.sessions.maxActive
    decreases k
  {
    if k == 0 {
      assert S.ActiveSessions(states[0].sessions, u, at) == {};
    } else {
      var now := ticks[k - 1].now;
      assert k >= 2 ==> ticks[k - 2].now <= ticks[k - 2 + 1].now;
      CodesKeepDeviceLimit(states, ticks, cfg, k - 1, u, now);
      assert Transition(states[k - 1], ticks[k - 1], states[k], cfg);
      StepKeepsLimit(states[k - 1], cfg, ticks[k - 1].event, now, u);
      S.LapsingShrinks(states[k].sessions, u, now, at);
    }
  }

  // ---- A token is handed out exactly when ----

  predicate StartInTime(t: Tick, code: Code, expiry: Time) {
    t.event.StartTapped? && t.event.code == code && t.now <= expiry
  }

  predicate TapInTime(t: Tick, code: Code, x: TelegramId, expiry: Time) {
    t.event.ButtonTapped? && t.event.code == code && t.event.sender == x && t.now <= expiry
  }

  /** Step h issued the code, to last until the given time. */
  predicate Issued(ticks: seq<Tick>, cfg: Settings, h: nat, code: Code, expiry: Time) {
    h < |ticks| && ticks[h].event == LoginStarted(code) && expiry == ticks[h].now + cfg.loginTtl
  }

  /** Step i is the first Start of the code in time, by x. */
  predicate FirstStart(ticks: seq<Tick>, h: nat, i: nat, code: Code, x: TelegramId, expiry: Time) {
    && h < i < |ticks| && ticks[i].event == StartTapped(code, x) && ticks[i].now <= expiry
    && forall m :: h < m < i ==> !StartInTime(ticks[m], code, expiry)
  }

  /** Step j is x's first tap on a button in time after that. */
  predicate FirstTap(ticks: seq<Tick>, i: nat, j: nat, code: Code, x: TelegramId, approve: bool, expiry: Time) {
    && i < j < |ticks| && ticks[j].event == ButtonTapped(code, x, approve) && ticks[j].now <= expiry
    && forall m :: i < m < j ==> !TapInTime(ticks[m], code, x, expiry)
  }

  /** What one step makes of the row of a Telegram code. */
  lemma LoginRowNext(s: Store, cfg: Settings, e: Event, now: Time, code: Code)
    requires Enabled(s, e) && code in s.logins
    ensures var (s', out) := Act(s, cfg, e, now);
            var row := s.logins[code];
            && code in s'.logins
            && s'.logins[code] ==
               if e.StartTapped? && e.code == code && now <= row.expiresAt && row.status == Pending then
                 Login(Started, Some(e.sender), row.expiresAt)
               else if e.ButtonTapped? && e.code == code && now <= row.expiresAt && row.status == Started &&
                       row.telegramId == Some(e.sender) then
                 Login(if e.approve then Confirmed else Cancelled, row.telegramId, row.expiresAt)
               else if e.LoginPolled? && e.code == code && out.HandedOut? then
                 Login(Used, row.telegramId, row.expiresAt)
               else row
  {
    hide S.Created, S.Step;
  }

  lemma LoginRowNew(s: Store, cfg: Settings, e: Event, now: Time, code: Code)
    requires Enabled(s, e) && code !in s.logins
    ensures var s' := Act(s, cfg, e, now).0;
            if e == LoginStarted(code) then
              code in s'.logins && s'.logins[code] == Login(Pending, None, now + cfg.loginTtl)
            else code !in s'.logins
  {
    hide S.Created, S.Step;
  }

  /** The history that a row of this status stands for. */
  predicate RowSays(ticks: seq<Tick>, cfg: Settings, n: nat, code: Code, row: Login, h: nat, i: nat, j: nat)
    requires n <= |ticks|
  {
    && h < n && Issued(ticks, cfg, h, code, row.expiresAt)
    && (row.status == Pending ==> forall m :: h < m < n ==> !StartInTime(ticks[m], code, row.expiresAt))
    && (row.status != Pending ==>
          && row.telegramId.Some? && i < n
          && FirstStart(ticks, h, i, code, row.telegramId.value, row.expiresAt)
          && if row.status == Started then
               forall m :: i < m < n ==> !TapInTime(ticks[m], code, row.telegramId.value, row.expiresAt)
             else
               && j < n
               && FirstTap(ticks, i, j, code, row.telegramId.value, row.status != Cancelled, row.expiresAt))
  }

  lemma {:induction false} RowHistory(states: seq<Store>, ticks: seq<Tick>, cfg: Settings, n: nat, code: Code)
    returns (h: nat, i: nat, j: nat)
    requires Run(states, ticks, cfg) && n <= |ticks| && code in states[n].logins
    ensures RowSays(ticks, cfg, n, code, states[n].logins[code], h, i, j)
  {
    h, i, j := 0, 0, 0;
    if n > 0 {
      var s, tick := states[n - 1], ticks[n - 1];
      assert Transition(s, tick, states[n], cfg);
      hide Run;
      if code in s.logins {
        h, i, j := RowHistory(states, ticks, cfg, n - 1, code);
        LoginRowNext(s, cfg, tick.event, tick.now, code);
        hide Act;
        if s.logins[code].status == Pending && states[n].logins[code].status == Started {
          i := n - 1;
        } else if s.logins[code].status == Started && states[n].logins[code].status in {Confirmed, Cancelled} {
          j := n - 1;
        }
      } else {
        LoginRowNew(s, cfg, tick.event, tick.now, code);
        hide Act;
        h := n - 1;
      }
    }
  }

  /** The code was issued, x was the first to tap Start, and x's first tap after that, before step k, was Confirm. */
  predicate ConfirmedBy(ticks: seq<Tick>, cfg: Settings, h: nat, i: nat, j: nat, k: nat, code: Code, x: TelegramId,
                        expiry: Time) {
    && Issued(ticks, cfg, h, code, expiry) && FirstStart(ticks, h, i, code, x, expiry)
    && FirstTap(ticks, i, j, code, x, true, expiry) && j < k
  }

  lemma OneIssue(states: seq<Store>, ticks: seq<Tick>, cfg: Settings, g: nat, h: nat, code: Code, a: Time, b: Time)
    requires Run(states, ticks, cfg) && Issued(ticks, cfg, g, code, a) && Issued(ticks, cfg, h, code, b)
    ensures g == h && a == b
  {
    assert Transition(states[g], ticks[g], states[g + 1], cfg) && Transition(states[h], ticks[h], states[h + 1], cfg);
    if g < h {
      SpentForGood(states, ticks, cfg, g + 1, h, code);
    } else if h < g {
      SpentForGood(states, ticks, cfg, h + 1, g, code);
    }
  }

  /** The row at any time after the confirmation but before the token is handed out. */
  lemma ConfirmedRow(states: seq<Store>, ticks: seq<Tick>, cfg: Settings, h: nat, i: nat, j: nat, k: nat, code: Code,
                     x: TelegramId, expiry: Time)
    requires Run(states, ticks, cfg) && k <= |ticks| && ConfirmedBy(ticks, cfg, h, i, j, k, code, x, expiry)
    requires NotHandedOut(states, ticks, cfg, j, k, code)
    ensures code in states[k].logins && states[k].logins[code] == Login(Confirmed, Some(x), expiry)
  {
    assert Transition(states[h], ticks[h], states[h + 1], cfg) && Transition(states[j], ticks[j], states[j + 1], cfg);
    SpentForGood(states, ticks, cfg, h + 1, j, code);
    var h', i', j' := RowHistory(states, ticks, cfg, j, code);
    OneIssue(states, ticks, cfg, h, h', code, expiry, states[j].logins[code].expiresAt);
    var row := states[j].logins[code];
    assert row.status != Pending ==> i' == i;
    assert row == Login(Started, Some(x), expiry);
    LoginRowNext(states[j], cfg, ticks[j].event, ticks[j].now, code);
    hide Act;
    ConfirmedStands(states, ticks, cfg, j + 1, k, code);
  }

  /** A poll hands out a token exactly when the code is unexpired, its first starter's first tap after that was
      Confirm, no token was handed out for it since, and a session can be opened for that Telegram identity; if only
      the last is missing the login fails.  The token is for the account of the identity. */
  lemma LoginTokenIff(states: seq<Store>, ticks: seq<Tick>, cfg: Settings, k: nat)
    requires Run(states, ticks, cfg) && k < |ticks| && ticks[k].event.LoginPolled?
    ensures var e, code := ticks[k].event, ticks[k].event.code;
            && (OutputOf(states, ticks, cfg, k).HandedOut? <==>
                  exists h: nat, i: nat, j: nat, x, expiry ::
                    && ConfirmedBy(ticks, cfg, h, i, j, k, code, x, expiry) && ticks[k].now <= expiry
                    && NotHandedOut(states, ticks, cfg, j, k, code)
                    && CanSignIn(states[k], cfg, x, e.newUser, e.claimFails, ticks[k].now))
            && (forall h: nat, i: nat, j: nat, x, expiry ::
                  ConfirmedBy(ticks, cfg, h, i, j, k, code, x, expiry) && ticks[k].now <= expiry &&
                  NotHandedOut(states, ticks, cfg, j, k, code) ==>
                    OutputOf(states, ticks, cfg, k) ==
                    if CanSignIn(states[k], cfg, x, e.newUser, e.claimFails, ticks[k].now) then
                      HandedOut(S.Token(e.id, if x in states[k].accounts then states[k].accounts[x] else e.newUser, 0))
                    else LoginFailed)
  {
    var e, code := ticks[k].event, ticks[k].event.code;
    hide CanSignIn, ConfirmedBy, NotHandedOut, Run;
    forall h: nat, i: nat, j: nat, x, expiry |
      ConfirmedBy(ticks, cfg, h, i, j, k, code, x, expiry) && ticks[k].now <= expiry &&
      NotHandedOut(states, ticks, cfg, j, k, code)
      ensures OutputOf(states, ticks, cfg, k) ==
              if CanSignIn(states[k], cfg, x, e.newUser, e.claimFails, ticks[k].now) then
                HandedOut(S.Token(e.id, if x in states[k].accounts then states[k].accounts[x] else e.newUser, 0))
              else LoginFailed
    {
      ConfirmedRow(states, ticks, cfg, h, i, j, k, code, x, expiry);
      PollAnswer(states[k], cfg, code, e.newUser, e.id, e.claimFails, ticks[k].now);
    }
    if OutputOf(states, ticks, cfg, k).HandedOut? {
      HandedOutRow(states[k], cfg, code, e.newUser, e.id, e.claimFails, ticks[k].now);
      var h, i, j := RowHistory(states, ticks, cfg, k, code);
      var row := states[k].logins[code];
      HistoryConfirms(ticks, cfg, h, i, j, k, code, row);
      OnlyOnce(states, ticks, cfg, j, k);
      PollMeans(states[k], cfg, code, e.newUser, e.id, e.claimFails, ticks[k].now);
      assert ConfirmedBy(ticks, cfg, h, i, j, k, code, row.telegramId.value, row.expiresAt);
    }
  }

  lemma HistoryConfirms(ticks: seq<Tick>, cfg: Settings, h: nat, i: nat, j: nat, k: nat, code: Code, row: Login)
    requires k <= |ticks| && RowSays(ticks, cfg, k, code, row, h, i, j) && row.status == Confirmed
    ensures row.telegramId.Some? && ConfirmedBy(ticks, cfg, h, i, j, k, code, row.telegramId.value, row.expiresAt)
  {
  }

  lemma OnlyOnce(states: seq<Store>, ticks: seq<Tick>, cfg: Settings, j: nat, k: nat)
    requires Run(states, ticks, cfg) && j <= k < |ticks| && ticks[k].event.LoginPolled?
    requires OutputOf(states, ticks, cfg, k).HandedOut?
    ensures NotHandedOut(states, ticks, cfg, j, k, ticks[k].event.code)
  {
    forall m | j <= m < k && ticks[m].event.LoginPolled? && ticks[m].event.code == ticks[k].event.code
      ensures !OutputOf(states, ticks, cfg, m).HandedOut?
    {
      if OutputOf(states, ticks, cfg, m).HandedOut? {
        LoginTokenOnce(states, ticks, cfg, m, k);
      }
    }
  }

  lemma HandedOutRow(s: Store, cfg: Settings, code: Code, newUser: S.UserId, id: S.SessionId, claimFails: bool,
                     now: Time)
    requires PollLogin(s, cfg, code, newUser, id, claimFails, now).1.HandedOut?
    ensures code in s.logins && s.logins[code].status == Confirmed && s.logins[code].telegramId.Some?
    ensures now <= s.logins[code].expiresAt
  {
  }

  lemma PollAnswer(s: Store, cfg: Settings, code: Code, newUser: S.UserId, id: S.SessionId, claimFails: bool, now: Time)
    requires code in s.logins && s.logins[code].status == Confirmed && s.logins[code].telegramId.Some?
    requires now <= s.logins[code].expiresAt
    ensures var x := s.logins[code].telegramId.value;
            PollLogin(s, cfg, code, newUser, id, claimFails, now).1 ==
            if CanSignIn(s, cfg, x, newUser, claimFails, now) then
              HandedOut(S.Token(id, if x in s.accounts then s.accounts[x] else newUser, 0))
            else LoginFailed
  {
    PollMeans(s, cfg, code, newUser, id, claimFails, now);
    hide CanSignIn, S.Created;
  }

  // ---- The same for pairing ----

  predicate PairingIssued(ticks: seq<Tick>, cfg: Settings, h: nat, code: Code, expiry: Time) {
    h < |ticks| && ticks[h].event == PairingStarted(code) && expiry == ticks[h].now + cfg.pairingTtl
  }

  /** Step m is a confirm of the code in time, by a user for whom a session can be opened. */
  predicate Accepted(states: seq<Store>, ticks: seq<Tick>, cfg: Settings, m: nat, code: Code, expiry: Time)
    requires |states| == |ticks| + 1 && m < |ticks|
  {
    && ticks[m].event.PairingConfirmed? && ticks[m].event.code == code && ticks[m].now <= expiry
    && ticks[m].event.user in states[m].sessions.users
    && S.SlotFree(states[m].sessions, cfg.sessions, ticks[m].event.user, ticks[m].now)
  }

  predicate FirstAccepted(states: seq<Store>, ticks: seq<Tick>, cfg: Settings, h: nat, j: nat, code: Code,
                          expiry: Time)
    requires |states| == |ticks| + 1
  {
    h < j < |ticks| && Accepted(states, ticks, cfg, j, code, expiry) &&
    forall m :: h < m < j ==> !Accepted(states, ticks, cfg, m, code, expiry)
  }

  predicate PollInTime(t: Tick, code: Code, expiry: Time) {
    t.event == PairingPolled(code) && t.now <= expiry
  }

  predicate PairingRowSays(states: seq<Store>, ticks: seq<Tick>, cfg: Settings, n: nat, code: Code, row: Pairing,
                           h: nat, j: nat)
    requires |states| == |ticks| + 1 && n <= |ticks|
  {
    && h < n && PairingIssued(ticks, cfg, h, code, row.expiresAt)
    && (row.status == Waiting ==>
          row.token.None? && forall m :: h < m < n ==> !Accepted(states, ticks, cfg, m, code, row.expiresAt))
    && (row.status != Waiting ==> j < n && FirstAccepted(states, ticks, cfg, h, j, code, row.expiresAt))
    && (row.status == Approved ==>
          && row.token == Some(S.Token(ticks[j].event.id, ticks[j].event.user, 0))
          && forall m :: j < m < n ==> !PollInTime(ticks[m], code, row.expiresAt))
    && (row.status == Consumed ==> exists m :: j < m < n && PollInTime(ticks[m], code, row.expiresAt))
  }

  /** What one step makes of the row of a pairing code. */
  lemma PairingRowNext(s: Store, cfg: Settings, e: Event, now: Time, code: Code)
    requires Enabled(s, e) && code in s.pairings
    ensures var s' := Act(s, cfg, e, now).0;
            var row := s.pairings[code];
            && code in s'.pairings
            && s'.pairings[code] ==
               if e.PairingConfirmed? && e.code == code && now <= row.expiresAt && row.status == Waiting &&
                  e.user in s.sessions.users && S.SlotFree(s.sessions, cfg.sessions, e.user, now) then
                 Pairing(Approved, Some(S.Token(e.id, e.user, 0)), Some(e.user), row.expiresAt)
               else if e == PairingPolled(code) && now <= row.expiresAt && row.status == Approved then
                 Pairing(Consumed, None, row.user, row.expiresAt)
               else row
  {
    if e.PairingConfirmed? {
      S.SlotFreeMeans(s.sessions, cfg.sessions, e.user, now);
    }
    hide S.SlotFree, S.ActiveSessions, S.Step;
  }

  lemma PairingRowNew(s: Store, cfg: Settings, e: Event, now: Time, code: Code)
    requires Enabled(s, e) && code !in s.pairings
    ensures var s' := Act(s, cfg, e, now).0;
            if e == PairingStarted(code) then
              code in s'.pairings && s'.pairings[code] == Pairing(Waiting, None, None, now + cfg.pairingTtl)
            else code !in s'.pairings
  {
    hide S.Created, S.Step;
  }

  lemma {:induction false} PairingHistory(states: seq<Store>, ticks: seq<Tick>, cfg: Settings, n: nat, code: Code)
    returns (h: nat, j: nat)
    requires Run(states, ticks, cfg) && n <= |ticks| && code in states[n].pairings
    ensures PairingRowSays(states, ticks, cfg, n, code, states[n].pairings[code], h, j)
  {
    h, j := 0, 0;
    if n > 0 {
      var s, tick := states[n - 1], ticks[n - 1];
      assert Transition(s, tick, states[n], cfg);
      hide Run, S.SlotFree;
      if code in s.pairings {
        h, j := PairingHistory(states, ticks, cfg, n - 1, code);
        PairingRowNext(s, cfg, tick.event, tick.now, code);
        hide Act;
        if s.pairings[code].status == Waiting && states[n].pairings[code].status == Approved {
          j := n - 1;
        }
      } else {
        PairingRowNew(s, cfg, tick.event, tick.now, code);
        hide Act;
        h := n - 1;
      }
    }
  }

  lemma OnePairing(states: seq<Store>, ticks: seq<Tick>, cfg: Settings, g: nat, h: nat, code: Code, a: Time, b: Time)
    requires Run(states, ticks, cfg)
    requires PairingIssued(ticks, cfg, g, code, a) && PairingIssued(ticks, cfg, h, code, b)
    ensures g == h && a == b
  {
    assert Transition(states[g], ticks[g], states[g + 1], cfg) && Transition(states[h], ticks[h], states[h + 1], cfg);
    if g < h {
      SpentForGood(states, ticks, cfg, g + 1, h, code);
    } else if h < g {
      SpentForGood(states, ticks, cfg, h + 1, g, code);
    }
  }

  /** The code was issued at h, and j is its first accepted confirm; no poll in time came since. */
  predicate Untaken(states: seq<Store>, ticks: seq<Tick>, cfg: Settings, h: nat, j: nat, k: nat, code: Code,
                    expiry: Time)
    requires |states| == |ticks| + 1 && k <= |ticks|
  {
    && PairingIssued(ticks, cfg, h, code, expiry) && FirstAccepted(states, ticks, cfg, h, j, code, expiry) && j < k
    && forall m :: j < m < k ==> !PollInTime(ticks[m], code, expiry)
  }

  /** A poll hands out a token exactly when the code is unexpired, a confirm of it was accepted and no poll came in
      time since; the token is the one of the first accepted confirm. */
  lemma PairingTokenIff(states: seq<Store>, ticks: seq<Tick>, cfg: Settings, k: nat)
    requires Run(states, ticks, cfg) && k < |ticks| && ticks[k].event.PairingPolled?
    ensures var code := ticks[k].event.code;
            && (OutputOf(states, ticks, cfg, k).HandedOut? <==>
                  exists h: nat, j: nat, expiry ::
                    Untaken(states, ticks, cfg, h, j, k, code, expiry) && ticks[k].now <= expiry)
            && (forall h: nat, j: nat, expiry ::
                  Untaken(states, ticks, cfg, h, j, k, code, expiry) && ticks[k].now <= expiry ==>
                    OutputOf(states, ticks, cfg, k) ==
                    HandedOut(S.Token(ticks[j].event.id, ticks[j].event.user, 0)))
  {
    var code := ticks[k].event.code;
    hide Untaken, PairingRowSays, Run;
    forall h: nat, j: nat, expiry | Untaken(states, ticks, cfg, h, j, k, code, expiry) && ticks[k].now <= expiry
      ensures OutputOf(states, ticks, cfg, k) == HandedOut(S.Token(ticks[j].event.id, ticks[j].event.user, 0))
    {
      UntakenRow(states, ticks, cfg, h, j, k, code, expiry);
    }
    if OutputOf(states, ticks, cfg, k).HandedOut? {
      var h, j := PairingHistory(states, ticks, cfg, k, code);
      HistoryUntaken(states, ticks, cfg, h, j, k, code, states[k].pairings[code]);
    }
  }

  lemma HistoryUntaken(states: seq<Store>, ticks: seq<Tick>, cfg: Settings, h: nat, j: nat, k: nat, code: Code,
                       row: Pairing)
    requires |states| == |ticks| + 1 && k <= |ticks|
    requires PairingRowSays(states, ticks, cfg, k, code, row, h, j)
    ensures row.status == Approved ==> Untaken(states, ticks, cfg, h, j, k, code, row.expiresAt)
    ensures row.status == Waiting ==> row.token.None?
  {
  }

  lemma UntakenRow(states: seq<Store>, ticks: seq<Tick>, cfg: Settings, h: nat, j: nat, k: nat, code: Code,
                   expiry: Time)
    requires Run(states, ticks, cfg) && k <= |ticks| && Untaken(states, ticks, cfg, h, j, k, code, expiry)
    ensures code in states[k].pairings && states[k].pairings[code].expiresAt == expiry
    ensures states[k].pairings[code].status == Approved
    ensures states[k].pairings[code].token == Some(S.Token(ticks[j].event.id, ticks[j].event.user, 0))
  {
    assert Transition(states[h], ticks[h], states[h + 1], cfg);
    SpentForGood(states, ticks, cfg, h + 1, k, code);
    var h', j' := PairingHistory(states, ticks, cfg, k, code);
    OnePairing(states, ticks, cfg, h, h', code, expiry, states[k].pairings[code].expiresAt);
    hide Run, Act, Accepted;
    assert states[k].pairings[code].status != Waiting ==> j' == j;
  }

  /** A poll that hands out a token, and a confirm that is accepted, open one session that lasts a whole lifetime from
      then on; other polls and confirms leave the sessions alone. */
  lemma CodesOpenSessions(s: Store, cfg: Settings, e: Event, now: Time)
    requires Enabled(s, e) && (e.LoginPolled? || e.PairingConfirmed?)
    ensures var (s', out) := Act(s, cfg, e, now);
            if e.LoginPolled? && out.HandedOut? then
              && out.token.session == e.id && out.token.version == 0
              && s'.sessions.sessions ==
                 s.sessions.sessions[e.id := S.Session(out.token.user, now + cfg.sessions.ttl, None, 0, None)]
            else if e.PairingConfirmed? && out == Nothing then
              s'.sessions == s.sessions.(
                sessions := s.sessions.sessions[e.id := S.Session(e.user, now + cfg.sessions.ttl, None, 0, None)])
            else s'.sessions == s.sessions
  {
  }
}
