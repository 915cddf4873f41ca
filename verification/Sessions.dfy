/** Login sessions (internal/auth/service.go, internal/location/service.go, internal/middleware/auth.go):
    every access or refresh token has a Redis key that must say so for the token to be honoured.

    Token ids are fresh numbers. A refresh is two steps, reading the session and rotating it, because
    other requests can come between them; every other request is one step. The value "valid" that
    older builds wrote is not modelled. */
module Sessions {

  import opened Options

  type User = nat

  datatype Value = Access | Refresh | Revoked

  datatype Key = Key(user: User, jti: nat)

  datatype Session = Session(value: Value, expires: int)

  /** What a signed token says of itself; its position in the table is its id. */
  datatype Token = Token(user: User, kind: Value, expires: int)

  datatype Config = Config(accessTtl: nat, refreshTtl: nat)

  /** `pending` holds the refresh requests that have read a live session and not yet rotated it;
      `suspended` the suspended users, with the end of a temporary ban. */
  datatype State = State(now: int, sessions: map<Key, Session>, tokens: seq<Token>,
                         pending: map<nat, nat>, suspended: map<User, Option<int>>)

  const START := State(0, map[], [], map[], map[])

  /** A token is honoured while it has not run out and its key is there with the value of its kind. */
  predicate Honoured(s: State, jti: nat)
  {
    jti < |s.tokens| && s.now < s.tokens[jti].expires
    && Key(s.tokens[jti].user, jti) in s.sessions
    && s.now < s.sessions[Key(s.tokens[jti].user, jti)].expires
    && s.sessions[Key(s.tokens[jti].user, jti)].value == s.tokens[jti].kind
  }

  // ---------------------------------------------------------------- the requests

  function IssuePair(cfg: Config, s: State, u: User): State
  {
    var access, refresh := |s.tokens|, |s.tokens| + 1;
    var accessEnd, refreshEnd := s.now + cfg.accessTtl, s.now + cfg.refreshTtl;
    s.(tokens := s.tokens + [Token(u, Access, accessEnd), Token(u, Refresh, refreshEnd)],
       sessions := s.sessions[Key(u, refresh) := Session(Refresh, refreshEnd)][Key(u, access) := Session(Access, accessEnd)])
  }

  function Revoke(s: State, k: Key, ttl: nat): State
  {
    s.(sessions := s.sessions[k := Session(Revoked, s.now + ttl)])
  }

  predicate StillSuspended(s: State, u: User)
  {
    u in s.suspended && (s.suspended[u] == None || s.suspended[u].value > s.now)
  }

  /** The first half of a refresh: a suspended user loses the session, an expired ban is lifted. */
  function ReadSession(cfg: Config, s: State, req: nat, jti: nat): State
  {
    if req in s.pending || !Honoured(s, jti) || s.tokens[jti].kind != Refresh then s
    else
      var u := s.tokens[jti].user;
      if StillSuspended(s, u) then Revoke(s, Key(u, jti), cfg.refreshTtl)
      else s.(pending := s.pending[req := jti], suspended := s.suspended - {u})
  }

  /** The second half: the old session is revoked, then a new pair issued. */
  function Rotate(cfg: Config, s: State, req: nat): State
  {
    if req !in s.pending || s.pending[req] >= |s.tokens| then s
    else
      var jti := s.pending[req];
      var u := s.tokens[jti].user;
      IssuePair(cfg, Revoke(s.(pending := s.pending - {req}), Key(u, jti), cfg.refreshTtl), u)
  }

  /** `access` is the token the request was authenticated with. */
  function Logout(cfg: Config, s: State, access: nat, refresh: Option<nat>): State
  {
    if !Honoured(s, access) || s.tokens[access].kind != Access then s
    else
      var u := s.tokens[access].user;
      var t := Revoke(s, Key(u, access), cfg.accessTtl);
      if refresh.Some? && refresh.value < |s.tokens| && s.now < s.tokens[refresh.value].expires
         && s.tokens[refresh.value].kind == Refresh && s.tokens[refresh.value].user == u
      then Revoke(t, Key(u, refresh.value), cfg.refreshTtl)
      else t
  }

  predicate Dropped(s: State, u: User, k: Key)
  {
    k in s.sessions && k.user == u && s.now < s.sessions[k].expires && s.sessions[k].value == Access
  }

  /** Of the user's keys those that say "access" are deleted. */
  function DropAccess(s: State, u: User): State
  {
    s.(sessions := map k | k in s.sessions && !Dropped(s, u, k) :: s.sessions[k])
  }

  /** A ban, a driver's approval and the deletion of an account delete all of the user's keys. */
  function DropAll(s: State, u: User): State
  {
    s.(sessions := map k | k in s.sessions && k.user != u :: s.sessions[k])
  }

  datatype Event =
    | Tick(d: nat)
    | Login(user: User)
    | StartRefresh(req: nat, jti: nat)
    | FinishRefresh(req: nat)
    | LogOut(access: nat, refresh: Option<nat>)
    | SwitchMode(user: User, allowed: bool)
    | Suspend(user: User, until: Option<int>)
    | KickOut(user: User)

  function Step(cfg: Config, s: State, e: Event): State
  {
    match e
    case Tick(d) => s.(now := s.now + d)
    case Login(u) => IssuePair(cfg, s, u)
    case StartRefresh(req, jti) => ReadSession(cfg, s, req, jti)
    case FinishRefresh(req) => Rotate(cfg, s, req)
    case LogOut(access, refresh) => Logout(cfg, s, access, refresh)
    case SwitchMode(u, allowed) => if allowed then DropAccess(s, u) else s
    case Suspend(u, until) => s.(suspended := s.suspended[u := until])
    case KickOut(u) => DropAll(s, u)
  }

  function Run(cfg: Config, s: State, events: seq<Event>): State
  {
    if events == [] then s else Step(cfg, Run(cfg, s, events[..|events| - 1]), events[|events| - 1])
  }

  // ---------------------------------------------------------------- nothing is revived

  lemma StepKeepsTokens(cfg: Config, s: State, e: Event)
    ensures s.tokens <= Step(cfg, s, e).tokens && s.now <= Step(cfg, s, e).now
  {
  }

  /** A key of an old token is only ever revoked, deleted or left to expire. */
  lemma OldKeys(cfg: Config, s: State, e: Event, k: Key)
    requires k.jti < |s.tokens|
    ensures var t := Step(cfg, s, e);
            k in t.sessions ==> t.sessions[k].value == Revoked || (k in s.sessions && t.sessions[k] == s.sessions[k])
  {
  }

  lemma StepNeverRevives(cfg: Config, s: State, e: Event, jti: nat)
    requires jti < |s.tokens| && !Honoured(s, jti) && s.tokens[jti].kind != Revoked
    ensures !Honoured(Step(cfg, s, e), jti)
  {
    StepKeepsTokens(cfg, s, e);
    assert Step(cfg, s, e).tokens[jti] == s.tokens[jti];
    OldKeys(cfg, s, e, Key(s.tokens[jti].user, jti));
  }

  ghost predicate RealTokens(s: State)
  {
    && (forall t <- s.tokens :: t.kind != Revoked)
    && (forall k | k in s.sessions :: k.jti < |s.tokens|)
    && (forall req | req in s.pending :: s.pending[req] < |s.tokens| && s.tokens[s.pending[req]].kind == Refresh)
  }

  lemma RotateReal(cfg: Config, s: State, req: nat)
    requires RealTokens(s)
    ensures RealTokens(Rotate(cfg, s, req))
  {
  }

  lemma StepReal(cfg: Config, s: State, e: Event)
    requires RealTokens(s)
    ensures RealTokens(Step(cfg, s, e))
  {
    StepKeepsTokens(cfg, s, e);
    if e.FinishRefresh? {
      RotateReal(cfg, s, e.req);
    }
  }

  lemma {:induction false} RunReal(cfg: Config, s: State, events: seq<Event>)
    requires RealTokens(s)
    ensures RealTokens(Run(cfg, s, events)) && s.tokens <= Run(cfg, s, events).tokens
  {
    if events != [] {
      var n := |events| - 1;
      RunReal(cfg, s, events[..n]);
      StepReal(cfg, Run(cfg, s, events[..n]), events[n]);
      StepKeepsTokens(cfg, Run(cfg, s, events[..n]), events[n]);
    }
  }

  /** A token that has been refused once is refused ever after. */
  lemma {:induction false} NeverRevived(cfg: Config, s: State, events: seq<Event>, jti: nat)
    requires RealTokens(s) && jti < |s.tokens| && !Honoured(s, jti)
    ensures !Honoured(Run(cfg, s, events), jti)
  {
    if events != [] {
      var n := |events| - 1;
      NeverRevived(cfg, s, events[..n], jti);
      RunReal(cfg, s, events[..n]);
      var t := Run(cfg, s, events[..n]);
      assert t.tokens[jti] == s.tokens[jti] && s.tokens[jti] in s.tokens;
      StepNeverRevives(cfg, t, events[n], jti);
    }
  }

  // ---------------------------------------------------------------- a refresh token is redeemed once

  function At(cfg: Config, events: seq<Event>, i: nat): State
    requires i <= |events|
  {
    Run(cfg, START, events[..i])
  }

  /** Step i of the run trades token jti for a new pair. */
  ghost predicate Redeems(cfg: Config, events: seq<Event>, i: nat, jti: nat)
  {
    i < |events| && events[i].FinishRefresh?
    && events[i].req in At(cfg, events, i).pending && At(cfg, events, i).pending[events[i].req] == jti
  }

  predicate PendingFor(s: State, req: nat, jti: nat)
  {
    req in s.pending && s.pending[req] == jti
  }

  lemma RotateKills(cfg: Config, s: State, req: nat)
    requires RealTokens(s) && req in s.pending
    ensures var t := Rotate(cfg, s, req);
            s.pending[req] < |t.tokens| && !Honoured(t, s.pending[req]) && req !in t.pending
  {
  }

  lemma StepPendingBack(cfg: Config, s: State, e: Event, req: nat, jti: nat)
    requires PendingFor(Step(cfg, s, e), req, jti) && !Honoured(s, jti)
    ensures PendingFor(s, req, jti)
  {
  }

  /** Once the token is refused nobody new gets to redeem it. */
  lemma {:induction false} PendingBack(cfg: Config, s: State, events: seq<Event>, req: nat, jti: nat)
    requires RealTokens(s) && jti < |s.tokens| && !Honoured(s, jti)
    requires PendingFor(Run(cfg, s, events), req, jti)
    ensures PendingFor(s, req, jti)
  {
    if events != [] {
      var n := |events| - 1;
      NeverRevived(cfg, s, events[..n], jti);
      StepPendingBack(cfg, Run(cfg, s, events[..n]), events[n], req, jti);
      PendingBack(cfg, s, events[..n], req, jti);
    }
  }

  lemma {:induction false} RunSplits(cfg: Config, s: State, events: seq<Event>, i: nat)
    requires i <= |events|
    ensures Run(cfg, s, events) == Run(cfg, Run(cfg, s, events[..i]), events[i..])
    decreases |events| - i
  {
    if i == |events| {
      assert events[..i] == events && events[i..] == [];
    } else {
      RunSplits(cfg, s, events, i + 1);
      assert events[..i + 1][..i] == events[..i];
      RunHead(cfg, Run(cfg, s, events[..i]), events[i], events[i + 1..]);
      assert [events[i]] + events[i + 1..] == events[i..];
    }
  }

  lemma {:induction false} RunHead(cfg: Config, s: State, e: Event, events: seq<Event>)
    ensures Run(cfg, s, [e] + events) == Run(cfg, Step(cfg, s, e), events)
  {
    if events == [] {
      assert [e] + [] == [e] && [e][..0] == [];
      assert Run(cfg, s, [e]) == Step(cfg, Run(cfg, s, []), e);
    } else {
      var n := |events| - 1;
      RunHead(cfg, s, e, events[..n]);
      assert ([e] + events)[..n + 1] == [e] + events[..n];
    }
  }

  /** In every run, if a refresh token is redeemed a second time, the second request had read the
      session before the first one rotated it. */
  lemma RedeemedTwiceOnlyByOverlap(cfg: Config, events: seq<Event>, i: nat, j: nat, jti: nat)
    requires i < j && Redeems(cfg, events, i, jti) && Redeems(cfg, events, j, jti)
    ensures PendingFor(At(cfg, events, i), events[j].req, jti) && events[j].req != events[i].req
  {
    var s := At(cfg, events, i);
    RunReal(cfg, START, events[..i]);
    RotateKills(cfg, s, events[i].req);
    var t := Step(cfg, s, events[i]);
    StepReal(cfg, s, events[i]);
    var rest := events[i + 1..j];
    assert events[..j][..i + 1] == events[..i + 1] && events[..j][i + 1..] == rest && events[..i + 1][..i] == events[..i];
    RunSplits(cfg, START, events[..j], i + 1);
    PendingBack(cfg, t, rest, events[j].req, jti);
  }

  /** So where refreshes of one token do not overlap it is redeemed once at most. */
  lemma RedeemedOnce(cfg: Config, events: seq<Event>, i: nat, j: nat, jti: nat)
    requires Redeems(cfg, events, i, jti) && Redeems(cfg, events, j, jti)
    requires forall k: nat, req | k < |events| && PendingFor(At(cfg, events, k), req, jti)
               :: Redeems(cfg, events, k, jti) ==> req == events[k].req
    ensures i == j
  {
    if i < j {
      RedeemedTwiceOnlyByOverlap(cfg, events, i, j, jti);
    } else if j < i {
      RedeemedTwiceOnlyByOverlap(cfg, events, j, i, jti);
    }
  }

  /** And overlap does happen: two requests that both read the session both get a pair. */
  lemma OverlapRedeemsTwice(cfg: Config, s: State, jti: nat, a: nat, b: nat)
    requires Honoured(s, jti) && s.tokens[jti].kind == Refresh && !StillSuspended(s, s.tokens[jti].user)
    requires a != b && a !in s.pending && b !in s.pending
    ensures var s2 := ReadSession(cfg, ReadSession(cfg, s, a, jti), b, jti);
            var s3 := Rotate(cfg, s2, a);
            PendingFor(s2, a, jti) && PendingFor(s3, b, jti) && |Rotate(cfg, s3, b).tokens| == |s.tokens| + 4
  {
  }

  lemma AtNext(cfg: Config, events: seq<Event>, i: nat)
    requires i < |events|
    ensures At(cfg, events, i + 1) == Step(cfg, At(cfg, events, i), events[i])
  {
    assert events[..i + 1][..i] == events[..i];
  }

  function TwoRefreshes(u: User): seq<Event>
  {
    [Login(u), StartRefresh(0, 1), StartRefresh(1, 1), FinishRefresh(0), FinishRefresh(1)]
  }

  /** A run from the start in which one refresh token is redeemed twice. */
  lemma OneTokenTwoPairs(cfg: Config, u: User)
    requires cfg.refreshTtl > 0
    ensures Redeems(cfg, TwoRefreshes(u), 3, 1) && Redeems(cfg, TwoRefreshes(u), 4, 1)
  {
    var es := TwoRefreshes(u);
    assert es[..0] == [];
    AtNext(cfg, es, 0);
    AtNext(cfg, es, 1);
    AtNext(cfg, es, 2);
    AtNext(cfg, es, 3);
    var s := IssuePair(cfg, START, u);
    assert At(cfg, es, 1) == s;
    OverlapRedeemsTwice(cfg, s, 1, 0, 1);
  }

  // ---------------------------------------------------------------- how many sessions are live

  function LiveRefresh(s: State, u: User): set<nat>
  {
    set jti: nat | jti < |s.tokens| && Honoured(s, jti) && s.tokens[jti].user == u && s.tokens[jti].kind == Refresh
  }

  /** After a login both new tokens are honoured, as the user's, and every older one as before. */
  lemma LoginHonours(cfg: Config, s: State, u: User, k: nat)
    requires RealTokens(s) && k < |s.tokens| + 2
    ensures var t := Step(cfg, s, Login(u)); var n := |s.tokens|;
            && |t.tokens| == n + 2 && t.now == s.now
            && (k < n ==> t.tokens[k] == s.tokens[k] && (Honoured(t, k) <==> Honoured(s, k)))
            && (k == n ==> t.tokens[k] == Token(u, Access, s.now + cfg.accessTtl) && (Honoured(t, k) <==> cfg.accessTtl > 0))
            && (k == n + 1 ==> t.tokens[k] == Token(u, Refresh, s.now + cfg.refreshTtl) && (Honoured(t, k) <==> cfg.refreshTtl > 0))
  {
  }

  /** And after a rotation, the one traded in excepted. */
  lemma RotateHonours(cfg: Config, s: State, req: nat, k: nat)
    requires RealTokens(s) && req in s.pending && k < |s.tokens| + 2
    ensures var t := Step(cfg, s, FinishRefresh(req)); var n, u := |s.tokens|, s.tokens[s.pending[req]].user;
            && |t.tokens| == n + 2 && t.now == s.now
            && (k < n ==> t.tokens[k] == s.tokens[k] && (Honoured(t, k) <==> k != s.pending[req] && Honoured(s, k)))
            && (k == n ==> t.tokens[k] == Token(u, Access, s.now + cfg.accessTtl) && (Honoured(t, k) <==> cfg.accessTtl > 0))
            && (k == n + 1 ==> t.tokens[k] == Token(u, Refresh, s.now + cfg.refreshTtl) && (Honoured(t, k) <==> cfg.refreshTtl > 0))
  {
    var jti := s.pending[req];
    var v := Revoke(s.(pending := s.pending - {req}), Key(s.tokens[jti].user, jti), cfg.refreshTtl);
    assert s.tokens[jti] in s.tokens;
    LoginHonours(cfg, v, s.tokens[jti].user, k);
    if k < |s.tokens| {
      assert Honoured(v, k) <==> k != jti && Honoured(s, k);
    }
  }

  lemma RotateTrades(cfg: Config, s: State, req: nat, u: User)
    requires RealTokens(s) && req in s.pending && cfg.refreshTtl > 0
    ensures LiveRefresh(Rotate(cfg, s, req), u)
            == LiveRefresh(s, u) - {s.pending[req]} + if u == s.tokens[s.pending[req]].user then {|s.tokens| + 1} else {}
  {
    var t := Rotate(cfg, s, req);
    var n := |s.tokens|;
    RotateHonours(cfg, s, req, n);
    RotateHonours(cfg, s, req, n + 1);
    forall k: nat ensures k in LiveRefresh(t, u) <==>
        k in LiveRefresh(s, u) - {s.pending[req]} || (u == s.tokens[s.pending[req]].user && k == n + 1)
    {
      if k < n {
        RotateHonours(cfg, s, req, k);
      }
    }
  }

  /** A refresh trades one live refresh session for another; when the old one has died since it was
      read, by an overlapping refresh or a logout, the user has one more than before. Nobody else is
      affected. */
  lemma RefreshKeepsCount(cfg: Config, s: State, req: nat, u: User)
    requires RealTokens(s) && req in s.pending && cfg.refreshTtl > 0
    ensures var t := Rotate(cfg, s, req); var jti := s.pending[req];
            |LiveRefresh(t, u)| == |LiveRefresh(s, u)| + if u == s.tokens[jti].user && !Honoured(s, jti) then 1 else 0
    ensures u != s.tokens[s.pending[req]].user ==> LiveRefresh(Rotate(cfg, s, req), u) == LiveRefresh(s, u)
  {
    var jti := s.pending[req];
    var live := LiveRefresh(s, u);
    RotateTrades(cfg, s, req, u);
    assert |s.tokens| + 1 !in live;
    if jti in live {
      assert |live - {jti}| == |live| - 1;
      assert |live - {jti} + {|s.tokens| + 1}| == |live|;
    } else {
      assert live - {jti} == live;
    }
  }

  // ---------------------------------------------------------------- how long a token lasts

  /** A key that is not revoked lasts exactly as long as its token. */
  ghost predicate InStep(s: State)
  {
    forall k | k in s.sessions && k.jti < |s.tokens| && s.tokens[k.jti].user == k.user ::
      s.sessions[k].value != Revoked ==> s.sessions[k].expires == s.tokens[k.jti].expires
  }

  lemma StepInStep(cfg: Config, s: State, e: Event)
    requires RealTokens(s) && InStep(s)
    ensures InStep(Step(cfg, s, e))
  {
    var t := Step(cfg, s, e);
    StepKeepsTokens(cfg, s, e);
    forall k | k in t.sessions && k.jti < |t.tokens| && t.tokens[k.jti].user == k.user
      ensures t.sessions[k].value != Revoked ==> t.sessions[k].expires == t.tokens[k.jti].expires
    {
      if k.jti < |s.tokens| {
        OldKeys(cfg, s, e, k);
      }
    }
  }

  lemma {:induction false} RunInStep(cfg: Config, s: State, events: seq<Event>)
    requires RealTokens(s) && InStep(s)
    ensures InStep(Run(cfg, s, events))
  {
    if events != [] {
      var n := |events| - 1;
      RunInStep(cfg, s, events[..n]);
      RunReal(cfg, s, events[..n]);
      StepInStep(cfg, Run(cfg, s, events[..n]), events[n]);
    }
  }

  /** What can end a token before its time: a logout with it, a mode switch if it is an access token, its
      rotation, an attempt to refresh with it while its user is suspended, and the kick-out of its user. */
  predicate Ends(s: State, e: Event, jti: nat)
    requires jti < |s.tokens|
  {
    var u, kind := s.tokens[jti].user, s.tokens[jti].kind;
    match e
    case LogOut(access, refresh) =>
      && Honoured(s, access) && s.tokens[access].kind == Access
      && (access == jti || (refresh == Some(jti) && kind == Refresh && s.tokens[access].user == u))
    case SwitchMode(v, allowed) => v == u && allowed && kind == Access
    case FinishRefresh(req) => PendingFor(s, req, jti)
    case StartRefresh(req, j) => j == jti && req !in s.pending && kind == Refresh && Suspended(s, u)
    case KickOut(v) => v == u
    case _ => false
  }

  /** For ever, or until a time still to come. */
  predicate Suspended(s: State, u: User)
  {
    u in s.suspended && (s.suspended[u].Some? ==> s.now < s.suspended[u].value)
  }

  lemma LogoutEnds(cfg: Config, s: State, access: nat, refresh: Option<nat>, jti: nat)
    requires Honoured(s, jti)
    ensures Honoured(Logout(cfg, s, access, refresh), jti) <==> !Ends(s, LogOut(access, refresh), jti)
  {
  }

  lemma RefreshEnds(cfg: Config, s: State, e: Event, jti: nat)
    requires RealTokens(s) && Honoured(s, jti) && (e.StartRefresh? || e.FinishRefresh?)
    ensures Honoured(Step(cfg, s, e), jti) <==> !Ends(s, e, jti)
  {
    if e.FinishRefresh? && e.req in s.pending {
      RotateHonours(cfg, s, e.req, jti);
    }
  }

  lemma StepHonours(cfg: Config, s: State, e: Event, jti: nat)
    requires RealTokens(s) && InStep(s) && Honoured(s, jti)
    ensures Honoured(Step(cfg, s, e), jti) <==> Step(cfg, s, e).now < s.tokens[jti].expires && !Ends(s, e, jti)
  {
    match e
    case Tick(d) =>
    case Login(u) => LoginHonours(cfg, s, u, jti);
    case LogOut(access, refresh) => LogoutEnds(cfg, s, access, refresh, jti);
    case SwitchMode(u, allowed) => SwitchModeDrops(s, u, jti);
    case KickOut(u) => KickOutDrops(s, u, jti);
    case Suspend(u, until) =>
    case _ => RefreshEnds(cfg, s, e, jti);
  }

  predicate EndedAt(cfg: Config, s: State, events: seq<Event>, i: nat, jti: nat)
  {
    i < |events| && jti < |Run(cfg, s, events[..i]).tokens| && Ends(Run(cfg, s, events[..i]), events[i], jti)
  }

  ghost predicate NeverEnded(cfg: Config, s: State, events: seq<Event>, jti: nat)
  {
    forall i: nat :: !EndedAt(cfg, s, events, i, jti)
  }

  lemma EndedBefore(cfg: Config, s: State, events: seq<Event>, n: nat, i: nat, jti: nat)
    requires i < n <= |events|
    ensures EndedAt(cfg, s, events[..n], i, jti) <==> EndedAt(cfg, s, events, i, jti)
  {
    assert events[..n][..i] == events[..i];
  }

  lemma EndedNext(cfg: Config, s: State, events: seq<Event>, n: nat, jti: nat)
    requires |events| == n + 1
    ensures NeverEnded(cfg, s, events, jti) <==> NeverEnded(cfg, s, events[..n], jti) && !EndedAt(cfg, s, events, n, jti)
  {
    forall i: nat | i < n ensures EndedAt(cfg, s, events[..n], i, jti) <==> EndedAt(cfg, s, events, i, jti) {
      EndedBefore(cfg, s, events, n, i, jti);
    }
  }

  /** In every run a token stays honoured for exactly as long as it has not run out and nothing has ended
      it. */
  lemma {:induction false} HonouredUntil(cfg: Config, s: State, events: seq<Event>, jti: nat)
    requires RealTokens(s) && InStep(s) && Honoured(s, jti)
    ensures Honoured(Run(cfg, s, events), jti) <==>
            Run(cfg, s, events).now < s.tokens[jti].expires && NeverEnded(cfg, s, events, jti)
  {
    if events != [] {
      var n := |events| - 1;
      var t := Run(cfg, s, events[..n]);
      HonouredUntil(cfg, s, events[..n], jti);
      RunReal(cfg, s, events[..n]);
      RunInStep(cfg, s, events[..n]);
      EndedNext(cfg, s, events, n, jti);
      assert t.tokens[jti] == s.tokens[jti];
      StepKeepsTokens(cfg, t, events[n]);
      if Honoured(t, jti) {
        StepHonours(cfg, t, events[n], jti);
      } else {
        assert s.tokens[jti] in s.tokens;
        StepNeverRevives(cfg, t, events[n], jti);
      }
    }
  }

  /** So for every run from the start: a token that a login or a refresh has just issued is honoured at any
      later time, unless it has run out or has been ended. */
  lemma NewTokensLast(cfg: Config, before: seq<Event>, e: Event, after: seq<Event>, jti: nat)
    requires cfg.accessTtl > 0 && cfg.refreshTtl > 0
    requires e.Login? || (e.FinishRefresh? && e.req in Run(cfg, START, before).pending)
    requires var n := |Run(cfg, START, before).tokens|; jti == n || jti == n + 1
    ensures var s := Step(cfg, Run(cfg, START, before), e); var t := Run(cfg, s, after);
            && RealTokens(s) && jti < |s.tokens|
            && (Honoured(t, jti) <==> t.now < s.tokens[jti].expires && NeverEnded(cfg, s, after, jti))
  {
    var r := Run(cfg, START, before);
    RunReal(cfg, START, before);
    RunInStep(cfg, START, before);
    StepReal(cfg, r, e);
    StepInStep(cfg, r, e);
    if e.Login? {
      LoginHonours(cfg, r, e.user, jti);
    } else {
      RotateHonours(cfg, r, e.req, jti);
    }
    HonouredUntil(cfg, Step(cfg, r, e), after, jti);
  }

  // ---------------------------------------------------------------- suspensions

  /** The suspension as it was set, or lifted after its end. */
  predicate BanHolds(s: State, u: User, until: Option<int>)
  {
    if u in s.suspended then s.suspended[u] == until else until.Some? && until.value <= s.now
  }

  lemma {:induction false} BanStays(cfg: Config, s: State, u: User, until: Option<int>, events: seq<Event>)
    requires BanHolds(s, u, until) && forall e <- events :: !(e.Suspend? && e.user == u)
    ensures BanHolds(Run(cfg, s, events), u, until)
  {
    if events != [] {
      var n := |events| - 1;
      assert events[n] in events && forall e | e in events[..n] :: e in events;
      BanStays(cfg, s, u, until, events[..n]);
      StepKeepsTokens(cfg, Run(cfg, s, events[..n]), events[n]);
    }
  }

  /** Whatever happens after a suspension, until another one of the same user: his refresh goes through
      exactly when the ban has an end and that has passed, and the token is good; before that the attempt
      costs him the token. */
  lemma SuspendedGetsNoPair(cfg: Config, s: State, u: User, until: Option<int>, events: seq<Event>, req: nat, jti: nat)
    requires forall e <- events :: !(e.Suspend? && e.user == u)
    requires var t := Run(cfg, Step(cfg, s, Suspend(u, until)), events);
             jti < |t.tokens| && t.tokens[jti].user == u && t.tokens[jti].kind == Refresh && req !in t.pending
    ensures var t := Run(cfg, Step(cfg, s, Suspend(u, until)), events); var v := Step(cfg, t, StartRefresh(req, jti));
            && (req in v.pending <==> Honoured(t, jti) && until.Some? && until.value <= t.now)
            && (Honoured(v, jti) <==> Honoured(t, jti) && until.Some? && until.value <= t.now)
            && (req in v.pending ==> v.pending[req] == jti && u !in v.suspended)
  {
    BanStays(cfg, Step(cfg, s, Suspend(u, until)), u, until, events);
  }

  // ---------------------------------------------------------------- mode switch and logout

  /** Switching mode refuses every access token the user has, touches no other token, and so leaves
      the set of honoured refresh tokens as it was. */
  lemma SwitchModeDrops(s: State, u: User, jti: nat)
    requires jti < |s.tokens|
    ensures var t := DropAccess(s, u);
            Honoured(t, jti) <==> Honoured(s, jti) && !(s.tokens[jti].user == u && s.tokens[jti].kind == Access)
  {
    var k := Key(s.tokens[jti].user, jti);
    var t := DropAccess(s, u);
    assert k in t.sessions <==> k in s.sessions && !Dropped(s, u, k);
  }

  lemma SwitchModeKeepsRefresh(s: State, u: User, v: User)
    ensures LiveRefresh(DropAccess(s, u), v) == LiveRefresh(s, v)
  {
    forall jti: nat | jti < |s.tokens| ensures s.tokens[jti].kind == Refresh ==> (Honoured(DropAccess(s, u), jti) <==> Honoured(s, jti)) {
      SwitchModeDrops(s, u, jti);
    }
  }

  /** And for good: no access token issued to the user before the switch is honoured at any time
      after it, whatever happens in between. */
  lemma SwitchModeForGood(cfg: Config, s: State, u: User, events: seq<Event>, jti: nat)
    requires RealTokens(s) && jti < |s.tokens| && s.tokens[jti].user == u && s.tokens[jti].kind == Access
    ensures !Honoured(Run(cfg, Step(cfg, s, SwitchMode(u, true)), events), jti)
  {
    SwitchModeDrops(s, u, jti);
    StepReal(cfg, s, SwitchMode(u, true));
    NeverRevived(cfg, DropAccess(s, u), events, jti);
  }

  /** A logout ends the access token it came with, and the refresh token handed in if it is the same
      user's, for good. */
  lemma LogoutForGood(cfg: Config, s: State, access: nat, refresh: nat, events: seq<Event>)
    requires RealTokens(s) && Honoured(s, access) && s.tokens[access].kind == Access
    requires refresh < |s.tokens| && s.tokens[refresh].kind == Refresh
    ensures var t := Run(cfg, Step(cfg, s, LogOut(access, Some(refresh))), events);
            && !Honoured(t, access)
            && (s.tokens[refresh].user == s.tokens[access].user ==> !Honoured(t, refresh))
  {
    var t := Step(cfg, s, LogOut(access, Some(refresh)));
    StepReal(cfg, s, LogOut(access, Some(refresh)));
    NeverRevived(cfg, t, events, access);
    if s.tokens[refresh].user == s.tokens[access].user {
      assert !Honoured(t, refresh);
      NeverRevived(cfg, t, events, refresh);
    }
  }

  /** Deleting all of a user's keys refuses every token he has, for good, and nobody else's. */
  lemma KickOutDrops(s: State, u: User, jti: nat)
    requires jti < |s.tokens|
    ensures Honoured(DropAll(s, u), jti) <==> Honoured(s, jti) && s.tokens[jti].user != u
  {
    var k := Key(s.tokens[jti].user, jti);
    assert k in DropAll(s, u).sessions <==> k in s.sessions && k.user != u;
  }

  lemma KickOutForGood(cfg: Config, s: State, u: User, events: seq<Event>, jti: nat)
    requires RealTokens(s) && jti < |s.tokens| && s.tokens[jti].user == u
    ensures !Honoured(Run(cfg, Step(cfg, s, KickOut(u)), events), jti)
  {
    KickOutDrops(s, u, jti);
    StepReal(cfg, s, KickOut(u));
    NeverRevived(cfg, Step(cfg, s, KickOut(u)), events, jti);
  }

  /** But a refresh that had read its session before gets its new pair after: he is in again, banned or
      not. */
  lemma RefreshOutlivesKickOut(cfg: Config, s: State, u: User, req: nat)
    requires RealTokens(s) && req in s.pending && s.tokens[s.pending[req]].user == u && cfg.refreshTtl > 0
    ensures var t := Step(cfg, Step(cfg, s, KickOut(u)), FinishRefresh(req));
            && |t.tokens| == |s.tokens| + 2
            && t.tokens[|s.tokens| + 1].user == u && Honoured(t, |s.tokens| + 1)
  {
    RotateHonours(cfg, DropAll(s, u), req, |s.tokens| + 1);
  }

  // ---------------------------------------------------------------- the store

  class Store {
    const cfg: Config
    var now: int
    var sessions: map<Key, Session>
    var tokens: seq<Token>
    var pending: map<nat, nat>
    var suspended: map<User, Option<int>>

    function Now(): State
      reads this
    {
      State(now, sessions, tokens, pending, suspended)
    }

    constructor (cfg: Config)
      ensures this.cfg == cfg && Now() == START
    {
      this.cfg := cfg;
      now, sessions, tokens, pending, suspended := 0, map[], [], map[], map[];
    }

    method IssueTokenPair(u: User) returns (access: nat, refresh: nat)
      modifies this
      ensures Now() == IssuePair(cfg, old(Now()), u)
      ensures access == |old(tokens)| && refresh == access + 1
    {
      access, refresh := |tokens|, |tokens| + 1;
      tokens := tokens + [Token(u, Access, now + cfg.accessTtl), Token(u, Refresh, now + cfg.refreshTtl)];
      sessions := sessions[Key(u, refresh) := Session(Refresh, now + cfg.refreshTtl)];
      sessions := sessions[Key(u, access) := Session(Access, now + cfg.accessTtl)];
    }

    /** `ok` says that the request may go on to rotate. */
    method CheckRefresh(req: nat, jti: nat) returns (ok: bool)
      requires req !in pending
      modifies this
      ensures Now() == ReadSession(cfg, old(Now()), req, jti)
      ensures ok == PendingFor(Now(), req, jti)
    {
      if jti >= |tokens| || tokens[jti].kind != Refresh || now >= tokens[jti].expires {
        return false;
      }
      var u := tokens[jti].user;
      var key := Key(u, jti);
      if key !in sessions || now >= sessions[key].expires || sessions[key].value != Refresh {
        return false;
      }
      if u in suspended && (suspended[u] == None || suspended[u].value > now) {
        sessions := sessions[key := Session(Revoked, now + cfg.refreshTtl)];
        return false;
      }
      suspended := suspended - {u};
      pending := pending[req := jti];
      return true;
    }

    method RotateSession(req: nat) returns (access: nat, refresh: nat)
      requires req in pending && pending[req] < |tokens|
      modifies this
      ensures Now() == Rotate(cfg, old(Now()), req)
    {
      var jti := pending[req];
      var u := tokens[jti].user;
      pending := pending - {req};
      sessions := sessions[Key(u, jti) := Session(Revoked, now + cfg.refreshTtl)];
      access, refresh := IssueTokenPair(u);
    }

    method LogoutUser(access: nat, refresh: Option<nat>)
      requires Honoured(Now(), access) && tokens[access].kind == Access
      modifies this
      ensures Now() == Logout(cfg, old(Now()), access, refresh)
    {
      var u := tokens[access].user;
      sessions := sessions[Key(u, access) := Session(Revoked, now + cfg.accessTtl)];
      if refresh.Some? {
        var r := refresh.value;
        if r < |tokens| && now < tokens[r].expires && tokens[r].kind == Refresh && tokens[r].user == u {
          sessions := sessions[Key(u, r) := Session(Revoked, now + cfg.refreshTtl)];
        }
      }
    }

    /** `scan` is the key iterator: it yields every key of the user, perhaps more than once. */
    method RevokeAccessSessionsOnly(u: User, scan: seq<Key>)
      requires forall k | k in sessions && k.user == u :: k in scan
      requires forall k <- scan :: k.user == u
      modifies this
      ensures Now() == DropAccess(old(Now()), u)
    {
      for i := 0 to |scan|
        invariant Now() == old(Now()).(sessions := sessions)
        invariant sessions == map k | k in old(sessions) && !(Dropped(old(Now()), u, k) && k in scan[..i]) :: old(sessions)[k]
      {
        var key := scan[i];
        assert scan[..i + 1] == scan[..i] + [key];
        if key in sessions && now < sessions[key].expires && sessions[key].value == Access {
          sessions := sessions - {key};
        }
      }
      assert scan[..|scan|] == scan;
    }

    /** Here every key of the user that the iterator yields is deleted. */
    method RevokeUserSessions(u: User, scan: seq<Key>)
      requires forall k | k in sessions && k.user == u :: k in scan
      requires forall k <- scan :: k.user == u
      modifies this
      ensures Now() == DropAll(old(Now()), u)
    {
      for i := 0 to |scan|
        invariant Now() == old(Now()).(sessions := sessions)
        invariant sessions == map k | k in old(sessions) && k !in scan[..i] :: old(sessions)[k]
      {
        assert scan[..i + 1] == scan[..i] + [scan[i]];
        sessions := sessions - {scan[i]};
      }
      assert scan[..|scan|] == scan;
    }
  }
}
