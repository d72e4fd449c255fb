/** What the step machine guarantees, read off the handlers' own stores. */
module Safety {
  import opened Wrappers
  import opened Types
  import opened Engine
  import opened Auth
  import opened Sessions
  import opened Tools
  import opened Play
  import Capability
  import Consent
  import Routes
  import TrustWindows

  /** Whenever no handler is running: a token in the store has roots exactly if it has a
      file-system scope, a session in the store has exactly the roots of its opening token and the
      scopes of that token that the registry knows, and every tool that ran did so within the
      opening token's rights and with the consent its label names. That the log's dialogs carry the
      user's own answers is what `RunChat` says with `Play.PlayFrom`. */
  lemma StoresAreSafe(app: Routes.AppState)
    requires app.Valid()
    ensures forall t :: t in app.tokens.inner ==>
      (app.tokens.inner[t].fsRoots != [] <==> WantsFs(app.tokens.inner[t].scopes))
    ensures forall sid :: sid in app.sessions.inner ==>
      && sid in app.state.openers && app.state.openers[sid] in app.tokens.inner
      && app.sessions.inner[sid].granted == Grant(app.tokens.inner[app.state.openers[sid]].scopes)
      && app.sessions.inner[sid].fsRoots == app.tokens.inner[app.state.openers[sid]].fsRoots
    ensures forall i :: 0 <= i < |app.state.log| ==> Capability.RanWithin(app.cfg, app.state, app.state.log[i])
    ensures forall i :: 0 <= i < |app.state.log| ==> Consent.RanWithConsent(app.state.log, i)
  {
    var steps :| After(app.cfg, steps) == Some(app.state);
    Capability.NoEscalation(app.cfg, steps);
    Consent.ConsentHolds(app.cfg, steps);
  }

  // ---- A whole visit ------------------------------------------------------------------------------

  /** What a client sends, and what it meets: the user's answers to handshake and window, how long the
      latter takes, and fresh names. */
  datatype Visit = Visit(
    token: string, requested: seq<Scope>, rawRoots: seq<string>, grant: bool,
    sid: Uuid, provider: string, model: string,
    window: WindowRequest, allow: bool, windowMs: nat, wid: Uuid,
    user: seq<ChatMessage>, planOnly: bool, world: World)

  /** A mutating tool ran outside plan-only chats, and the user said yes to this very use of it or to a
      window that names it. */
  predicate Agreed(v: Visit, e: Event) {
    e.Ran? ==>
      && Find(e.tool).Some?
      && (Find(e.tool).value.mutates ==>
            && !v.planOnly
            && ((e.via == Dialog && v.world.dialog(e.turn, e.index))
                || (e.via == TrustWindow && v.allow && v.window.sid == e.sid && e.tool in v.window.tools)))
  }

  /** The windows are those of the visit: none, or the one the user allowed. */
  ghost predicate OnlyWindow(v: Visit, windows: TrustWindows.Store) {
    forall id :: id in windows ==>
      v.allow && windows[id].sessionId == v.window.sid && windows[id].tools == v.window.tools
  }

  lemma TrueIsAgreed(g: Setting, c: nat, v: Visit, events: seq<Event>)
    requires AllTrue(g, c, events) && g.world == v.world && g.planOnly == v.planOnly && OnlyWindow(v, g.windows)
    ensures forall i :: 0 <= i < |events| ==> Agreed(v, events[i])
  {
    forall i | 0 <= i < |events| ensures Agreed(v, events[i]) {
      assert True(g, c, events[i]);
    }
  }

  /** Nobody has chatted, nothing was spent, no tool ran, and the windows are those of the visit. */
  ghost predicate Untroubled(app: Routes.AppState, v: Visit)
    reads app, app.tokens, app.sessions, app.cost, app.windows
  {
    && app.Valid() && app.state.chats == map[] && app.cost.today == map[]
    && OnlyWindow(v, app.windows.inner)
    && forall i :: 0 <= i < |app.state.log| ==> !app.state.log[i].Ran?
  }

  /** The visit's session is open, with its provider and no messages. */
  ghost predicate Entered(app: Routes.AppState, v: Visit)
    reads app, app.sessions
  {
    && app.sessions.inner.Keys == {v.sid}
    && app.sessions.inner[v.sid].provider == v.provider && app.sessions.inner[v.sid].messages == []
  }

  /** The token is good until the hour is over. */
  ghost predicate GoodForAnHour(app: Routes.AppState, v: Visit)
    reads app, app.tokens
  {
    && v.token in app.tokens.inner && AiProviderCall in app.tokens.inner[v.token].scopes
    && app.tokens.inner[v.token].expiresMs == 3_600_000
  }

  /** The client gets as far as the chat: the handshake is granted, for chats too, and the user does not
      think about the window until the token has expired. */
  predicate Comes(cfg: Config, v: Visit) {
    && AiProviderCall in v.requested && Handshake(cfg.fs, v.requested, v.rawRoots, v.grant).Ok?
    && (v.window.sid == v.sid ==> v.windowMs < 3_600_000)
  }

  /** A new launcher, the handshake and the session. */
  method Enter(cfg: Config, v: Visit) returns (app: Routes.AppState, ok: bool)
    ensures fresh(app) && fresh(app.tokens) && fresh(app.sessions) && fresh(app.cost) && fresh(app.windows)
    ensures Untroubled(app, v) && app.cfg == cfg && app.state.windows == map[] && app.clockMs == 0
    ensures ok ==> Entered(app, v) && GoodForAnHour(app, v)
    ensures ok <==> AiProviderCall in v.requested && Handshake(cfg.fs, v.requested, v.rawRoots, v.grant).Ok?
  {
    app := new Routes.AppState(cfg);
    var shaken := app.Handshake(v.token, v.requested, v.rawRoots, v.grant);
    if shaken.Err? || AiProviderCall !in v.requested {
      return app, false;
    }
    var session := app.OpenSession(v.token, v.sid, v.provider, v.model);
    return app, true;
  }

  /** The trust window, and whether the token is still good when the user has answered. */
  method AskForWindow(app: Routes.AppState, v: Visit) returns (ok: bool)
    requires Untroubled(app, v) && Entered(app, v) && GoodForAnHour(app, v)
    requires app.clockMs == 0 && v.wid !in app.state.windows
    modifies app, app.windows
    ensures Untroubled(app, v) && Entered(app, v) && ok == Authorized(app.state, v.token)
    ensures ok <==> (v.window.sid == v.sid ==> v.windowMs < 3_600_000)
  {
    var win := app.OpenTrustWindow(v.token, v.window, v.allow, v.windowMs, v.wid);
    ok := Lookup(app.tokens.inner, v.token, app.clockMs).Ok?;
  }

  method Chat(app: Routes.AppState, v: Visit) returns (answer: Result<Reply, ApiError>)
    requires Untroubled(app, v) && Entered(app, v) && Authorized(app.state, v.token)
    modifies app, app.sessions, app.cost
    ensures app.Valid() && forall i :: 0 <= i < |app.state.log| ==> Agreed(v, app.state.log[i])
    ensures v.provider in app.cfg.providers ==>
      exists lists :: Talk(v.world, lists, 1, answer) && lists[0] == v.user
    ensures v.provider !in app.cfg.providers ==> answer == Err(AiProviderUnconfigured)
  {
    ghost var session, log, file, start := app.sessions.inner[v.sid], app.state.log, app.cost.file, app.clockMs;
    Admitted(app.cfg, app.sessions.inner, v.sid);
    answer := app.RunChat(0, v.token, v.sid, v.user, v.planOnly, v.world);
    ghost var g := Setup(app.cfg, app.windows.inner, session, v.planOnly, v.world);
    assert session.messages + v.user == v.user;
    PlayedWell(g, v, Start(session, v.user, file, map[], start), log);
  }

  lemma Admitted(cfg: Config, sessions: Store, sid: Uuid)
    requires sid in sessions
    ensures Admission(cfg, sessions, map[], sid)
         == if sessions[sid].provider in cfg.providers then Ok(sessions[sid]) else Err(AiProviderUnconfigured)
  {
  }

  lemma PlayedWell(g: Setting, v: Visit, p: Progress, log: seq<Event>)
    requires g.world == v.world && g.planOnly == v.planOnly && OnlyWindow(v, g.windows) && p.events == []
    requires p.history == v.user
    requires forall i :: 0 <= i < |log| ==> !log[i].Ran?
    ensures var q := PlayFrom(g, 0, p, 1);
      && q.answer.Some? && (exists lists :: Talk(v.world, lists, 1, q.answer.value) && lists[0] == v.user)
      && forall i :: 0 <= i < |log + q.events| ==> Agreed(v, (log + q.events)[i])
  {
    var lists := AnswerIsThatOfTheLastTurn(g, 0, p);
    TrueIsAgreed(g, 0, v, PlayFrom(g, 0, p, 1).events);
  }

  /** A client that shakes hands, opens a session and a trust window and chats, on a fresh launcher. If
      it comes as far as the chat, the answer is that of the chat's last turn, and no tool has changed
      anything without the user's own yes. */
  method RunVisit(cfg: Config, v: Visit) returns (app: Routes.AppState, answer: Option<Result<Reply, ApiError>>)
    ensures app.Valid() && app.cfg == cfg && (answer.Some? <==> Comes(cfg, v))
    ensures forall i :: 0 <= i < |app.state.log| ==> Agreed(v, app.state.log[i])
    ensures answer.Some? && v.provider in cfg.providers ==>
      exists lists :: Talk(v.world, lists, 1, answer.value) && lists[0] == v.user
    ensures answer.Some? && v.provider !in cfg.providers ==> answer.value == Err(AiProviderUnconfigured)
  {
    var ok;
    app, ok := Enter(cfg, v);
    if ok {
      ok := AskForWindow(app, v);
    }
    if !ok {
      return app, None;
    }
    var r := Chat(app, v);
    return app, Some(r);
  }
}
