/** Two short runs that show what transcripts do not promise: a request body may bring along approval
    labels that no tool run stands behind, and a chat may be handed another chat's tool uses before
    they are answered. */
module Witness {
  import opened Wrappers
  import opened Types
  import opened Engine
  import Cost

  const TOKEN := "t"

  /** A token that may chat, session 0 with a provider that is there, and nothing spent. */
  ghost predicate Scene(cfg: Config, s: State) {
    && Reachable(cfg, s) && Authorized(s, TOKEN) && s.rows == map[]
    && 0 in s.sessions && s.sessions[0].provider in cfg.providers
  }

  lemma Opens(cfg: Config, provider: string) returns (s: State)
    requires provider in cfg.providers
    ensures Scene(cfg, s) && s.chats == map[] && s.log == [] && s.sessions[0].messages == []
  {
    assert After(cfg, []) == Some(INIT);
    var first := DoHandshake(TOKEN, [AiProviderCall], [], true);
    s := Apply(cfg, INIT, first);
    OneStepFurther(cfg, INIT, first);
    var second := OpenSession(TOKEN, 0, provider, "");
    OneStepFurther(cfg, s, second);
    s := Apply(cfg, s, second);
  }

  /** Chat `c` and its list, and what it said. */
  ghost predicate Said(s: State, t: State, c: nat, more: seq<ChatMessage>) {
    && 0 in s.sessions && 0 in t.sessions && t.sessions[0].messages == s.sessions[0].messages + more
    && c in t.chats && t.chats[c].sid == 0 && t.chats[c].history == t.sessions[0].messages
    && t.chats.Keys == s.chats.Keys + {c} && (forall d :: d in s.chats && d != c ==> t.chats[d] == s.chats[d])
    && t.log == s.log
  }

  /** A new chat goes as far as its first question. */
  lemma Joins(cfg: Config, s: State, c: nat, user: seq<ChatMessage>) returns (t: State)
    requires Scene(cfg, s) && c !in s.chats
    ensures Scene(cfg, t) && Said(s, t, c, user) && t.chats[c].phase == Ready && t.chats[c].user == user
    ensures t.chats[c].mark == Some(|t.sessions[0].messages|)
  {
    var step := Admit(c, TOKEN, 0, user, false);
    assert !Cost.Over(s.rows, cfg.cap);
    OneStepFurther(cfg, s, step);
    t := Moves(cfg, Apply(cfg, s, step), c, Get);
    t := Moves(cfg, t, c, StoreUser);
    t := Moves(cfg, t, c, Snapshot);
  }

  lemma Moves(cfg: Config, s: State, c: nat, move: Move) returns (t: State)
    requires Scene(cfg, s) && c in s.chats && MoveEnabled(s.chats[c], move) && !move.Record?
    ensures Scene(cfg, t) && t == Apply(cfg, s, Advance(c, move))
  {
    OneStepFurther(cfg, s, Advance(c, move));
    t := Apply(cfg, s, Advance(c, move));
  }

  /** Whatever a request body contains is stored as it is: for every list of messages, with any labels,
      there is a run after which a transcript is that list, and no user has been asked and no tool has
      run. */
  lemma ForgedLabelRun(cfg: Config, provider: string, user: seq<ChatMessage>) returns (steps: seq<Step>)
    requires provider in cfg.providers
    ensures After(cfg, steps).Some?
    ensures var s := After(cfg, steps).value; 0 in s.sessions && s.sessions[0].messages == user && s.log == []
  {
    var s := Opens(cfg, provider);
    var t := Joins(cfg, s, 0, user);
    steps :| After(cfg, steps) == Some(t);
  }

  const ASK: ChatMessage := ChatMessage(Assistant, None, [ToolUse("", "", Null)])

  /** The provider asks chat `c` for a tool. */
  lemma Asks(cfg: Config, s: State, c: nat) returns (t: State)
    requires Scene(cfg, s) && c in s.chats && s.chats[c].phase == Ready && s.chats[c].sid == 0
    requires s.chats[c].history == s.sessions[0].messages
    ensures Scene(cfg, t) && Said(s, t, c, [ASK]) && t.chats[c].phase.Recording?
  {
    t := Moves(cfg, s, c, Provider(Ok(ProviderTurn(ASK, EndTurn, Cost.Usage(0, 0)))));
  }

  /** Two chats share a session, the second joins between the first one's turn and its tool message: the
      list it sends to the provider ends in a tool use without an answer. Neither chat was dropped. */
  lemma UnansweredRun(cfg: Config, provider: string) returns (steps: seq<Step>)
    requires provider in cfg.providers
    ensures After(cfg, steps).Some?
    ensures var s := After(cfg, steps).value;
      && 1 in s.chats && s.chats[1].phase == Ready && s.chats[1].history == [ASK]
      && forall c :: c in s.chats ==> !s.chats[c].phase.Finished?
    ensures ToolUses(ASK.content) != []
  {
    var s := Opens(cfg, provider);
    assert s.chats.Keys == {};
    var t := Joins(cfg, s, 0, []);
    var u := Asks(cfg, t, 0);
    var v := Joins(cfg, u, 1, []);
    steps :| After(cfg, steps) == Some(v);
  }
}
