/** Where rights come from, over whole runs: every token is what an approved handshake asked for, every AI
    route was called with such a token in its hour, and every tool that ran was asked for there. */
module Grants {
  import opened Wrappers
  import opened Types
  import opened FsRead
  import opened Auth
  import opened Tools
  import opened Engine
  import Capability

  /** The step, made in `s`, is a handshake the user approved, if it asks for anything, and the record holds
      exactly what it asked for, for an hour from then. */
  ghost predicate Grants(cfg: Config, s: State, step: Step, token: string, record: TokenRecord) {
    && step.DoHandshake? && step.token == token && (step.requested == [] || step.approved)
    && record.scopes == step.requested
    && (forall p :: p in record.fsRoots <==>
          && (FsRead in step.requested || FsWrite in step.requested)
          && exists j :: 0 <= j < |step.rawRoots| && Usable(cfg.fs, step.rawRoots[j])
               && cfg.fs.canonical[step.rawRoots[j]] == p)
    && record.createdMs == s.nowMs && record.expiresMs == s.nowMs + 3_600_000
  }

  /** Step `i` of the run granted the token. */
  ghost predicate GrantedBy(cfg: Config, steps: seq<Step>, i: nat, token: string, record: TokenRecord) {
    i < |steps| && After(cfg, steps[..i]).Some? && Grants(cfg, After(cfg, steps[..i]).value, steps[i], token, record)
  }

  lemma {:induction false} PrefixRuns(cfg: Config, steps: seq<Step>, i: nat)
    requires After(cfg, steps).Some? && i <= |steps|
    ensures After(cfg, steps[..i]).Some?
  {
    if i == |steps| {
      assert steps[..i] == steps;
    } else {
      PrefixRuns(cfg, steps[..|steps| - 1], i);
      assert steps[..|steps| - 1][..i] == steps[..i];
    }
  }

  lemma StillGranted(cfg: Config, steps: seq<Step>, n: nat, i: nat, token: string, record: TokenRecord)
    requires n <= |steps| && GrantedBy(cfg, steps[..n], i, token, record)
    ensures GrantedBy(cfg, steps, i, token, record)
  {
    assert steps[..n][..i] == steps[..i];
  }

  lemma HandshakeGrants(cfg: Config, s: State, step: Step)
    requires step.DoHandshake?
    ensures var t := HandshakeStep(cfg, s, step.token, step.requested, step.rawRoots, step.approved);
      var rooted := FsRead in step.requested || FsWrite in step.requested ==>
        exists j :: 0 <= j < |step.rawRoots| && Usable(cfg.fs, step.rawRoots[j]);
      if rooted && (step.requested == [] || step.approved) then
        && t.tokens.Keys == s.tokens.Keys + {step.token}
        && t.tokens == s.tokens[step.token := t.tokens[step.token]]
        && Grants(cfg, s, step, step.token, t.tokens[step.token])
      else t.tokens == s.tokens
  {
    HandshakeIff(cfg.fs, step.requested, step.rawRoots, step.approved);
  }

  lemma OthersGrantNothing(cfg: Config, s: State, step: Step)
    requires Enabled(s, step) && !step.DoHandshake?
    ensures Apply(cfg, s, step).tokens == s.tokens
  {
  }

  /** Every token in the store was granted by a step of the run. */
  lemma {:induction false} TokensAreGrants(cfg: Config, steps: seq<Step>, token: string)
    requires After(cfg, steps).Some?
    ensures var s := After(cfg, steps).value;
      token in s.tokens ==> exists i :: GrantedBy(cfg, steps, i, token, s.tokens[token])
  {
    if steps != [] {
      var n := |steps| - 1;
      var before, s := After(cfg, steps[..n]).value, After(cfg, steps).value;
      TokensAreGrants(cfg, steps[..n], token);
      if steps[n].DoHandshake? {
        HandshakeGrants(cfg, before, steps[n]);
      } else {
        OthersGrantNothing(cfg, before, steps[n]);
      }
      if token in before.tokens {
        var i :| GrantedBy(cfg, steps[..n], i, token, before.tokens[token]);
        StillGranted(cfg, steps, n, i, token, before.tokens[token]);
      } else if token in s.tokens {
        assert GrantedBy(cfg, steps, n, token, s.tokens[token]);
      }
    }
  }

  /** And every handshake that is granted leaves its token there for good. */
  lemma {:induction false} GrantsStay(cfg: Config, steps: seq<Step>, i: nat)
    requires After(cfg, steps).Some? && i < |steps| && steps[i].DoHandshake?
    requires steps[i].requested == [] || steps[i].approved
    requires FsRead in steps[i].requested || FsWrite in steps[i].requested ==>
      exists j :: 0 <= j < |steps[i].rawRoots| && Usable(cfg.fs, steps[i].rawRoots[j])
    ensures var s := After(cfg, steps).value;
      steps[i].token in s.tokens && GrantedBy(cfg, steps, i, steps[i].token, s.tokens[steps[i].token])
  {
    var n, token := |steps| - 1, steps[i].token;
    var before := After(cfg, steps[..n]).value;
    if steps[n].DoHandshake? {
      HandshakeGrants(cfg, before, steps[n]);
    } else {
      OthersGrantNothing(cfg, before, steps[n]);
    }
    if i < n {
      GrantsStay(cfg, steps[..n], i);
      StillGranted(cfg, steps, n, i, token, before.tokens[token]);
    }
  }

  // ---- Who calls the AI routes --------------------------------------------------------------------------

  /** The token a step of an AI route is called with. */
  function BearerOf(step: Step): Option<string> {
    match step
    case OpenSession(bearer, _, _, _) => Some(bearer)
    case AskWindow(bearer, _, _) => Some(bearer)
    case Admit(_, bearer, _, _, _) => Some(bearer)
    case _ => None
  }

  /** Whoever opens a session, asks for a window or chats does so within an hour of a handshake that asked
      for `ai:provider:call` and that the user approved. */
  lemma CallersWereGranted(cfg: Config, steps: seq<Step>, i: nat) returns (j: nat, record: TokenRecord)
    requires After(cfg, steps).Some? && i < |steps| && BearerOf(steps[i]).Some?
    ensures j < i && GrantedBy(cfg, steps, j, BearerOf(steps[i]).value, record)
    ensures AiProviderCall in steps[j].requested && steps[j].approved
    ensures After(cfg, steps[..i]).Some? && After(cfg, steps[..i]).value.nowMs < record.createdMs + 3_600_000
  {
    PrefixRuns(cfg, steps, i);
    PrefixRuns(cfg, steps, i + 1);
    assert steps[..i + 1][..i] == steps[..i];
    var s, bearer := After(cfg, steps[..i]).value, BearerOf(steps[i]).value;
    assert Enabled(s, steps[i]) && Authorized(s, bearer);
    TokensAreGrants(cfg, steps[..i], bearer);
    record := s.tokens[bearer];
    j :| GrantedBy(cfg, steps[..i], j, bearer, record);
    StillGranted(cfg, steps, i, j, bearer, record);
    assert steps[..i][j] == steps[j];
  }

  // ---- What the tools may do ----------------------------------------------------------------------------

  function ScopeOf(tool: string): Option<Scope> {
    if tool == "fs_read" then Some(FsRead)
    else if tool == "excel_workbooks" || tool == "excel_range_read" then Some(ExcelCom)
    else if tool == "run_python" then Some(AiExecPython)
    else None
  }

  /** Every tool that ran is one of the four, and its scope was asked for in the approved handshake of the
      token that opened its session; any file it gave lies under a directory that handshake named. */
  lemma ToolsWereAskedFor(cfg: Config, steps: seq<Step>, k: nat) returns (i: nat, record: TokenRecord)
    requires After(cfg, steps).Some? && k < |After(cfg, steps).value.log| && After(cfg, steps).value.log[k].Ran?
    ensures var e := After(cfg, steps).value.log[k];
      && ScopeOf(e.tool).Some?
      && e.sid in After(cfg, steps).value.openers
      && GrantedBy(cfg, steps, i, After(cfg, steps).value.openers[e.sid], record) && steps[i].approved
      && ScopeOf(e.tool).value in steps[i].requested
      && (e.file.Some? ==>
            exists j :: 0 <= j < |steps[i].rawRoots| && Usable(cfg.fs, steps[i].rawRoots[j])
              && cfg.fs.canonical[steps[i].rawRoots[j]] <= e.file.value.canonical)
  {
    var s := After(cfg, steps).value;
    var e := s.log[k];
    Capability.ToolRanWithinOpenersRights(cfg, steps, k);
    RegistryIs(e.tool);
    var token := s.openers[e.sid];
    TokensAreGrants(cfg, steps, token);
    record := s.tokens[token];
    i :| GrantedBy(cfg, steps, i, token, record);
    if e.file.Some? {
      var r :| 0 <= r < |record.fsRoots| && Under(e.file.value.canonical, record.fsRoots[r]);
      assert record.fsRoots[r] in record.fsRoots;
    }
  }
}
