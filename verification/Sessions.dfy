/** AI sessions: the scope intersection made at open time and the stored transcript. */
module Sessions {
  import opened Wrappers
  import opened Types
  import opened FsRead
  import opened Tools

  datatype Session = Session(
    id: Uuid,
    provider: string,
    model: string,
    granted: seq<Scope>,
    fsRoots: seq<Path>,
    messages: seq<ChatMessage>,
    openedMs: nat)

  type Store = map<Uuid, Session>

  // ---- The intersection -----------------------------------------------------------------------

  /** The alphabetical position of a scope's debug name, which is the sort key. */
  function Rank(s: Scope): nat {
    match s
    case AiCodegenWrite => 0
    case AiExecPython => 1
    case AiProviderCall => 2
    case BundleRead => 3
    case BundleWrite => 4
    case ExcelCom => 5
    case FsRead => 6
    case FsWrite => 7
    case RunPython => 8
  }

  /** The registry's required scopes, in registry order, that the user holds. */
  function Held(tools: seq<ToolSpec>, user: seq<Scope>): seq<Scope> {
    if tools == [] then []
    else if tools[0].requiredScope in user then [tools[0].requiredScope] + Held(tools[1..], user)
    else Held(tools[1..], user)
  }

  function Insert(s: Scope, sorted: seq<Scope>): seq<Scope> {
    if sorted == [] || Rank(s) <= Rank(sorted[0]) then [s] + sorted else [sorted[0]] + Insert(s, sorted[1..])
  }

  function SortByRank(scopes: seq<Scope>): seq<Scope> {
    if scopes == [] then [] else Insert(scopes[0], SortByRank(scopes[1..]))
  }

  /** Drops an element equal to the one before it. */
  function Dedup(scopes: seq<Scope>): seq<Scope> {
    if |scopes| <= 1 then scopes
    else if scopes[0] == scopes[1] then Dedup(scopes[1..])
    else [scopes[0]] + Dedup(scopes[1..])
  }

  function Grant(user: seq<Scope>): seq<Scope> {
    Dedup(SortByRank(Held(BUILTIN_TOOLS, user)))
  }

  ghost predicate Ascending(scopes: seq<Scope>, strictly: bool) {
    scopes == [] ||
    (Ascending(scopes[1..], strictly) &&
     forall x :: x in scopes[1..] ==> if strictly then Rank(scopes[0]) < Rank(x) else Rank(scopes[0]) <= Rank(x))
  }

  lemma {:induction false} HeldIffBoth(tools: seq<ToolSpec>, user: seq<Scope>, s: Scope)
    ensures s in Held(tools, user) <==> s in user && exists i :: 0 <= i < |tools| && tools[i].requiredScope == s
  {
    if tools != [] {
      HeldIffBoth(tools[1..], user, s);
      assert tools == [tools[0]] + tools[1..];
      if exists i :: 0 <= i < |tools[1..]| && tools[1..][i].requiredScope == s {
        var i :| 0 <= i < |tools[1..]| && tools[1..][i].requiredScope == s;
        assert tools[i + 1].requiredScope == s;
      }
      if exists i :: 1 <= i < |tools| && tools[i].requiredScope == s {
        var i :| 1 <= i < |tools| && tools[i].requiredScope == s;
        assert tools[1..][i - 1].requiredScope == s;
      }
    }
  }

  lemma {:induction false} InsertSorted(s: Scope, sorted: seq<Scope>)
    requires Ascending(sorted, false)
    ensures Ascending(Insert(s, sorted), false)
    ensures forall x :: x in Insert(s, sorted) <==> x == s || x in sorted
  {
    if sorted == [] || Rank(s) <= Rank(sorted[0]) {
      assert Insert(s, sorted)[1..] == sorted;
    } else {
      InsertSorted(s, sorted[1..]);
      assert Insert(s, sorted)[1..] == Insert(s, sorted[1..]);
    }
  }

  lemma {:induction false} SortSorts(scopes: seq<Scope>)
    ensures Ascending(SortByRank(scopes), false)
    ensures forall x :: x in SortByRank(scopes) <==> x in scopes
  {
    if scopes != [] {
      SortSorts(scopes[1..]);
      InsertSorted(scopes[0], SortByRank(scopes[1..]));
      assert scopes == [scopes[0]] + scopes[1..];
    }
  }

  lemma {:induction false} DedupOfSorted(scopes: seq<Scope>)
    requires Ascending(scopes, false)
    ensures Ascending(Dedup(scopes), true)
    ensures forall x :: x in Dedup(scopes) <==> x in scopes
  {
    if |scopes| > 1 {
      DedupOfSorted(scopes[1..]);
      if scopes[0] != scopes[1] {
        assert Rank(scopes[0]) < Rank(scopes[1]);
        assert Dedup(scopes)[1..] == Dedup(scopes[1..]);
      }
    }
  }

  lemma {:induction false} StrictHasNoDuplicates(scopes: seq<Scope>, i: nat, j: nat)
    requires Ascending(scopes, true) && i < j < |scopes|
    ensures scopes[i] != scopes[j]
  {
    if i == 0 {
      assert scopes[1..][j - 1] == scopes[j];
      assert scopes[j] in scopes[1..];
    } else {
      StrictHasNoDuplicates(scopes[1..], i - 1, j - 1);
    }
  }

  /** A session's scopes are the duplicate-free intersection of the opening token's scopes with
      the scopes the registry requires. */
  lemma GrantIsIntersection(user: seq<Scope>)
    ensures forall i, j :: 0 <= i < j < |Grant(user)| ==> Grant(user)[i] != Grant(user)[j]
    ensures forall s :: s in Grant(user) <==>
      s in user && exists i :: 0 <= i < |BUILTIN_TOOLS| && BUILTIN_TOOLS[i].requiredScope == s
  {
    var held := Held(BUILTIN_TOOLS, user);
    SortSorts(held);
    DedupOfSorted(SortByRank(held));
    forall i, j | 0 <= i < j < |Grant(user)| ensures Grant(user)[i] != Grant(user)[j] {
      StrictHasNoDuplicates(Grant(user), i, j);
    }
    forall s
      ensures s in held <==> s in user && exists i :: 0 <= i < |BUILTIN_TOOLS| && BUILTIN_TOOLS[i].requiredScope == s
    {
      HeldIffBoth(BUILTIN_TOOLS, user, s);
    }
  }

  // ---- The store ------------------------------------------------------------------------------

  function NewSession(id: Uuid, provider: string, model: string, granted: seq<Scope>, fsRoots: seq<Path>,
                      nowMs: nat): Session
  {
    Session(id, provider, model, granted, fsRoots, [], nowMs)
  }

  function Extended(inner: Store, id: Uuid, more: seq<ChatMessage>): Store
    requires id in inner
  {
    inner[id := inner[id].(messages := inner[id].messages + more)]
  }

  class SessionStore {
    var inner: Store

    constructor ()
      ensures inner == map[]
    {
      inner := map[];
    }

    /** `id` is a fresh random identifier. */
    method Open(id: Uuid, provider: string, model: string, granted: seq<Scope>, fsRoots: seq<Path>, nowMs: nat)
      returns (session: Session)
      modifies this
      ensures session == NewSession(id, provider, model, granted, fsRoots, nowMs)
      ensures inner == old(inner)[id := session]
    {
      session := Session(id, provider, model, granted, fsRoots, [], nowMs);
      inner := inner[id := session];
    }

    method Get(id: Uuid) returns (r: Result<Session, ApiError>)
      ensures r == if id in inner then Ok(inner[id]) else Err(AiSessionNotFound)
    {
      if id in inner {
        return Ok(inner[id]);
      }
      return Err(AiSessionNotFound);
    }

    method AppendMessages(id: Uuid, more: seq<ChatMessage>) returns (r: Result<(), ApiError>)
      modifies this
      ensures r.Ok? <==> id in old(inner)
      ensures inner == if id in old(inner) then Extended(old(inner), id, more) else old(inner)
    {
      if id !in inner {
        return Err(AiSessionNotFound);
      }
      var session := inner[id];
      inner := inner[id := session.(messages := session.messages + more)];
      return Ok(());
    }
  }
}
