/** Trust windows: "these tools, for this session, until then". */
module TrustWindows {
  import opened Types

  const MAX_DURATION_SECS: nat := 3600

  datatype Window = Window(id: Uuid, sessionId: Uuid, tools: seq<string>, expiresMs: nat) {
    predicate Covers(tool: string, nowMs: nat) {
      nowMs < expiresMs && tool in tools
    }
  }

  type Store = map<Uuid, Window>

  function Bounded(secs: nat): nat {
    if secs <= MAX_DURATION_SECS then secs else MAX_DURATION_SECS
  }

  function NewWindow(id: Uuid, sessionId: Uuid, tools: seq<string>, secs: nat, nowMs: nat): Window {
    Window(id, sessionId, tools, nowMs + Bounded(secs) * 1000)
  }

  predicate Covered(inner: Store, sessionId: Uuid, tool: string, nowMs: nat) {
    exists id :: id in inner && inner[id].sessionId == sessionId && inner[id].Covers(tool, nowMs)
  }

  function WithoutSession(inner: Store, sessionId: Uuid): Store {
    map id | id in inner && inner[id].sessionId != sessionId :: inner[id]
  }

  class TrustWindowStore {
    var inner: Store

    constructor ()
      ensures inner == map[]
    {
      inner := map[];
    }

    /** `id` is a fresh random identifier. */
    method Open(id: Uuid, sessionId: Uuid, tools: seq<string>, secs: nat, nowMs: nat) returns (win: Window)
      modifies this
      ensures win == NewWindow(id, sessionId, tools, secs, nowMs)
      ensures inner == old(inner)[id := win]
    {
      var bounded := if secs <= MAX_DURATION_SECS then secs else MAX_DURATION_SECS;
      win := Window(id, sessionId, tools, nowMs + bounded * 1000);
      inner := inner[id := win];
    }

    method Covers(sessionId: Uuid, tool: string, nowMs: nat) returns (covered: bool)
      ensures covered == Covered(inner, sessionId, tool, nowMs)
    {
      var rest := inner.Keys;
      while rest != {}
        invariant rest <= inner.Keys
        invariant forall id :: id in inner && id !in rest ==>
          !(inner[id].sessionId == sessionId && inner[id].Covers(tool, nowMs))
        decreases |rest|
      {
        var id :| id in rest;
        if inner[id].sessionId == sessionId && inner[id].Covers(tool, nowMs) {
          return true;
        }
        rest := rest - {id};
      }
      return false;
    }

    method RevokeSession(sessionId: Uuid)
      modifies this
      ensures inner == WithoutSession(old(inner), sessionId)
    {
      inner := map id | id in inner && inner[id].sessionId != sessionId :: inner[id];
    }

    method Revoke(id: Uuid)
      modifies this
      ensures inner == old(inner) - {id}
    {
      inner := inner - {id};
    }
  }

  // ---- The store against its event log ------------------------------------------------------

  datatype Event =
    | Opened(id: Uuid, sessionId: Uuid, tools: seq<string>, secs: nat, atMs: nat)
    | RevokedOne(id: Uuid)
    | RevokedSession(sessionId: Uuid)

  function StoreAfter(log: seq<Event>): Store {
    if log == [] then map[]
    else
      var inner := StoreAfter(log[..|log| - 1]);
      match log[|log| - 1]
      case Opened(id, s, tools, secs, at) => inner[id := NewWindow(id, s, tools, secs, at)]
      case RevokedOne(id) => inner - {id}
      case RevokedSession(s) => WithoutSession(inner, s)
  }

  ghost predicate FreshIds(log: seq<Event>) {
    forall i, j :: 0 <= i < j < |log| && log[i].Opened? && log[j].Opened? ==> log[i].id != log[j].id
  }

  predicate Revokes(e: Event, id: Uuid, sessionId: Uuid) {
    || (e.RevokedOne? && e.id == id)
    || (e.RevokedSession? && e.sessionId == sessionId)
  }

  /** Event `i` opened a window that nothing revoked since. */
  predicate Live(log: seq<Event>, i: int) {
    0 <= i < |log| && log[i].Opened? &&
    forall j :: i < j < |log| ==> !Revokes(log[j], log[i].id, log[i].sessionId)
  }

  function WindowOf(e: Event): Window
    requires e.Opened?
  {
    NewWindow(e.id, e.sessionId, e.tools, e.secs, e.atMs)
  }

  lemma {:induction false} StoreHoldsLiveWindows(log: seq<Event>, id: Uuid)
    requires FreshIds(log)
    ensures forall i :: Live(log, i) && log[i].id == id ==>
      id in StoreAfter(log) && StoreAfter(log)[id] == WindowOf(log[i])
    ensures id in StoreAfter(log) ==> exists i :: Live(log, i) && log[i].id == id
  {
    if log != [] {
      var n := |log| - 1;
      var before, last := log[..n], log[n];
      StoreHoldsLiveWindows(before, id);
      forall i | Live(log, i) && log[i].id == id
        ensures id in StoreAfter(log) && StoreAfter(log)[id] == WindowOf(log[i])
      {
        if i < n {
          assert before[i] == log[i];
          assert Live(before, i) by {
            assert forall j :: i < j < n ==> before[j] == log[j];
          }
          assert !Revokes(log[n], log[i].id, log[i].sessionId);
        }
      }
      if id in StoreAfter(log) {
        if last.Opened? && last.id == id {
          assert Live(log, n);
        } else {
          var i :| Live(before, i) && before[i].id == id;
          assert log[i] == before[i];
          assert !Revokes(last, id, log[i].sessionId);
          assert Live(log, i) by {
            forall j | i < j < |log| ensures !Revokes(log[j], log[i].id, log[i].sessionId) {
              if j < n {
                assert before[j] == log[j];
              }
            }
          }
        }
      }
    }
  }

  /** `covers` answers yes exactly when some approved opening for that session lists the tool, its
      time (at most an hour) has not run out, and neither it nor its session was revoked since. */
  lemma CoversIffLiveOpening(log: seq<Event>, sessionId: Uuid, tool: string, nowMs: nat)
    requires FreshIds(log)
    ensures Covered(StoreAfter(log), sessionId, tool, nowMs) <==>
      exists i :: Live(log, i) && log[i].sessionId == sessionId && tool in log[i].tools
        && nowMs < log[i].atMs + 1000 * (if log[i].secs < 3600 then log[i].secs else 3600)
  {
    var inner := StoreAfter(log);
    if Covered(inner, sessionId, tool, nowMs) {
      var id :| id in inner && inner[id].sessionId == sessionId && inner[id].Covers(tool, nowMs);
      StoreHoldsLiveWindows(log, id);
      var i :| Live(log, i) && log[i].id == id;
      assert inner[id] == WindowOf(log[i]);
    }
    forall i | Live(log, i) && log[i].sessionId == sessionId && tool in log[i].tools
        && nowMs < log[i].atMs + 1000 * (if log[i].secs < 3600 then log[i].secs else 3600)
      ensures Covered(inner, sessionId, tool, nowMs)
    {
      StoreHoldsLiveWindows(log, log[i].id);
      assert inner[log[i].id].Covers(tool, nowMs);
    }
  }

  /** Revoking a session silences that session and nobody else. */
  lemma RevocationIsLocal(inner: Store, revoked: Uuid, sessionId: Uuid, tool: string, nowMs: nat)
    ensures Covered(WithoutSession(inner, revoked), sessionId, tool, nowMs)
        <==> sessionId != revoked && Covered(inner, sessionId, tool, nowMs)
  {
    var after := WithoutSession(inner, revoked);
    if sessionId != revoked && Covered(inner, sessionId, tool, nowMs) {
      var id :| id in inner && inner[id].sessionId == sessionId && inner[id].Covers(tool, nowMs);
      assert id in after;
    }
  }
}
