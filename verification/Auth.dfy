/** Bearer tokens and the handshake that mints them. */
module Auth {
  import opened Wrappers
  import opened Types
  import opened FsRead

  const TOKEN_TTL_MS: nat := 3600 * 1000

  datatype TokenRecord = TokenRecord(scopes: seq<Scope>, fsRoots: seq<Path>, createdMs: nat, expiresMs: nat)

  type Tokens = map<string, TokenRecord>

  function NewRecord(scopes: seq<Scope>, fsRoots: seq<Path>, nowMs: nat): TokenRecord {
    TokenRecord(scopes, fsRoots, nowMs, nowMs + TOKEN_TTL_MS)
  }

  function Lookup(inner: Tokens, token: string, nowMs: nat): Result<TokenRecord, ApiError> {
    if token !in inner || nowMs >= inner[token].expiresMs then Err(Unauthorized) else Ok(inner[token])
  }

  class TokenStore {
    var inner: Tokens

    constructor ()
      ensures inner == map[]
    {
      inner := map[];
    }

    /** `token` is a fresh 256-bit random value in hexadecimal. */
    method Issue(token: string, scopes: seq<Scope>, fsRoots: seq<Path>, nowMs: nat) returns (record: TokenRecord)
      modifies this
      ensures record == NewRecord(scopes, fsRoots, nowMs)
      ensures inner == old(inner)[token := record]
    {
      record := TokenRecord(scopes, fsRoots, nowMs, nowMs + TOKEN_TTL_MS);
      inner := inner[token := record];
    }
  }

  datatype Issued = Issued(token: string, scopes: seq<Scope>, fsRoots: seq<Path>, atMs: nat)

  function TokensAfter(issues: seq<Issued>): Tokens {
    if issues == [] then map[]
    else
      var last := issues[|issues| - 1];
      TokensAfter(issues[..|issues| - 1])[last.token := NewRecord(last.scopes, last.fsRoots, last.atMs)]
  }

  ghost predicate FreshTokens(issues: seq<Issued>) {
    forall i, j :: 0 <= i < j < |issues| ==> issues[i].token != issues[j].token
  }

  /** The token was issued with the rights `record` names, and its hour is not over. */
  predicate InItsHour(issue: Issued, token: string, nowMs: nat) {
    issue.token == token && nowMs < issue.atMs + 3_600_000
  }

  /** After any run of issues a lookup succeeds exactly for a token that was issued less than an hour
      ago, and returns the rights it was issued with. */
  lemma {:induction false} LookupIffIssuedWithinTheHour(issues: seq<Issued>, token: string, nowMs: nat)
    requires FreshTokens(issues)
    ensures Lookup(TokensAfter(issues), token, nowMs).Ok?
      <==> exists i :: 0 <= i < |issues| && InItsHour(issues[i], token, nowMs)
    ensures forall i :: 0 <= i < |issues| && InItsHour(issues[i], token, nowMs) ==>
      Lookup(TokensAfter(issues), token, nowMs) == Ok(NewRecord(issues[i].scopes, issues[i].fsRoots, issues[i].atMs))
  {
    if issues != [] {
      var n := |issues| - 1;
      LookupIffIssuedWithinTheHour(issues[..n], token, nowMs);
      if issues[n].token == token {
        assert InItsHour(issues[n], token, nowMs) <==> Lookup(TokensAfter(issues), token, nowMs).Ok?;
      } else {
        assert Lookup(TokensAfter(issues), token, nowMs) == Lookup(TokensAfter(issues[..n]), token, nowMs);
        forall i | 0 <= i < |issues|
          ensures InItsHour(issues[i], token, nowMs) ==> i < n && issues[..n][i] == issues[i]
        {
        }
      }
    }
  }

  predicate IsFsScope(s: Scope) {
    s == FsRead || s == FsWrite
  }

  predicate WantsFs(scopes: seq<Scope>) {
    exists i :: 0 <= i < |scopes| && IsFsScope(scopes[i])
  }

  /** The grant a handshake makes, or why it makes none. `approved` is the user's answer; it is
      only asked for when some scope is requested. No scope is reserved any more. */
  function Handshake(fs: FileSystem, requested: seq<Scope>, rawRoots: seq<string>, approved: bool)
    : Result<(seq<Scope>, seq<Path>), ApiError>
  {
    var roots := if WantsFs(requested) then CanonicalizeRoots(fs, rawRoots) else [];
    if WantsFs(requested) && roots == [] then Err(BadRequest)
    else if requested != [] && !approved then Err(ConsentDenied)
    else Ok((requested, roots))
  }

  /** A token carries file-system roots if and only if it carries a file-system scope, and every
      root is a directory the caller named. */
  lemma RootsIffFsScope(fs: FileSystem, requested: seq<Scope>, rawRoots: seq<string>, approved: bool)
    requires Handshake(fs, requested, rawRoots, approved).Ok?
    ensures var (scopes, roots) := Handshake(fs, requested, rawRoots, approved).value;
      && (roots != [] <==> WantsFs(scopes))
      && (requested != [] ==> approved)
      && forall i :: 0 <= i < |roots| ==>
           IsDir(fs, roots[i]) && exists j :: 0 <= j < |rawRoots| && Canonicalize(fs, rawRoots[j]) == Some(roots[i])
  {
    var (scopes, roots) := Handshake(fs, requested, rawRoots, approved).value;
    forall i | 0 <= i < |roots|
      ensures IsDir(fs, roots[i]) && exists j :: 0 <= j < |rawRoots| && Canonicalize(fs, rawRoots[j]) == Some(roots[i])
    {
      RootsAreRequestedDirs(fs, rawRoots, roots[i]);
    }
  }

  /** The raw root resolves to a directory. */
  predicate Usable(fs: FileSystem, raw: string) {
    raw in fs.canonical && fs.canonical[raw] in fs.nodes && fs.nodes[fs.canonical[raw]].Dir?
  }

  /** When a handshake is granted, and what it grants: exactly the scopes that were asked for, and with a
      file-system scope among them exactly the directories that the raw roots resolve to. */
  lemma HandshakeIff(fs: FileSystem, requested: seq<Scope>, rawRoots: seq<string>, approved: bool)
    ensures var h := Handshake(fs, requested, rawRoots, approved);
      var wantsFs := FsRead in requested || FsWrite in requested;
      var rooted := wantsFs ==> exists j :: 0 <= j < |rawRoots| && Usable(fs, rawRoots[j]);
      && (h.Ok? <==> rooted && (requested != [] ==> approved))
      && (h == Err(BadRequest) <==> !rooted)
      && (h == Err(ConsentDenied) <==> rooted && requested != [] && !approved)
      && (h.Ok? ==>
            && h.value.0 == requested
            && (forall p :: p in h.value.1 <==>
                  && wantsFs
                  && exists j :: 0 <= j < |rawRoots| && Usable(fs, rawRoots[j]) && fs.canonical[rawRoots[j]] == p))
  {
    assert WantsFs(requested) <==> FsRead in requested || FsWrite in requested;
    var roots := CanonicalizeRoots(fs, rawRoots);
    forall p ensures p in roots <==>
      exists j :: 0 <= j < |rawRoots| && Usable(fs, rawRoots[j]) && fs.canonical[rawRoots[j]] == p
    {
      RootsAreRequestedDirs(fs, rawRoots, p);
      if j :| 0 <= j < |rawRoots| && Usable(fs, rawRoots[j]) && fs.canonical[rawRoots[j]] == p {
        assert Canonicalize(fs, rawRoots[j]) == Some(p) && IsDir(fs, p);
      }
    }
    if roots != [] {
      assert roots[0] in roots;
    }
    if j :| 0 <= j < |rawRoots| && Usable(fs, rawRoots[j]) {
      assert fs.canonical[rawRoots[j]] in roots;
    }
  }
}
