/** The per-key sliding-window limiter.
    Instants are integers counting nanoseconds. `now` is an argument because the source reads
    the clock before it takes the lock: the stamps of consecutive calls may arrive out of order. */
module RateLimit {

  const WINDOW: int := 1_000_000_000
  const RATE_LIMIT_PER_SEC: nat := 100

  /** The trimmed deque: the run of stale stamps at its front is gone, nothing else is. */
  function Trim(bucket: seq<int>, cutoff: int): seq<int> {
    if bucket != [] && bucket[0] < cutoff then Trim(bucket[1..], cutoff) else bucket
  }

  lemma {:induction false} TrimSplits(bucket: seq<int>, cutoff: int) returns (stale: seq<int>)
    ensures bucket == stale + Trim(bucket, cutoff)
    ensures forall i :: 0 <= i < |stale| ==> stale[i] < cutoff
    ensures var live := Trim(bucket, cutoff); live != [] ==> cutoff <= live[0]
  {
    if bucket != [] && bucket[0] < cutoff {
      var rest := TrimSplits(bucket[1..], cutoff);
      stale := [bucket[0]] + rest;
    } else {
      stale := [];
    }
  }

  function Admits(bucket: seq<int>, now: int): bool {
    |Trim(bucket, now - WINDOW)| < RATE_LIMIT_PER_SEC
  }

  /** The deque one call leaves behind. A rejected call trims too. */
  function Advance(bucket: seq<int>, now: int): seq<int> {
    var live := Trim(bucket, now - WINDOW);
    if Admits(bucket, now) then live + [now] else live
  }

  function BucketOf(inner: map<string, seq<int>>, key: string): seq<int> {
    if key in inner then inner[key] else []
  }

  class RateLimiter {
    var inner: map<string, seq<int>>

    constructor ()
      ensures inner == map[]
    {
      inner := map[];
    }

    method Check(key: string, now: int) returns (ok: bool)
      modifies this
      ensures ok == Admits(BucketOf(old(inner), key), now)
      ensures inner == old(inner)[key := Advance(BucketOf(old(inner), key), now)]
    {
      var cutoff := now - WINDOW;
      var bucket := BucketOf(inner, key);
      while bucket != [] && bucket[0] < cutoff
        invariant Trim(bucket, cutoff) == Trim(BucketOf(inner, key), cutoff)
        decreases |bucket|
      {
        bucket := bucket[1..];
      }
      if |bucket| >= RATE_LIMIT_PER_SEC {
        inner := inner[key := bucket];
        return false;
      }
      inner := inner[key := bucket + [now]];
      return true;
    }
  }

  // ---- Runs of one bucket, in lock order --------------------------------------------------

  function BucketAfter(stamps: seq<int>): seq<int> {
    if stamps == [] then [] else Advance(BucketAfter(stamps[..|stamps| - 1]), stamps[|stamps| - 1])
  }

  /** Whether a call with stamp `now` is accepted after the calls `stamps`. */
  predicate AcceptedNext(stamps: seq<int>, now: int) {
    Admits(BucketAfter(stamps), now)
  }

  /** Every accepted stamp of the run, never trimmed: the full history. */
  function Accepted(stamps: seq<int>): seq<int> {
    if stamps == [] then []
    else
      var earlier, now := stamps[..|stamps| - 1], stamps[|stamps| - 1];
      if AcceptedNext(earlier, now) then Accepted(earlier) + [now] else Accepted(earlier)
  }

  /** How many stamps lie in the closed window [lo, hi]. */
  function CountIn(stamps: seq<int>, lo: int, hi: int): nat {
    if stamps == [] then 0
    else CountIn(stamps[..|stamps| - 1], lo, hi) + (if lo <= stamps[|stamps| - 1] <= hi then 1 else 0)
  }

  /** No call lags an earlier one by more than `d`. */
  ghost predicate LagAtMost(stamps: seq<int>, d: nat) {
    forall i, j :: 0 <= i < j < |stamps| ==> stamps[i] - d <= stamps[j]
  }

  lemma {:induction false} CountConcat(a: seq<int>, b: seq<int>, lo: int, hi: int)
    ensures CountIn(a + b, lo, hi) == CountIn(a, lo, hi) + CountIn(b, lo, hi)
  {
    if b == [] {
      assert a + b == a;
    } else {
      assert (a + b)[..|a + b| - 1] == a + b[..|b| - 1];
      CountConcat(a, b[..|b| - 1], lo, hi);
    }
  }

  lemma {:induction false} CountAtMostLength(a: seq<int>, lo: int, hi: int)
    ensures CountIn(a, lo, hi) <= |a|
    ensures CountIn(a, lo, hi) == |a| <==> forall i :: 0 <= i < |a| ==> lo <= a[i] <= hi
  {
    if a != [] {
      CountAtMostLength(a[..|a| - 1], lo, hi);
    }
  }

  lemma {:induction false} CountNone(a: seq<int>, lo: int, hi: int)
    requires forall i :: 0 <= i < |a| ==> !(lo <= a[i] <= hi)
    ensures CountIn(a, lo, hi) == 0
  {
    if a != [] {
      CountNone(a[..|a| - 1], lo, hi);
    }
  }

  /** The largest stamp seen so far, accepted or not. */
  function Newest(stamps: seq<int>): (r: int)
    requires stamps != []
    ensures exists j :: 0 <= j < |stamps| && r == stamps[j]
  {
    var earlier, now := stamps[..|stamps| - 1], stamps[|stamps| - 1];
    if earlier != [] && now < Newest(earlier) then Newest(earlier) else now
  }

  /** The pop rule, read off the whole run: the bucket is what is left of the accepted history
      once `gone` stamps left it, each older than one window before the newest stamp seen. */
  ghost predicate Popped(stamps: seq<int>, gone: seq<int>) {
    && Accepted(stamps) == gone + BucketAfter(stamps)
    && forall i :: 0 <= i < |gone| ==> stamps != [] && gone[i] < Newest(stamps) - WINDOW
  }

  lemma {:induction false} BucketIsSuffix(stamps: seq<int>) returns (gone: seq<int>)
    ensures Popped(stamps, gone)
    ensures |BucketAfter(stamps)| <= 100
  {
    if stamps == [] {
      gone := [];
    } else {
      var earlier, now := stamps[..|stamps| - 1], stamps[|stamps| - 1];
      var before := BucketIsSuffix(earlier);
      var stale := TrimSplits(BucketAfter(earlier), now - WINDOW);
      gone := before + stale;
      assert Accepted(earlier) == gone + Trim(BucketAfter(earlier), now - WINDOW);
    }
  }

  // ---- Out-of-order stamps ----------------------------------------------------------------

  lemma {:induction false} WindowHolds(stamps: seq<int>, d: nat, lo: int)
    requires LagAtMost(stamps, d)
    ensures CountIn(Accepted(stamps), lo, lo + WINDOW - d) <= RATE_LIMIT_PER_SEC
  {
    if stamps != [] {
      var earlier, now := stamps[..|stamps| - 1], stamps[|stamps| - 1];
      var hi := lo + WINDOW - d;
      WindowHolds(earlier, d, lo);
      if AcceptedNext(earlier, now) && lo <= now <= hi {
        var gone := BucketIsSuffix(stamps);
        NewestLag(stamps, d);
        WindowOfBucket(gone, BucketAfter(stamps), Newest(stamps), d, lo);
      }
    }
  }

  /** Whatever the interleaving, a closed window shorter than a second by the lag `d` never
      holds more than 100 accepted stamps. Rejected calls are part of the run. */
  lemma WindowBound(stamps: seq<int>, d: nat, lo: int)
    requires LagAtMost(stamps, d)
    ensures CountIn(Accepted(stamps), lo, lo + 1_000_000_000 - d) <= 100
  {
    WindowHolds(stamps, d, lo);
  }

  lemma NewestLag(stamps: seq<int>, d: nat)
    requires stamps != [] && LagAtMost(stamps, d)
    ensures Newest(stamps) <= stamps[|stamps| - 1] + d
  {
    var j :| 0 <= j < |stamps| && Newest(stamps) == stamps[j];
  }

  /** A window that reaches within `d` of the newest stamp only sees what is still in the bucket. */
  lemma WindowOfBucket(gone: seq<int>, bucket: seq<int>, newest: int, d: nat, lo: int)
    requires |bucket| <= RATE_LIMIT_PER_SEC
    requires forall i :: 0 <= i < |gone| ==> gone[i] < newest - WINDOW
    requires newest <= lo + WINDOW
    ensures CountIn(gone + bucket, lo, lo + WINDOW - d) <= RATE_LIMIT_PER_SEC
  {
    CountConcat(gone, bucket, lo, lo + WINDOW - d);
    CountNone(gone, lo, lo + WINDOW - d);
    CountAtMostLength(bucket, lo, lo + WINDOW - d);
  }

  lemma {:induction false} Burst(n: nat)
    requires n <= RATE_LIMIT_PER_SEC
    ensures BucketAfter(seq(n, _ => 0)) == Accepted(seq(n, _ => 0)) == seq(n, _ => 0)
  {
    if n > 0 {
      var s := seq(n, _ => 0);
      assert s[..n - 1] == seq(n - 1, _ => 0);
      Burst(n - 1);
      assert seq(n - 1, _ => 0) + [0] == s;
    }
  }

  lemma OneMoreCall(stamps: seq<int>, now: int)
    ensures BucketAfter(stamps + [now]) == Advance(BucketAfter(stamps), now)
    ensures Accepted(stamps + [now]) == Accepted(stamps) + (if AcceptedNext(stamps, now) then [now] else [])
  {
    assert (stamps + [now])[..|stamps + [now]| - 1] == stamps;
  }

  /** After a burst that was let through whole, a call that finds all of it stale empties the bucket,
      and so does not stop a call with an earlier stamp that comes after it. */
  lemma LateCallSlipsIn(burst: seq<int>, now: int, late: int)
    requires BucketAfter(burst) == Accepted(burst) == burst
    requires forall i :: 0 <= i < |burst| ==> burst[i] < now - WINDOW
    requires late - WINDOW <= now
    ensures Accepted(burst + [now] + [late]) == burst + [now] + [late]
  {
    OneMoreCall(burst, now);
    OneMoreCall(burst + [now], late);
    TrimAll(burst, now - WINDOW);
    assert BucketAfter(burst + [now]) == [now];
    assert Trim([now], late - WINDOW) == [now];
  }

  lemma CountsLate(burst: seq<int>, now: int, late: int, lo: int)
    requires lo <= late && forall i :: 0 <= i < |burst| ==> lo <= burst[i] <= late
    ensures CountIn(burst + [now] + [late], lo, late) >= |burst| + 1
  {
    CountConcat(burst + [now], [late], lo, late);
    CountConcat(burst, [now], lo, late);
    CountAtMostLength(burst, lo, late);
    assert [late][..0] == [];
  }

  /** The bound is exact: one nanosecond more and it fails, for every lag up to the window. */
  lemma WindowBoundIsTight(d: nat) returns (stamps: seq<int>)
    requires d <= 1_000_000_000
    ensures LagAtMost(stamps, d)
    ensures CountIn(Accepted(stamps), 0, 1_000_000_000 - d + 1) > 100
  {
    var n := RATE_LIMIT_PER_SEC;
    var burst := seq(n, _ => 0);
    Burst(n);
    stamps := burst + [WINDOW + 1] + [WINDOW + 1 - d];
    LateCallSlipsIn(burst, WINDOW + 1, WINDOW + 1 - d);
    CountsLate(burst, WINDOW + 1, WINDOW + 1 - d, 0);
  }

  lemma {:induction false} TrimAll(bucket: seq<int>, cutoff: int)
    requires forall i :: 0 <= i < |bucket| ==> bucket[i] < cutoff
    ensures Trim(bucket, cutoff) == []
  {
    if bucket != [] {
      TrimAll(bucket[1..], cutoff);
    }
  }

  // ---- In-order stamps: the deque is a perfect summary of the history ---------------------

  ghost predicate NonDecreasing(stamps: seq<int>) {
    forall i, j :: 0 <= i < j < |stamps| ==> stamps[i] <= stamps[j]
  }

  lemma {:induction false} AcceptedAreStamps(stamps: seq<int>)
    ensures forall i :: 0 <= i < |Accepted(stamps)| ==> Accepted(stamps)[i] in stamps
  {
    if stamps != [] {
      AcceptedAreStamps(stamps[..|stamps| - 1]);
    }
  }

  lemma {:induction false} AcceptedSorted(stamps: seq<int>)
    requires NonDecreasing(stamps)
    ensures NonDecreasing(Accepted(stamps))
  {
    if stamps != [] {
      var earlier := stamps[..|stamps| - 1];
      AcceptedSorted(earlier);
      AcceptedAreStamps(earlier);
    }
  }

  lemma DequeDecides(stamps: seq<int>, now: int)
    requires NonDecreasing(stamps + [now])
    ensures AcceptedNext(stamps, now) <==> CountIn(Accepted(stamps), now - WINDOW, now) < RATE_LIMIT_PER_SEC
    ensures NonDecreasing(BucketAfter(stamps)) && |BucketAfter(stamps)| <= RATE_LIMIT_PER_SEC
  {
    assert forall i :: 0 <= i < |stamps| ==> stamps[i] == (stamps + [now])[i] <= (stamps + [now])[|stamps|] == now;
    assert NonDecreasing(stamps) by {
      assert forall i :: 0 <= i < |stamps| ==> stamps[i] == (stamps + [now])[i];
    }
    AcceptedSorted(stamps);
    AcceptedAreStamps(stamps);
    var gone := BucketIsSuffix(stamps);
    var bucket := BucketAfter(stamps);
    SuffixSorted(gone, bucket);
    TrimCounts(bucket, now);
    CountConcat(gone, bucket, now - WINDOW, now);
    CountNone(gone, now - WINDOW, now);
  }

  /** With clock and lock in the same order, the trimmed deque decides exactly as the untrimmed
      history would; it also stays sorted and never exceeds the limit. */
  lemma RefinesFullHistory(stamps: seq<int>, now: int)
    requires NonDecreasing(stamps + [now])
    ensures AcceptedNext(stamps, now) <==> CountIn(Accepted(stamps), now - 1_000_000_000, now) < 100
    ensures NonDecreasing(BucketAfter(stamps)) && |BucketAfter(stamps)| <= 100
  {
    DequeDecides(stamps, now);
  }

  lemma SuffixSorted(a: seq<int>, b: seq<int>)
    requires NonDecreasing(a + b)
    ensures NonDecreasing(b)
    ensures forall i :: 0 <= i < |b| ==> b[i] in a + b
  {
    forall i | 0 <= i < |b| ensures b[i] == (a + b)[|a| + i] {}
  }

  /** On a sorted bucket, trimming keeps exactly the stamps inside the window. */
  lemma TrimCounts(bucket: seq<int>, now: int)
    requires NonDecreasing(bucket)
    requires forall i :: 0 <= i < |bucket| ==> bucket[i] <= now
    ensures |Trim(bucket, now - WINDOW)| == CountIn(bucket, now - WINDOW, now)
  {
    var stale := TrimSplits(bucket, now - WINDOW);
    SplitCounts(stale, Trim(bucket, now - WINDOW), now);
  }

  lemma SplitCounts(stale: seq<int>, live: seq<int>, now: int)
    requires NonDecreasing(stale + live)
    requires forall i :: 0 <= i < |stale| ==> stale[i] < now - WINDOW
    requires live != [] ==> now - WINDOW <= live[0]
    requires forall i :: 0 <= i < |stale + live| ==> (stale + live)[i] <= now
    ensures CountIn(stale + live, now - WINDOW, now) == |live|
  {
    CountConcat(stale, live, now - WINDOW, now);
    CountNone(stale, now - WINDOW, now);
    SuffixSorted(stale, live);
    CountAtMostLength(live, now - WINDOW, now);
    forall i | 0 <= i < |live| ensures now - WINDOW <= live[i] <= now {
      assert live[i] == (stale + live)[|stale| + i];
    }
  }

  // ---- Many keys in one map ---------------------------------------------------------------

  datatype Request = Request(token: string, now: int)

  /** The limiter key the bearer guard uses: the first eight characters of the token. */
  function IdOf(token: string): string {
    if |token| <= 8 then token else token[..8]
  }

  function StampsOf(calls: seq<Request>, key: string): seq<int> {
    if calls == [] then []
    else
      var last := calls[|calls| - 1];
      var earlier := StampsOf(calls[..|calls| - 1], key);
      if IdOf(last.token) == key then earlier + [last.now] else earlier
  }

  function LimiterAfter(calls: seq<Request>): map<string, seq<int>> {
    if calls == [] then map[]
    else
      var inner, last := LimiterAfter(calls[..|calls| - 1]), calls[|calls| - 1];
      inner[IdOf(last.token) := Advance(BucketOf(inner, IdOf(last.token)), last.now)]
  }

  /** The stamps with which one token was let through. */
  function PassedBy(calls: seq<Request>, token: string): seq<int> {
    if calls == [] then []
    else
      var earlier, last := calls[..|calls| - 1], calls[|calls| - 1];
      if last.token == token && Admits(BucketOf(LimiterAfter(earlier), IdOf(token)), last.now)
      then PassedBy(earlier, token) + [last.now]
      else PassedBy(earlier, token)
  }

  /** Keys do not disturb one another: a bucket only depends on the calls made under its key. */
  lemma {:induction false} KeysAreIndependent(calls: seq<Request>, key: string)
    ensures BucketOf(LimiterAfter(calls), key) == BucketAfter(StampsOf(calls, key))
  {
    if calls != [] {
      var earlier, last := calls[..|calls| - 1], calls[|calls| - 1];
      KeysAreIndependent(earlier, key);
      if IdOf(last.token) == key {
        assert StampsOf(calls, key)[..|StampsOf(calls, key)| - 1] == StampsOf(earlier, key);
      } else {
        assert StampsOf(calls, key) == StampsOf(earlier, key);
      }
    }
  }

  lemma {:induction false} TokenWithinKey(calls: seq<Request>, token: string, lo: int, hi: int)
    ensures CountIn(PassedBy(calls, token), lo, hi) <= CountIn(Accepted(StampsOf(calls, IdOf(token))), lo, hi)
  {
    if calls != [] {
      var key := IdOf(token);
      var earlier, last := calls[..|calls| - 1], calls[|calls| - 1];
      TokenWithinKey(earlier, token, lo, hi);
      KeysAreIndependent(earlier, key);
      var stamps := StampsOf(calls, key);
      if IdOf(last.token) == key {
        assert stamps[..|stamps| - 1] == StampsOf(earlier, key);
        CountConcat(Accepted(StampsOf(earlier, key)), [last.now], lo, hi);
        CountConcat(PassedBy(earlier, token), [last.now], lo, hi);
      }
    }
  }

  /** The advertised limit, for every token and every run over all tokens. */
  lemma TokenRateBound(calls: seq<Request>, token: string, d: nat, lo: int)
    requires LagAtMost(StampsOf(calls, IdOf(token)), d)
    ensures CountIn(PassedBy(calls, token), lo, lo + 1_000_000_000 - d) <= 100
  {
    TokenWithinKey(calls, token, lo, lo + 1_000_000_000 - d);
    WindowBound(StampsOf(calls, IdOf(token)), d, lo);
  }

  /** The stamps of one token's calls. */
  function OwnStamps(calls: seq<Request>, token: string): seq<int> {
    if calls == [] then []
    else
      var earlier, last := OwnStamps(calls[..|calls| - 1], token), calls[|calls| - 1];
      if last.token == token then earlier + [last.now] else earlier
  }

  /** A token whose first eight characters are its own is limited by its own calls alone. */
  lemma OwnPrefixOwnBucket(calls: seq<Request>, token: string)
    requires |token| >= 8
    requires forall i :: 0 <= i < |calls| && calls[i].token != token ==>
      |calls[i].token| < 8 || calls[i].token[..8] != token[..8]
    ensures BucketOf(LimiterAfter(calls), IdOf(token)) == BucketAfter(OwnStamps(calls, token))
  {
    KeysAreIndependent(calls, IdOf(token));
    OwnStampsAre(calls, token);
  }

  lemma {:induction false} OwnStampsAre(calls: seq<Request>, token: string)
    requires |token| >= 8
    requires forall i :: 0 <= i < |calls| && calls[i].token != token ==>
      |calls[i].token| < 8 || calls[i].token[..8] != token[..8]
    ensures StampsOf(calls, IdOf(token)) == OwnStamps(calls, token)
  {
    if calls != [] {
      var last := calls[|calls| - 1].token;
      OwnStampsAre(calls[..|calls| - 1], token);
      assert |last| >= 8 ==> last[..8] == IdOf(last) || |last| == 8;
    }
  }

  /** Tokens with the same first eight characters share one bucket. */
  lemma SamePrefixSameBucket(a: string, b: string)
    requires |a| >= 8 && |b| >= 8
    ensures IdOf(a) == IdOf(b) <==> a[..8] == b[..8]
  {
    assert |a| == 8 ==> a == a[..8];
    assert |b| == 8 ==> b == b[..8];
  }
}
