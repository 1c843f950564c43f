/** The sliding-window limiter of `server/rate_limit.py`.

    The class keeps the source's two fields, the per-key hit lists and the call counter.  Two
    ghost fields record what a caller can observe over a whole run: the time of the last call
    and, for every key, each admission ever granted.  The clock is a parameter, as it is the
    only thing the source reads from outside. */
module RateLimit {

  /** How many of the times `ts` lie in the window `(lo, hi]`. */
  function CountIn(ts: seq<real>, lo: real, hi: real): nat {
    if ts == [] then 0
    else CountIn(ts[..|ts| - 1], lo, hi) + if lo < ts[|ts| - 1] <= hi then 1 else 0
  }

  ghost predicate Ascending(ts: seq<real>) {
    forall i, j :: 0 <= i <= j < |ts| ==> ts[i] <= ts[j]
  }

  /** Any two admissions that are `limit` apart in the list are a full window apart in time. */
  ghost predicate Spaced(ts: seq<real>, limit: nat, window: real) {
    forall i, j :: 0 <= i && j == i + limit && j < |ts| ==> ts[j] >= ts[i] + window
  }

  /** If the first `k` times are at or before `lo`, at most the others are counted, and exactly
      the others when they all lie in the window. */
  lemma {:induction false} CountSuffix(ts: seq<real>, k: nat, lo: real, hi: real)
    requires k <= |ts| && forall i :: 0 <= i < k ==> ts[i] <= lo
    ensures CountIn(ts, lo, hi) <= |ts| - k
    ensures (forall i :: k <= i < |ts| ==> lo < ts[i] <= hi) ==> CountIn(ts, lo, hi) == |ts| - k
  {
    if |ts| > 0 {
      CountSuffix(ts[..|ts| - 1], if k < |ts| then k else k - 1, lo, hi);
    }
  }

  /** A spaced run never has more than `limit` admissions in any window of that length. */
  lemma {:induction false} WindowNeverExceeds(ts: seq<real>, limit: nat, window: real, lo: real)
    requires limit >= 1 && Ascending(ts) && Spaced(ts, limit, window)
    ensures CountIn(ts, lo, lo + window) <= limit
  {
    var n := |ts|;
    if n == 0 {
    } else if ts[n - 1] > lo + window {
      WindowNeverExceeds(ts[..n - 1], limit, window, lo);
    } else if n <= limit {
      CountSuffix(ts, 0, lo, lo + window);
    } else {
      assert ts[n - 1] >= ts[n - 1 - limit] + window;
      CountSuffix(ts, n - limit, lo, lo + window);
    }
  }

  /** What the limiter keeps for one key at time `clock`: `hits` is the tail of `admitted`, and
      everything it has forgotten has left every window still to come. */
  ghost predicate KeyOk(admitted: seq<real>, hits: seq<real>, limit: nat, window: real, clock: real) {
    && limit >= 1
    && Ascending(admitted) && Spaced(admitted, limit, window)
    && (forall i :: 0 <= i < |admitted| ==> admitted[i] <= clock)
    && |hits| <= |admitted| && |hits| <= limit
    && hits == admitted[|admitted| - |hits|..]
    && (forall i :: 0 <= i < |admitted| - |hits| ==> admitted[i] <= clock - window)
  }

  /** After the expired hits are popped, the list holds exactly the admissions in the window. */
  lemma HitsAreTheWindow(admitted: seq<real>, hits: seq<real>, limit: nat, window: real, clock: real)
    requires window > 0.0 && KeyOk(admitted, hits, limit, window, clock)
    requires forall i :: 0 <= i < |hits| ==> hits[i] > clock - window
    ensures CountIn(admitted, clock - window, clock) == |hits|
  {
    var k := |admitted| - |hits|;
    assert forall i :: k <= i < |admitted| ==> admitted[i] == hits[i - k];
    CountSuffix(admitted, k, clock - window, clock);
  }

  /** When the oldest remembered hit expires there is room for one more admission. */
  lemma RoomAfterWaiting(admitted: seq<real>, hits: seq<real>, limit: nat, window: real, clock: real, later: real)
    requires window > 0.0 && KeyOk(admitted, hits, limit, window, clock)
    requires |hits| > 0 && later == hits[0] + window && later >= clock
    ensures CountIn(admitted, later - window, later) < limit
  {
    var k := |admitted| - |hits|;
    assert hits[0] == admitted[k];
    CountSuffix(admitted, k + 1, later - window, later);
  }

  /** Admitting one more time keeps the spacing, since only `limit - 1` hits were in the window. */
  lemma AdmitKeepsKeyOk(admitted: seq<real>, hits: seq<real>, limit: nat, window: real, clock: real)
    requires window > 0.0 && KeyOk(admitted, hits, limit, window, clock) && |hits| < limit
    ensures KeyOk(admitted + [clock], hits + [clock], limit, window, clock)
  {
    var n, k := |admitted|, |admitted| - |hits|;
    if n >= limit {
      assert n - limit < k;
      assert admitted[n - limit] <= clock - window;
    }
    assert (admitted + [clock])[k..] == hits + [clock];
  }

  /** Popping an expired hit forgets nothing that a live window can still see. */
  lemma PopKeepsKeyOk(admitted: seq<real>, hits: seq<real>, limit: nat, window: real, clock: real)
    requires KeyOk(admitted, hits, limit, window, clock) && |hits| > 0 && hits[0] <= clock - window
    ensures KeyOk(admitted, hits[1..], limit, window, clock)
  {
    var k := |admitted| - |hits|;
    assert hits[0] == admitted[k];
    assert hits[1..] == admitted[k + 1..];
  }

  /** Time passing only makes it easier to forget. */
  lemma LaterKeepsKeyOk(admitted: seq<real>, hits: seq<real>, limit: nat, window: real, clock: real, now: real)
    requires KeyOk(admitted, hits, limit, window, clock) && clock <= now
    ensures KeyOk(admitted, hits, limit, window, now)
  {
  }

  /** The answer to a call at `now`: admit exactly when fewer than `limit` admissions lie in the
      window ending now; a refusal means exactly `limit` do, and the wait it returns is positive
      and long enough for the window to have room again. */
  ghost predicate Decided(admitted: seq<real>, limit: nat, window: real, now: real, allowed: bool, retryAfter: real) {
    && (allowed <==> CountIn(admitted, now - window, now) < limit)
    && (allowed ==> retryAfter == 0.0)
    && (!allowed ==> CountIn(admitted, now - window, now) == limit && retryAfter > 0.0)
    && (!allowed ==> CountIn(admitted, now + retryAfter - window, now + retryAfter) < limit)
  }

  /** The list part of a call: drop the expired hits, then refuse or append `now`. */
  method Slide(ghost admitted: seq<real>, hits: seq<real>, limit: nat, window: real, now: real)
    returns (kept: seq<real>, allowed: bool, retryAfter: real)
    requires window > 0.0 && KeyOk(admitted, hits, limit, window, now)
    ensures Decided(admitted, limit, window, now, allowed, retryAfter)
    ensures KeyOk(if allowed then admitted + [now] else admitted, kept, limit, window, now)
  {
    kept := hits;
    while |kept| > 0 && kept[0] <= now - window
      invariant KeyOk(admitted, kept, limit, window, now)
    {
      PopKeepsKeyOk(admitted, kept, limit, window, now);
      kept := kept[1..];
    }
    var k := |admitted| - |kept|;
    assert forall i :: 0 <= i < |kept| ==> kept[i] == admitted[k + i];
    HitsAreTheWindow(admitted, kept, limit, window, now);
    if |kept| >= limit {
      allowed, retryAfter := false, if kept[0] + window - now > 0.0 then kept[0] + window - now else 0.0;
      RoomAfterWaiting(admitted, kept, limit, window, now, kept[0] + window);
    } else {
      AdmitKeepsKeyOk(admitted, kept, limit, window, now);
      kept, allowed, retryAfter := kept + [now], true, 0.0;
    }
  }

  /** The list stored for `key`; a missing key has none. */
  function Of(m: map<string, seq<real>>, key: string): seq<real> {
    if key in m then m[key] else []
  }

  ghost predicate AllKeysOk(admitted: map<string, seq<real>>, hits: map<string, seq<real>>,
                            limitOf: string -> nat, window: real, clock: real) {
    forall key :: KeyOk(Of(admitted, key), Of(hits, key), limitOf(key), window, clock)
  }

  /** One key changes and time passes: every other key stays in order. */
  lemma UpdateKeepsAllKeysOk(admitted: map<string, seq<real>>, hits: map<string, seq<real>>,
                             admitted': map<string, seq<real>>, hits': map<string, seq<real>>,
                             limitOf: string -> nat, window: real, clock: real, now: real,
                             key: string, adm: seq<real>, mine: seq<real>)
    requires AllKeysOk(admitted, hits, limitOf, window, clock) && clock <= now
    requires Of(admitted', key) == adm && Of(hits', key) == mine && KeyOk(adm, mine, limitOf(key), window, now)
    requires forall k :: k != key ==> Of(admitted', k) == Of(admitted, k) && Of(hits', k) == Of(hits, k)
    ensures AllKeysOk(admitted', hits', limitOf, window, now)
  {
    forall k ensures KeyOk(Of(admitted', k), Of(hits', k), limitOf(k), window, now) {
      var a, h := Of(admitted', k), Of(hits', k);
      if k == key {
        assert a == adm && h == mine;
      } else {
        assert a == Of(admitted, k) && h == Of(hits, k);
        LaterKeepsKeyOk(a, h, limitOf(k), window, clock, now);
      }
    }
  }

  lemma UpdateOneKey(admitted: map<string, seq<real>>, hits: map<string, seq<real>>, limitOf: string -> nat, window: real,
                     clock: real, now: real, key: string, adm: seq<real>, mine: seq<real>)
    requires AllKeysOk(admitted, hits, limitOf, window, clock) && clock <= now && KeyOk(adm, mine, limitOf(key), window, now)
    ensures AllKeysOk(admitted[key := adm], hits[key := mine], limitOf, window, now)
  {
    hide KeyOk;
    UpdateKeepsAllKeysOk(admitted, hits, admitted[key := adm], hits[key := mine], limitOf, window, clock, now, key, adm, mine);
  }

  lemma KeyOkAt(admitted: map<string, seq<real>>, hits: map<string, seq<real>>, limitOf: string -> nat, window: real,
                clock: real, key: string)
    requires AllKeysOk(admitted, hits, limitOf, window, clock)
    ensures KeyOk(Of(admitted, key), Of(hits, key), limitOf(key), window, clock)
  {
  }

  /** Forgetting the keys whose newest hit has expired loses no admission of a live window. */
  lemma PruneKeepsAllKeysOk(admitted: map<string, seq<real>>, hits: map<string, seq<real>>,
                            hits': map<string, seq<real>>, limitOf: string -> nat, window: real, clock: real)
    requires AllKeysOk(admitted, hits, limitOf, window, clock)
    requires forall key :: Of(hits', key) == Of(hits, key) ||
                           (Of(hits', key) == [] && Expired(Of(hits, key), clock - window))
    ensures AllKeysOk(admitted, hits', limitOf, window, clock)
  {
    forall key ensures KeyOk(Of(admitted, key), Of(hits', key), limitOf(key), window, clock) {
      var a, h := Of(admitted, key), Of(hits, key);
      assert KeyOk(a, h, limitOf(key), window, clock);
      if h != [] && Of(hits', key) == [] {
        assert a[|a| - 1] == h[|h| - 1];
      }
    }
  }

  predicate Expired(hits: seq<real>, cutoff: real) {
    hits == [] || hits[|hits| - 1] <= cutoff
  }

  function Pruned(hits: map<string, seq<real>>, cutoff: real): map<string, seq<real>> {
    map key | key in hits && !Expired(hits[key], cutoff) :: hits[key]
  }

  /** If a pruning is due, exactly the keys whose newest hit lies at or before the cutoff are gone, or have none;
      the others are as they were. */
  ghost predicate OnlyExpiredLeft(before: map<string, seq<real>>, after: map<string, seq<real>>, due: bool, cutoff: real) {
    && (forall key :: key in after <==>
          key in before && (!due || (before[key] != [] && before[key][|before[key]| - 1] > cutoff)))
    && forall key :: key in after ==> after[key] == before[key]
  }

  class SlidingWindowLimiter {
    var hits: map<string, seq<real>>
    var calls: nat
    ghost var admitted: map<string, seq<real>>
    ghost var clock: real
    ghost const window: real
    ghost const limitOf: string -> nat

    /** Every admission of `key` so far, oldest first. */
    ghost function Admitted(key: string): seq<real>
      reads this
    {
      Of(admitted, key)
    }

    ghost predicate Valid()
      reads this
    {
      window > 0.0 && AllKeysOk(admitted, hits, limitOf, window, clock)
    }

    constructor (window: real, limitOf: string -> nat)
      requires window > 0.0 && forall key :: limitOf(key) >= 1
      ensures Valid() && this.window == window && this.limitOf == limitOf
      ensures forall key :: Admitted(key) == []
    {
      hits, calls, admitted, clock := map[], 0, map[], 0.0;
      this.window, this.limitOf := window, limitOf;
    }

    /** One call at time `now`; an admission is recorded for this key and nothing else changes. */
    method Check(key: string, limit: nat, windowSeconds: real, now: real)
      returns (allowed: bool, retryAfter: real)
      requires Valid() && limit == limitOf(key) && windowSeconds == window && clock <= now
      modifies this
      ensures Valid() && clock == now && calls == old(calls) + 1
      ensures Decided(old(Admitted(key)), limit, window, now, allowed, retryAfter)
      ensures admitted == old(admitted)[key := if allowed then old(Admitted(key)) + [now] else old(Admitted(key))]
    {
      hide Decided, KeyOk, OnlyExpiredLeft, AllKeysOk;
      KeyOkAt(admitted, hits, limitOf, window, clock, key);
      calls := calls + 1;
      var mine := Of(hits, key);
      ghost var adm := Of(admitted, key);
      LaterKeepsKeyOk(adm, mine, limit, window, clock, now);
      mine, allowed, retryAfter := Slide(adm, mine, limit, windowSeconds, now);
      adm := if allowed then adm + [now] else adm;
      admitted := admitted[key := adm];
      hits := hits[key := mine];
      clock := now;
      UpdateOneKey(old(admitted), old(hits), limitOf, window, old(clock), now, key, adm, mine);
      PruneWhenDue(now - windowSeconds);
    }

    /** On every 512th call, forgets each key whose newest hit has expired. */
    method PruneWhenDue(cutoff: real)
      requires Valid() && cutoff == clock - window
      modifies this`hits
      ensures Valid()
      ensures OnlyExpiredLeft(old(hits), hits, calls % 512 == 0, cutoff)
    {
      if calls % 512 == 0 {
        hits := Pruned(hits, cutoff);
        PruneKeepsAllKeysOk(admitted, old(hits), hits, limitOf, window, clock);
      }
    }

    /** Over any run, no key is ever admitted more than its limit in any window. */
    lemma NeverExceeds(key: string, lo: real)
      requires Valid()
      ensures CountIn(Admitted(key), lo, lo + window) <= limitOf(key)
    {
      WindowNeverExceeds(Admitted(key), limitOf(key), window, lo);
    }
  }
}
