/**
 * The per-client sliding-window rate limit of the data endpoint: each
 * client key maps to the times of its requests in the last minute.
 */
module RateLimit {
  import opened Wrappers
  import Text

  /** `WINDOW_MS` */
  const WindowMs: int := 60000

  /** `MAX_REQUESTS` */
  const MaxRequests: int := 60

  /** `timestamps.filter(t => t > now - WINDOW_MS)` */
  function Recent(ts: seq<int>, now: int): (r: seq<int>)
    ensures |r| <= |ts|
    ensures forall t :: t in r <==> t in ts && t > now - WindowMs
  {
    if ts == [] then []
    else
      var last := ts[|ts| - 1];
      Recent(ts[..|ts| - 1], now) + if last > now - WindowMs then [last] else []
  }

  /** Filtering keeps the order: the recent part of `a + b` is that of `a` followed by that of `b`. */
  lemma {:induction false} RecentAppend(a: seq<int>, b: seq<int>, now: int)
    ensures Recent(a + b, now) == Recent(a, now) + Recent(b, now)
  {
    if b != [] {
      var init := b[..|b| - 1];
      assert (a + b)[..|a + b| - 1] == a + init;
      RecentAppend(a, init, now);
    } else {
      assert a + b == a;
    }
  }

  /** Ascending times (the order requests arrive in when the clock does not go back). */
  predicate Ascending(ts: seq<int>) {
    forall i, j :: 0 <= i < j < |ts| ==> ts[i] <= ts[j]
  }

  /** On ascending times the window is a suffix: exactly the old entries are dropped. */
  lemma {:induction false} RecentOfAscendingIsSuffix(ts: seq<int>, now: int)
    requires Ascending(ts)
    ensures Recent(ts, now) == ts[|ts| - |Recent(ts, now)|..]
  {
    if ts != [] {
      var init := ts[..|ts| - 1];
      var last := ts[|ts| - 1];
      RecentOfAscendingIsSuffix(init, now);
      if last > now - WindowMs {
        assert ts == init + [last];
      } else {
        assert forall t :: t in init ==> t <= last;
        NothingRecent(init, now);
      }
    }
  }

  /** Requests that arrive in time order stay in time order in the table. */
  lemma WindowStaysAscending(ts: seq<int>, now: int)
    requires Ascending(ts) && forall t :: t in ts ==> t <= now
    ensures Ascending(Recent(ts, now) + [now])
  {
    var r := Recent(ts, now);
    RecentOfAscendingIsSuffix(ts, now);
    var w := r + [now];
    forall i, j | 0 <= i < j < |w| ensures w[i] <= w[j] {
      assert r[i] == ts[|ts| - |r| + i];
      if j < |r| {
        assert r[j] == ts[|ts| - |r| + j];
      } else {
        assert r[i] in ts;
      }
    }
  }

  lemma {:induction false} NothingRecent(ts: seq<int>, now: int)
    requires forall t :: t in ts ==> t <= now - WindowMs
    ensures Recent(ts, now) == []
  {
    if ts != [] {
      var init := ts[..|ts| - 1];
      assert ts[|ts| - 1] in ts;
      assert forall t :: t in init ==> t in ts by {
        assert ts == init + [ts[|ts| - 1]];
      }
      NothingRecent(init, now);
    }
  }

  /**
   * The module-level `rateLimit` map: request times per client key, oldest
   * first. Keys are never removed.
   */
  class RateLimiter {
    var hits: map<string, seq<int>>

    constructor()
      ensures hits == map[]
    {
      hits := map[];
    }

    /** `rateLimit.get(ip) || []` */
    function Prior(ip: string): seq<int>
      reads this
    {
      if ip in hits then hits[ip] else []
    }

    /**
     * `isRateLimited(ip)` at time `now`: the key's times are cut to the
     * window, `now` is appended (a refused request counts too), and the
     * request is refused when more than 60 remain.
     */
    method IsRateLimited(ip: string, now: int) returns (limited: bool)
      modifies this
      ensures hits == old(hits)[ip := Recent(old(Prior(ip)), now) + [now]]
      ensures limited <==> |hits[ip]| > MaxRequests
      ensures forall t :: t in hits[ip] ==> t == now || t > now - WindowMs
      ensures ip !in old(hits) ==> hits[ip] == [now] && !limited
      ensures Ascending(old(Prior(ip))) && (forall t :: t in old(Prior(ip)) ==> t <= now) ==> Ascending(hits[ip])
      ensures forall k :: k != ip ==> (k in hits <==> k in old(hits)) && (k in hits ==> hits[k] == old(hits)[k])
    {
      var timestamps := Prior(ip);
      var recent := Recent(timestamps, now);
      if Ascending(timestamps) && forall t :: t in timestamps ==> t <= now {
        WindowStaysAscending(timestamps, now);
      }
      recent := recent + [now];
      hits := hits[ip := recent];
      limited := |recent| > MaxRequests;
    }
  }

  /** A request is refused only after more than 60 requests inside the window, this one included. */
  lemma LimitedMeansBusy(prior: seq<int>, now: int)
    requires |Recent(prior, now) + [now]| > MaxRequests
    ensures |Recent(prior, now)| >= MaxRequests
    ensures forall t :: t in Recent(prior, now) ==> t in prior && now - WindowMs < t
  {
  }

  /**
   * `request.headers.get('x-forwarded-for')?.split(',')[0]?.trim() || 'unknown'`:
   * the first address of the forwarding chain, trimmed; `unknown` when the
   * header is absent or that address is blank.
   */
  function ClientKey(header: Option<string>): (k: string)
    ensures k != ""
    ensures ',' !in k
    ensures !Text.IsJsSpace(k[0]) && !Text.IsJsSpace(k[|k| - 1])
    ensures header.None? ==> k == "unknown"
    ensures header.Some? && Text.Trim(Text.FirstSegment(header.value, ',')) != "" ==>
      k == Text.Trim(Text.FirstSegment(header.value, ','))
    ensures header.Some? && Text.Trim(Text.FirstSegment(header.value, ',')) == "" ==> k == "unknown"
  {
    if header.None? then "unknown"
    else
      var first := Text.Trim(Text.FirstSegment(header.value, ','));
      TrimInside(Text.FirstSegment(header.value, ','));
      if first == "" then "unknown" else first
  }

  /** Trimming keeps only characters of the input, and leaves no space at either end. */
  lemma TrimInside(s: string)
    ensures forall c :: c in Text.Trim(s) ==> c in s
    ensures Text.Trim(s) != [] ==> !Text.IsJsSpace(Text.Trim(s)[0]) && !Text.IsJsSpace(Text.Trim(s)[|Text.Trim(s)| - 1])
  {
    var start := Text.TrimStart(s);
    var r := Text.TrimEnd(start);
    assert r == Text.Trim(s);
    forall c | c in r
      ensures c in s
    {
      var k :| 0 <= k < |r| && r[k] == c;
      assert start[k] == c;
      assert s[|s| - |start| + k] == c;
    }
    if r != [] {
      assert r[0] == start[0];
    }
  }

  /**
   * The client of a forwarding chain `a, b` is its first address `a`,
   * whatever follows the comma.
   */
  lemma FirstForwardedAddress(a: string, rest: string)
    requires a != [] && ',' !in a && !Text.IsJsSpace(a[0]) && !Text.IsJsSpace(a[|a| - 1])
    ensures ClientKey(Some(a + [','] + rest)) == a
  {
    FirstSegmentBeforeSeparator(a, rest, ',');
  }

  lemma {:induction false} FirstSegmentBeforeSeparator(a: string, rest: string, sep: char)
    requires sep !in a
    ensures Text.FirstSegment(a + [sep] + rest, sep) == a
  {
    if a != [] {
      assert (a + [sep] + rest)[1..] == a[1..] + [sep] + rest;
      FirstSegmentBeforeSeparator(a[1..], rest, sep);
    }
  }
}
