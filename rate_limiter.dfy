/**
 * The request rate limiter middleware: a sliding one-minute window of request
 * timestamps per client, the table of limiters chosen by path prefix, and the
 * client identity taken from the forwarding header.
 *
 * Times are seconds as `real`; the clock is a parameter.
 */
module RateLimiting {
  import opened Wrappers
  import opened Market

  /** `window_size`: every limiter counts the requests of the last 60 seconds. */
  const WindowSeconds: real := 60.0

  /** Per-minute limits as configured by default. */
  const DefaultLimit: int := 60
  const SearchLimit: int := 30
  const StockInfoLimit: int := 20
  const AiAnalysisLimit: int := 10
  const TaskLimit: int := 5

  /** The limiter table's keys, in insertion order. */
  const LimiterPrefixes: seq<string> :=
    ["default", "/api/stocks/search", "/api/stocks/", "/api/stocks/analysis", "/api/ai/", "/api/tasks/"]

  /** The limit of each limiter in the table. */
  function LimitOf(prefix: string): (n: Option<int>)
    ensures n.Some? <==> prefix in LimiterPrefixes
  {
    if prefix == "default" then Some(DefaultLimit)
    else if prefix == "/api/stocks/search" then Some(SearchLimit)
    else if prefix == "/api/stocks/" then Some(StockInfoLimit)
    else if prefix == "/api/stocks/analysis" || prefix == "/api/ai/" then Some(AiAnalysisLimit)
    else if prefix == "/api/tasks/" then Some(TaskLimit)
    else None
  }

  // ----- The window -----

  predicate Fresh(t: real, now: real) {
    now - t < WindowSeconds
  }

  /** The timestamps still inside the window at `now`, in their original order. */
  function Prune(stamps: seq<real>, now: real): (r: seq<real>)
    ensures |r| <= |stamps|
    ensures forall t :: t in r <==> t in stamps && Fresh(t, now)
  {
    if stamps == [] then []
    else
      var rest := Prune(stamps[1..], now);
      assert forall t :: t in stamps <==> t == stamps[0] || t in stamps[1..];
      if Fresh(stamps[0], now) then [stamps[0]] + rest else rest
  }

  /** Pruning keeps every fresh timestamp as many times as it was recorded, and no expired one. */
  lemma {:induction false} PruneKeepsCounts(stamps: seq<real>, now: real)
    ensures forall t :: multiset(Prune(stamps, now))[t] == (if Fresh(t, now) then multiset(stamps)[t] else 0)
  {
    if stamps != [] {
      PruneKeepsCounts(stamps[1..], now);
      assert stamps == [stamps[0]] + stamps[1..];
      assert multiset(stamps) == multiset{stamps[0]} + multiset(stamps[1..]);
      if Fresh(stamps[0], now) {
        assert Prune(stamps, now) == [stamps[0]] + Prune(stamps[1..], now);
        assert multiset(Prune(stamps, now)) == multiset{stamps[0]} + multiset(Prune(stamps[1..], now));
      }
    }
  }

  /** Pruning twice at the same time changes nothing more. */
  lemma {:induction false} PruneIdempotent(stamps: seq<real>, now: real)
    ensures Prune(Prune(stamps, now), now) == Prune(stamps, now)
  {
    if stamps != [] {
      PruneIdempotent(stamps[1..], now);
      if Fresh(stamps[0], now) {
        assert ([stamps[0]] + Prune(stamps[1..], now))[1..] == Prune(stamps[1..], now);
      }
    }
  }

  /** A stamp expired at some time stays expired later, so pruning early then late is pruning late. */
  lemma {:induction false} PruneLater(stamps: seq<real>, earlier: real, later: real)
    requires earlier <= later
    ensures Prune(Prune(stamps, earlier), later) == Prune(stamps, later)
  {
    if stamps != [] {
      PruneLater(stamps[1..], earlier, later);
      if Fresh(stamps[0], earlier) {
        assert ([stamps[0]] + Prune(stamps[1..], earlier))[1..] == Prune(stamps[1..], earlier);
      }
    }
  }

  /** `int()` of a float: truncation toward zero. */
  function Truncate(x: real): (n: int)
    ensures x >= 0.0 ==> n as real <= x < n as real + 1.0
    ensures x < 0.0 ==> n as real - 1.0 < x <= n as real
  {
    if x >= 0.0 then x.Floor else -((-x).Floor)
  }

  /** The answer to one request: let it through, throttle it with a wait in seconds, or raise (`min` of an empty window). */
  datatype Decision = Allowed | Limited(retryAfter: int) | Raises

  /** `self.requests.get(client_id, [])`. */
  function StampsOf(requests: map<string, seq<real>>, client: string): seq<real> {
    if client in requests then requests[client] else []
  }

  /** `max(1, int(window - (now - oldest)))`: the seconds until `oldest` leaves the window, at least one. */
  function RetryAfter(oldest: real, now: real): (n: int)
    ensures n >= 1
    ensures n > 1 ==> n as real <= WindowSeconds - (now - oldest) < n as real + 1.0
    ensures n == 1 ==> WindowSeconds - (now - oldest) < 2.0
    ensures oldest <= now ==> n <= 60
  {
    var wait := Truncate(WindowSeconds - (now - oldest));
    if wait > 1 then wait else 1
  }

  /**
   * The decision for a client whose recorded stamps are `stamps`: allowed
   * while the window holds fewer than `limit` stamps; otherwise the wait until
   * the oldest one leaves the window.
   */
  function Decide(stamps: seq<real>, now: real, limit: int): (d: Decision)
    ensures d == Allowed <==> |Prune(stamps, now)| < limit
    ensures d == Raises <==> |Prune(stamps, now)| >= limit && Prune(stamps, now) == []
    ensures d.Limited? ==> Prune(stamps, now) != [] && d.retryAfter == RetryAfter(Min(Prune(stamps, now)), now)
    ensures d.Limited? ==> d.retryAfter >= 1
    ensures d.Limited? && (forall i :: 0 <= i < |stamps| ==> stamps[i] <= now) ==> d.retryAfter <= 60
  {
    var window := Prune(stamps, now);
    if |window| < limit then Allowed
    else if window == [] then Raises
    else
      var oldest := Min(window);
      assert oldest in stamps;
      Limited(RetryAfter(oldest, now))
  }

  /** The table after `cleanup`: every list pruned, and the clients left with none dropped. */
  function Cleaned(requests: map<string, seq<real>>, now: real): (m: map<string, seq<real>>)
    ensures m.Keys <= requests.Keys
    ensures forall c :: c in m ==> m[c] != [] && m[c] == Prune(requests[c], now)
    ensures forall c :: c in requests && Prune(requests[c], now) != [] ==> c in m
  {
    map c | c in requests && Prune(requests[c], now) != [] :: Prune(requests[c], now)
  }

  /** A cleanup never changes a later decision for any client. */
  lemma CleanupKeepsDecisions(requests: map<string, seq<real>>, cleanedAt: real, now: real, client: string, limit: int)
    requires cleanedAt <= now
    ensures Decide(StampsOf(Cleaned(requests, cleanedAt), client), now, limit) == Decide(StampsOf(requests, client), now, limit)
  {
    if client in requests {
      PruneLater(requests[client], cleanedAt, now);
      if client !in Cleaned(requests, cleanedAt) {
        assert Prune(requests[client], now) == Prune(Prune(requests[client], cleanedAt), now) == [];
      }
    }
  }

  /** One limiter: its limit and the stamps recorded per client. */
  class RateLimiter {
    const limitPerMinute: int
    var requests: map<string, seq<real>>

    /** No client holds more stamps than the limit: a request is recorded only while the window has room. */
    predicate Valid()
      reads this
    {
      forall c :: c in requests ==> |requests[c]| <= limitPerMinute
    }

    constructor(limit: int)
      ensures limitPerMinute == limit && requests == map[]
      ensures Valid()
    {
      limitPerMinute := limit;
      requests := map[];
    }

    /** `is_rate_limited`: record the request and allow it, or leave the table alone and refuse it. */
    method IsRateLimited(client: string, now: real) returns (d: Decision)
      requires Valid()
      modifies this
      ensures d == Decide(StampsOf(old(requests), client), now, limitPerMinute)
      ensures d == Allowed ==> requests == old(requests)[client := Prune(StampsOf(old(requests), client), now) + [now]]
      ensures d != Allowed ==> requests == old(requests)
      ensures Valid()
    {
      var stamps := StampsOf(requests, client);
      stamps := Prune(stamps, now);
      if |stamps| >= limitPerMinute {
        if stamps == [] {
          return Raises;
        }
        var oldest := Min(stamps);
        var wait := Truncate(WindowSeconds - (now - oldest));
        return Limited(if wait > 1 then wait else 1);
      }
      stamps := stamps + [now];
      requests := requests[client := stamps];
      return Allowed;
    }

    /** `cleanup`: the loop over the clients, pruning each list and deleting the emptied ones. */
    method Cleanup(now: real)
      requires Valid()
      modifies this
      ensures requests == Cleaned(old(requests), now)
      ensures forall c :: c in requests ==> requests[c] != []
      ensures Valid()
    {
      var original := requests;
      var table := requests;
      var pending := table.Keys;
      while pending != {}
        invariant pending <= original.Keys
        invariant table.Keys <= original.Keys
        invariant forall c :: c in pending ==> c in table && table[c] == original[c]
        invariant forall c :: c in original && c !in pending ==>
          (c in table <==> Prune(original[c], now) != []) && (c in table ==> table[c] == Prune(original[c], now))
        decreases pending
      {
        var c :| c in pending;
        var kept := Prune(table[c], now);
        table := table[c := kept];
        if kept == [] {
          table := table - {c};
        }
        pending := pending - {c};
      }
      assert table == Cleaned(original, now);
      requests := table;
      assert forall c :: c in requests ==> |requests[c]| <= |original[c]|;
    }
  }

  // ----- Choosing the limiter -----

  /** The first key after which `path` starts, skipping "default"; "default" when none matches. */
  function FirstMatch(prefixes: seq<string>, path: string): (p: string)
    ensures p == "default" || (p in prefixes && p <= path)
    ensures p == "default" <==> forall k :: 0 <= k < |prefixes| ==> prefixes[k] == "default" || !(prefixes[k] <= path)
  {
    if prefixes == [] then "default"
    else if prefixes[0] != "default" && prefixes[0] <= path then prefixes[0]
    else
      assert forall k :: 1 <= k < |prefixes| ==> prefixes[k] == prefixes[1..][k - 1];
      FirstMatch(prefixes[1..], path)
  }

  /** A key is chosen only when no earlier non-default key matches. */
  lemma {:induction false} FirstMatchIsFirst(prefixes: seq<string>, path: string, i: int)
    requires 0 <= i < |prefixes| && prefixes[i] != "default" && prefixes[i] <= path
    ensures exists j :: (0 <= j <= i && prefixes[j] != "default" && prefixes[j] <= path && FirstMatch(prefixes, path) == prefixes[j] &&
      forall k :: 0 <= k < j ==> prefixes[k] == "default" || !(prefixes[k] <= path))
  {
    if prefixes[0] != "default" && prefixes[0] <= path {
      assert FirstMatch(prefixes, path) == prefixes[0];
    } else {
      var rest := prefixes[1..];
      FirstMatchIsFirst(rest, path, i - 1);
      var j :| 0 <= j <= i - 1 && rest[j] != "default" && rest[j] <= path && FirstMatch(rest, path) == rest[j] &&
        forall k :: 0 <= k < j ==> rest[k] == "default" || !(rest[k] <= path);
      assert FirstMatch(prefixes, path) == prefixes[j + 1];
      assert forall k :: 1 <= k < j + 1 ==> prefixes[k] == rest[k - 1];
    }
  }

  /** `_get_limiter`: the loop over the table in insertion order. */
  method GetLimiter(path: string) returns (prefix: string)
    ensures prefix == FirstMatch(LimiterPrefixes, path)
    ensures LimitOf(prefix).Some?
  {
    var prefixes := LimiterPrefixes;
    for k := 0 to |prefixes|
      invariant FirstMatch(prefixes[k..], path) == FirstMatch(prefixes, path)
    {
      if prefixes[k] != "default" && prefixes[k] <= path {
        return prefixes[k];
      }
      assert prefixes[k..][1..] == prefixes[k + 1..];
    }
    return "default";
  }

  /** Every path matching "/api/stocks/analysis" also matches "/api/stocks/", which comes first: that limiter is never chosen. */
  lemma AnalysisLimiterUnreachable(path: string)
    ensures FirstMatch(LimiterPrefixes, path) != "/api/stocks/analysis"
  {
    var p := LimiterPrefixes;
    if "/api/stocks/analysis" <= path {
      assert "/api/stocks/" <= path;
      assert FirstMatch(p[1..], path) == "/api/stocks/search" || FirstMatch(p[2..], path) == "/api/stocks/";
    }
  }

  // ----- The client identity -----

  /** The characters `str.strip()` removes: those for which `str.isspace()` holds. */
  predicate IsSpace(c: char) {
    ('\t' <= c <= '\r') || ('\U{1C}' <= c <= ' ') || c == '\U{85}' || c == '\U{A0}' || c == '\U{1680}' ||
    ('\U{2000}' <= c <= '\U{200A}') || c == '\U{2028}' || c == '\U{2029}' || c == '\U{202F}' || c == '\U{205F}' || c == '\U{3000}'
  }

  /** Every character of `w` is whitespace. */
  predicate AllSpace(w: string) {
    forall i :: 0 <= i < |w| ==> IsSpace(w[i])
  }

  /** Leading whitespace removed. */
  function StripStart(s: string): (r: string)
    ensures |r| <= |s| && r == s[|s| - |r|..]
    ensures r == [] || !IsSpace(r[0])
    ensures AllSpace(s[..|s| - |r|])
  {
    if s != [] && IsSpace(s[0]) then
      var r := StripStart(s[1..]);
      assert s[..|s| - |r|] == [s[0]] + s[1..][..|s| - 1 - |r|];
      r
    else s
  }

  /** Trailing whitespace removed. */
  function StripEnd(s: string): (r: string)
    ensures |r| <= |s| && r == s[..|r|]
    ensures r == [] || !IsSpace(r[|r| - 1])
    ensures AllSpace(s[|r|..])
  {
    if s != [] && IsSpace(s[|s| - 1]) then
      var r := StripEnd(s[..|s| - 1]);
      assert s[|r|..] == s[..|s| - 1][|r|..] + [s[|s| - 1]];
      r
    else s
  }

  /** `r` is the run of `s` starting at `a`, with only whitespace before and after it. */
  predicate TrimmedAt(s: string, r: string, a: int) {
    0 <= a <= |s| - |r| && r == s[a..a + |r|] && AllSpace(s[..a]) && AllSpace(s[a + |r|..])
  }

  /** `str.strip()`: the middle of `s`, with only whitespace cut off on either side. */
  function Strip(s: string): (r: string)
    ensures r == [] || (!IsSpace(r[0]) && !IsSpace(r[|r| - 1]))
    ensures exists a :: TrimmedAt(s, r, a)
  {
    StripIsTrimmed(s);
    StripEnd(StripStart(s))
  }

  lemma StripIsTrimmed(s: string)
    ensures TrimmedAt(s, StripEnd(StripStart(s)), |s| - |StripStart(s)|)
  {
    var t := StripStart(s);
    var u := StripEnd(t);
    var a := |s| - |t|;
    SlicesOfSuffix(s, a, |u|);
    assert t == s[a..];
    assert AllSpace(s[..a]);
    assert u == s[a..a + |u|];
    assert AllSpace(s[a + |u|..]);
    assert TrimmedAt(s, u, a);
  }

  /** Slicing a suffix is slicing the whole. */
  lemma SlicesOfSuffix(s: string, a: int, n: int)
    requires 0 <= a <= |s| && 0 <= n <= |s| - a
    ensures s[a..][..n] == s[a..a + n]
    ensures s[a..][n..] == s[a + n..]
  {
  }

  /** `split(",")[0]`: everything before the first comma. */
  function FirstField(s: string): (r: string)
    ensures r <= s
    ensures ',' !in r
    ensures |r| < |s| ==> s[|r|] == ','
  {
    if s == [] || s[0] == ',' then []
    else
      var rest := FirstField(s[1..]);
      [s[0]] + rest
  }

  /**
   * `_get_client_id`: the stripped first field of a non-empty
   * X-Forwarded-For header, else the peer's host, else "unknown".
   */
  function ClientId(forwardedFor: Option<string>, host: Option<string>): (id: string)
    ensures forwardedFor.Some? && forwardedFor.value != [] ==> id == Strip(FirstField(forwardedFor.value)) && ',' !in id
    ensures (forwardedFor.None? || forwardedFor.value == []) ==> id == (if host.Some? then host.value else "unknown")
  {
    if forwardedFor.Some? && forwardedFor.value != [] then
      var id := Strip(FirstField(forwardedFor.value));
      StripKeepsCommaFree(FirstField(forwardedFor.value));
      id
    else if host.Some? then host.value
    else "unknown"
  }

  lemma StripKeepsCommaFree(s: string)
    requires ',' !in s
    ensures ',' !in Strip(s)
  {
    var t := StripStart(s);
    assert forall c :: c in t ==> c in s;
    var u := StripEnd(t);
    assert forall c :: c in u ==> c in t;
  }
}
