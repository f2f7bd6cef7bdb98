/** The admission gate in front of every protected route: a shared-secret
    header check and a fixed-window, per-client request counter.

    The counter state is a map from client key to a record holding the
    tokens left in the current window and the window's start. The source
    holds the limiter's lock for the whole of `allow` and of `cleanup`, so
    each is modelled as one atomic step over an explicit clock `now`
    (same unit as `window`). */
module Middleware {
  import opened Base
  import opened Http

  /** One client's budget: tokens left in the window that started at `last`. */
  datatype ClientRecord = ClientRecord(tokens: int, last: int)

  /** `rate` requests are admitted per `window`; `rate == 0` disables the check. */
  datatype RateLimiter = RateLimiter(clients: map<string, ClientRecord>, rate: int, window: int)

  datatype Gate = Gate(apiKey: string, limiter: RateLimiter)

  /** The header carrying the shared secret, in canonical form. */
  const ApiKeyHeader := "X-Api-Key"

  /** `newMiddleware`: the configured key and limits, no client known yet. */
  function NewMiddleware(apiKey: string, rate: int, window: int): (g: Gate)
    ensures g.apiKey == apiKey
    ensures g.limiter.rate == rate && g.limiter.window == window
    ensures g.limiter.clients == map[]
  {
    Gate(apiKey, RateLimiter(map[], rate, window))
  }

  // ---------------------------------------------------------------------
  // Shared-secret check

  /** A request may reach the handler when no key is configured or when its
      header carries exactly the configured key. */
  predicate Authorized(apiKey: string, req: Request) {
    apiKey == "" || HeaderGet(req.headers, ApiKeyHeader) == apiKey
  }

  function UnauthorizedResponse(): Response {
    PlainError("{\"error\":\"Unauthorized\"}", StatusUnauthorized)
  }

  function RateLimitedResponse(): Response {
    PlainError("{\"error\":\"Rate limit exceeded\"}", StatusTooManyRequests)
  }

  /** `auth(next)` applied to one request. */
  function Auth(apiKey: string, next: Request -> Response, req: Request): (r: Response)
    ensures apiKey == "" ==> r == next(req)
    ensures apiKey != "" && HeaderGet(req.headers, ApiKeyHeader) == apiKey ==> r == next(req)
    ensures apiKey != "" && HeaderGet(req.headers, ApiKeyHeader) != apiKey ==> r.status == StatusUnauthorized
  {
    if apiKey == "" then next(req)
    else if HeaderGet(req.headers, ApiKeyHeader) != apiKey then UnauthorizedResponse()
    else next(req)
  }

  /** A rejected request never reaches the handler: its response is the
      same whatever the handler would have done. A passed request gets
      exactly the handler's response. */
  lemma AuthCallsNextIff(apiKey: string, req: Request, next1: Request -> Response, next2: Request -> Response)
    ensures !Authorized(apiKey, req) ==> Auth(apiKey, next1, req) == Auth(apiKey, next2, req) == UnauthorizedResponse()
    ensures Authorized(apiKey, req) ==> Auth(apiKey, next1, req) == next1(req)
    ensures Authorized(apiKey, req) <==> (apiKey == "" || (ApiKeyHeader in req.headers && req.headers[ApiKeyHeader] == apiKey))
  {
  }

  /** With a key configured, a request without the header is rejected. */
  lemma {:induction false} MissingHeaderRejected(apiKey: string, req: Request, next: Request -> Response)
    requires apiKey != "" && ApiKeyHeader !in req.headers
    ensures Auth(apiKey, next, req) == UnauthorizedResponse()
  {
    assert HeaderGet(req.headers, ApiKeyHeader) == "";
  }

  // ---------------------------------------------------------------------
  // Fixed-window counter

  /** What `allow` answers and the limiter it leaves behind. */
  datatype Decision = Decision(allowed: bool, limiter: RateLimiter)

  /** A record's window has run out at `now`. */
  predicate Expired(rl: RateLimiter, c: ClientRecord, now: int) {
    now - c.last >= rl.window
  }

  /** `allow(ip)` at clock reading `now`. A new client starts a window with
      `rate - 1` tokens (this request spends one); an expired window is
      restarted the same way; inside the window a token is spent while one
      is left, and the request is refused otherwise. */
  function Allow(rl: RateLimiter, ip: string, now: int): (d: Decision)
    ensures d.limiter.rate == rl.rate && d.limiter.window == rl.window
    ensures ip in d.limiter.clients
    ensures d.limiter.clients - {ip} == rl.clients - {ip}
    ensures ip !in rl.clients ==> d.allowed && d.limiter.clients[ip] == ClientRecord(rl.rate - 1, now)
    ensures ip in rl.clients && Expired(rl, rl.clients[ip], now) ==>
              d.allowed && d.limiter.clients[ip] == ClientRecord(rl.rate - 1, now)
    ensures ip in rl.clients && !Expired(rl, rl.clients[ip], now) ==>
              && (d.allowed <==> rl.clients[ip].tokens > 0)
              && d.limiter.clients[ip].last == rl.clients[ip].last
              && d.limiter.clients[ip].tokens == (if d.allowed then rl.clients[ip].tokens - 1 else rl.clients[ip].tokens)
    ensures !d.allowed ==> d.limiter == rl
  {
    if ip !in rl.clients then
      Decision(true, rl.(clients := rl.clients[ip := ClientRecord(rl.rate - 1, now)]))
    else
      var c := rl.clients[ip];
      if Expired(rl, c, now) then
        Decision(true, rl.(clients := rl.clients[ip := ClientRecord(rl.rate - 1, now)]))
      else if c.tokens > 0 then
        Decision(true, rl.(clients := rl.clients[ip := c.(tokens := c.tokens - 1)]))
      else
        Decision(false, rl)
  }

  /** The sweep's eviction test: idle strictly longer than five windows. */
  predicate Stale(rl: RateLimiter, c: ClientRecord, now: int) {
    now - c.last > rl.window * 5
  }

  /** `cleanup` at clock reading `now`: drops exactly the stale records and
      keeps every other record as it was. */
  function Cleanup(rl: RateLimiter, now: int): (r: RateLimiter)
    ensures r.rate == rl.rate && r.window == rl.window
    ensures forall ip :: ip in r.clients <==> ip in rl.clients && !Stale(rl, rl.clients[ip], now)
    ensures forall ip :: ip in r.clients ==> r.clients[ip] == rl.clients[ip]
  {
    rl.(clients := map ip | ip in rl.clients && !Stale(rl, rl.clients[ip], now) :: rl.clients[ip])
  }

  /** Sweeping twice at the same instant removes nothing more. */
  lemma CleanupIdempotent(rl: RateLimiter, now: int)
    ensures Cleanup(Cleanup(rl, now), now) == Cleanup(rl, now)
  {
  }

  /** Every record's window started no later than `now` (the clock only
      moves forward). */
  predicate StartedBy(rl: RateLimiter, now: int) {
    forall ip :: ip in rl.clients ==> rl.clients[ip].last <= now
  }

  /** The sweep is unobservable: any later request is decided exactly as it
      would have been without the sweep, and leaves the same record. An
      evicted record had run out of its window anyway, and a restarted
      window is the same as a new client's. */
  lemma {:induction false} CleanupUnobservable(rl: RateLimiter, now: int, ip: string, t: int)
    requires StartedBy(rl, now) && now <= t
    ensures Allow(Cleanup(rl, now), ip, t).allowed == Allow(rl, ip, t).allowed
    ensures Allow(Cleanup(rl, now), ip, t).limiter.clients[ip] == Allow(rl, ip, t).limiter.clients[ip]
  {
    var cl := Cleanup(rl, now);
    if ip in rl.clients && ip !in cl.clients {
      var c := rl.clients[ip];
      assert Stale(rl, c, now);
      if rl.window >= 0 {
        assert rl.window * 5 >= rl.window;
      }
      assert Expired(rl, c, t);
    }
  }

  /** Records never hold a negative budget nor more than one window's worth
      after the request that opened the window. */
  predicate TokensInRange(rl: RateLimiter) {
    forall ip :: ip in rl.clients ==> 0 <= rl.clients[ip].tokens <= rl.rate - 1
  }

  /** With a positive rate, `allow` and `cleanup` keep every budget within
      `0 .. rate-1`. */
  lemma {:induction false} TokensStayInRange(rl: RateLimiter, ip: string, now: int)
    requires rl.rate >= 1 && TokensInRange(rl)
    ensures TokensInRange(Allow(rl, ip, now).limiter)
    ensures TokensInRange(Cleanup(rl, now))
  {
    var d := Allow(rl, ip, now);
    forall k | k in d.limiter.clients
      ensures 0 <= d.limiter.clients[k].tokens <= rl.rate - 1
    {
      if k != ip {
        assert k in d.limiter.clients - {ip};
        assert d.limiter.clients[k] == rl.clients[k];
      }
    }
  }

  /** One client's requests never touch another client's budget: the answer
      to `b` is the same whether or not `a` was served first. */
  lemma {:induction false} ClientsIndependent(rl: RateLimiter, a: string, b: string, ta: int, tb: int)
    requires a != b
    ensures Allow(Allow(rl, a, ta).limiter, b, tb).allowed == Allow(rl, b, tb).allowed
    ensures b in rl.clients ==> Allow(rl, a, ta).limiter.clients[b] == rl.clients[b]
  {
    var first := Allow(rl, a, ta).limiter;
    assert b in rl.clients <==> b in first.clients - {a};
    if b in rl.clients {
      assert first.clients[b] == (first.clients - {a})[b];
    }
  }

  /** Serves one client's requests at the given clock readings, in order,
      and reports each answer. */
  function Replay(rl: RateLimiter, ip: string, times: seq<int>): (r: (seq<bool>, RateLimiter))
    ensures |r.0| == |times|
    decreases |times|
  {
    if |times| == 0 then ([], rl)
    else
      var d := Allow(rl, ip, times[0]);
      var rest := Replay(d.limiter, ip, times[1..]);
      ([d.allowed] + rest.0, rest.1)
  }

  /** Inside one window that started at `start`, a client with `n` tokens
      left gets exactly its next `n` requests admitted and every later one
      refused; the window start does not move. */
  lemma {:induction false} ReplayInsideWindow(rl: RateLimiter, ip: string, times: seq<int>)
    requires ip in rl.clients && rl.clients[ip].tokens >= 0
    requires forall k :: 0 <= k < |times| ==> times[k] - rl.clients[ip].last < rl.window
    ensures var r := Replay(rl, ip, times);
            && (forall k :: 0 <= k < |times| ==> (r.0[k] <==> k < rl.clients[ip].tokens))
            && ip in r.1.clients
            && r.1.clients[ip].last == rl.clients[ip].last
            && r.1.clients[ip].tokens == (if |times| <= rl.clients[ip].tokens then rl.clients[ip].tokens - |times| else 0)
            && r.1.rate == rl.rate && r.1.window == rl.window
    decreases |times|
  {
    if |times| > 0 {
      var c := rl.clients[ip];
      var d := Allow(rl, ip, times[0]);
      assert !Expired(rl, c, times[0]);
      ReplayInsideWindow(d.limiter, ip, times[1..]);
      var r := Replay(rl, ip, times);
      var rest := Replay(d.limiter, ip, times[1..]);
      assert r.0 == [d.allowed] + rest.0;
      forall k | 0 <= k < |times|
        ensures r.0[k] <==> k < c.tokens
      {
        if k > 0 {
          assert r.0[k] == rest.0[k - 1];
        }
      }
    }
  }

  /** The fixed-window promise for rate `R >= 1`: a client unseen so far (or
      whose window has run out) that sends `R + 1` requests within one
      window gets the first `R` admitted and the last refused, and its first
      request once the window has elapsed is admitted again. */
  lemma {:induction false} BurstThenReset(rl: RateLimiter, ip: string, times: seq<int>, later: int)
    requires rl.rate >= 1
    requires |times| == rl.rate + 1
    requires ip !in rl.clients || Expired(rl, rl.clients[ip], times[0])
    requires forall k :: 0 <= k < |times| ==> times[k] - times[0] < rl.window
    requires later - times[0] >= rl.window
    ensures forall k :: 0 <= k < rl.rate ==> Replay(rl, ip, times).0[k]
    ensures !Replay(rl, ip, times).0[rl.rate]
    ensures Allow(Replay(rl, ip, times).1, ip, later).allowed
  {
    var d := Allow(rl, ip, times[0]);
    assert d.allowed && d.limiter.clients[ip] == ClientRecord(rl.rate - 1, times[0]);
    var tail := times[1..];
    assert forall k :: 0 <= k < |tail| ==> tail[k] == times[k + 1];
    ReplayInsideWindow(d.limiter, ip, tail);
    var r := Replay(rl, ip, times);
    var rest := Replay(d.limiter, ip, tail);
    assert r.0 == [d.allowed] + rest.0;
    forall k | 0 <= k <= rl.rate
      ensures r.0[k] <==> k < rl.rate
    {
      if k > 0 {
        assert r.0[k] == rest.0[k - 1];
      }
    }
    assert Expired(r.1, r.1.clients[ip], later);
  }

  /** The accepted cost of fixed windows: a new client gets all of
      `2 * rate` requests admitted between `t0` and `t0 + window`, and
      `2 * rate - 1` of them fall in the two consecutive ticks
      `t0 + window - 1` and `t0 + window` that straddle the window's end. */
  lemma {:induction false} BoundaryAdmitsTwiceTheRate(rl: RateLimiter, ip: string, t0: int)
    requires rl.rate >= 1 && rl.window >= 2 && ip !in rl.clients
    ensures var t1 := t0 + rl.window - 1;
            var times := [t0] + seq(rl.rate - 1, _ => t1) + seq(rl.rate, _ => t1 + 1);
            var r := Replay(rl, ip, times);
            |times| == 2 * rl.rate && forall k :: 0 <= k < |times| ==> r.0[k]
  {
    var t1 := t0 + rl.window - 1;
    var first := seq(rl.rate - 1, _ => t1);
    var second := seq(rl.rate, _ => t1 + 1);
    var times := [t0] + first + second;
    var d := Allow(rl, ip, t0);
    assert times[1..] == first + second;
    ReplayPrefixSplit(d.limiter, ip, first, second);
    ReplayInsideWindow(d.limiter, ip, first);
    var mid := Replay(d.limiter, ip, first);
    var c := mid.1.clients[ip];
    assert c.last == t0;
    var d2 := Allow(mid.1, ip, t1 + 1);
    assert Expired(mid.1, c, t1 + 1);
    ReplayInsideWindow(d2.limiter, ip, second[1..]);
    ReplayPrefixSplit(mid.1, ip, [t1 + 1], second[1..]);
    assert [t1 + 1] + second[1..] == second;
    var r := Replay(rl, ip, times);
    var rest := Replay(d.limiter, ip, first + second);
    assert r.0 == [d.allowed] + rest.0;
    var r2 := Replay(mid.1, ip, second);
    var r3 := Replay(d2.limiter, ip, second[1..]);
    assert Replay(mid.1, ip, [t1 + 1]).0 == [d2.allowed];
    assert Replay(mid.1, ip, [t1 + 1]).1 == d2.limiter;
    forall k | 0 <= k < |times|
      ensures r.0[k]
    {
      if k == 0 {
        assert r.0[0] == d.allowed;
      } else if k - 1 < |first| {
        assert r.0[k] == rest.0[k - 1];
        assert rest.0[k - 1] == mid.0[k - 1];
      } else {
        assert r.0[k] == rest.0[k - 1];
        var j := k - 1 - |first|;
        assert rest.0[k - 1] == r2.0[j];
        if j > 0 {
          assert r2.0[j] == r3.0[j - 1];
        }
      }
    }
  }

  /** Replaying two runs back to back is replaying the first and then the
      second from where it left off. */
  lemma {:induction false} ReplayPrefixSplit(rl: RateLimiter, ip: string, xs: seq<int>, ys: seq<int>)
    ensures var a := Replay(rl, ip, xs);
            var b := Replay(a.1, ip, ys);
            Replay(rl, ip, xs + ys) == (a.0 + b.0, b.1)
    decreases |xs|
  {
    if |xs| > 0 {
      var d := Allow(rl, ip, xs[0]);
      assert (xs + ys)[0] == xs[0];
      assert (xs + ys)[1..] == xs[1..] + ys;
      ReplayPrefixSplit(d.limiter, ip, xs[1..], ys);
      var a := Replay(rl, ip, xs);
      var a' := Replay(d.limiter, ip, xs[1..]);
      assert a == ([d.allowed] + a'.0, a'.1);
      var b := Replay(a.1, ip, ys);
      var whole := Replay(d.limiter, ip, xs[1..] + ys);
      assert whole == (a'.0 + b.0, b.1);
      assert Replay(rl, ip, xs + ys) == ([d.allowed] + whole.0, whole.1);
      assert [d.allowed] + (a'.0 + b.0) == ([d.allowed] + a'.0) + b.0;
    } else {
      assert xs + ys == ys;
      var a := Replay(rl, ip, xs);
      assert a == ([], rl);
      var b := Replay(a.1, ip, ys);
      assert a.0 + b.0 == b.0;
    }
  }

  // ---------------------------------------------------------------------
  // The rate-limit wrapper

  /** How the limiter names a client, given its connecting address. */
  type KeyOf = string -> string

  /** The client key the source uses: the whole `RemoteAddr`, port
      included. */
  function RemoteAddrKey(remoteAddr: string): string {
    remoteAddr
  }

  /** The client key the limiter should use: the host part of the
      connecting `host:port` address (everything before the last colon),
      so that a client's connections from different ports share a budget. */
  function ClientHost(remoteAddr: string): (h: string)
    ensures h <= remoteAddr
    decreases |remoteAddr|
  {
    if |remoteAddr| == 0 then ""
    else if remoteAddr[|remoteAddr| - 1] == ':' then remoteAddr[..|remoteAddr| - 1]
    else if ':' in remoteAddr then ClientHost(remoteAddr[..|remoteAddr| - 1])
    else remoteAddr
  }

  /** The host part of `host:port` is `host` whenever the port has no colon. */
  lemma {:induction false} ClientHostOfHostPort(host: string, port: string)
    requires ':' !in port
    ensures ClientHost(host + ":" + port) == host
    decreases |port|
  {
    var a := host + ":" + port;
    if |port| == 0 {
      assert a[..|a| - 1] == host;
    } else {
      assert a[|a| - 1] == port[|port| - 1];
      assert a[..|a| - 1] == host + ":" + port[..|port| - 1];
      ClientHostOfHostPort(host, port[..|port| - 1]);
    }
  }

  /** Addresses of one host with different ports differ. */
  lemma PortsDiffer(host: string, p1: string, p2: string)
    requires p1 != p2
    ensures host + ":" + p1 != host + ":" + p2
  {
    assert (host + ":" + p1)[|host| + 1..] == p1;
    assert (host + ":" + p2)[|host| + 1..] == p2;
  }

  /** The limiter step shared by both keyings: disabled at rate 0, otherwise
      an `allow` on `key` that either refuses with 429 or hands over. */
  function Admit(g: Gate, key: string, req: Request, now: int, next: Request -> Response): (r: (Response, Gate))
    ensures g.limiter.rate == 0 ==> r == (next(req), g)
    ensures g.limiter.rate != 0 ==>
              && r.1 == g.(limiter := Allow(g.limiter, key, now).limiter)
              && r.0 == if Allow(g.limiter, key, now).allowed then next(req) else RateLimitedResponse()
  {
    if g.limiter.rate == 0 then (next(req), g)
    else
      var d := Allow(g.limiter, key, now);
      if !d.allowed then (RateLimitedResponse(), g.(limiter := d.limiter))
      else (next(req), g.(limiter := d.limiter))
  }

  /** `rateLimit(next)` as written: the counter is keyed by the whole
      `RemoteAddr`, port included. */
  function RateLimitAsWritten(g: Gate, req: Request, now: int, next: Request -> Response): (r: (Response, Gate))
    ensures g.limiter.rate == 0 ==> r == (next(req), g)
    ensures g.limiter.rate != 0 ==>
              r.1.limiter == Allow(g.limiter, req.remoteAddr, now).limiter && r.1.apiKey == g.apiKey
              && r.0 == if Allow(g.limiter, req.remoteAddr, now).allowed then next(req) else RateLimitedResponse()
  {
    Admit(g, req.remoteAddr, req, now, next)
  }

  /** With rate 1, two connections of one host from two ports are both
      admitted inside one window by the source's keying. */
  lemma PortsDodgeLimitAsWritten(next: Request -> Response)
    ensures var g := NewMiddleware("", 1, 60);
            var r1 := Request("POST", "/api/v1/search", "10.0.0.1:1111", map[], "");
            var r2 := Request("POST", "/api/v1/search", "10.0.0.1:2222", map[], "");
            var s1 := RateLimitAsWritten(g, r1, 0, next);
            var s2 := RateLimitAsWritten(s1.1, r2, 0, next);
            s1.0 == next(r1) && s2.0 == next(r2)
  {
    var g := NewMiddleware("", 1, 60);
    var s1 := RateLimitAsWritten(g, Request("POST", "/api/v1/search", "10.0.0.1:1111", map[], ""), 0, next);
    assert "10.0.0.1:2222" !in s1.1.limiter.clients;
  }

  /** `rateLimit(next)` keyed by the client host. */
  function RateLimit(g: Gate, req: Request, now: int, next: Request -> Response): (r: (Response, Gate))
    ensures g.limiter.rate == 0 ==> r == (next(req), g) && r.1.limiter.clients == g.limiter.clients
    ensures g.limiter.rate != 0 ==>
              r.1.limiter == Allow(g.limiter, ClientHost(req.remoteAddr), now).limiter && r.1.apiKey == g.apiKey
              && r.0 == if Allow(g.limiter, ClientHost(req.remoteAddr), now).allowed then next(req) else RateLimitedResponse()
  {
    Admit(g, ClientHost(req.remoteAddr), req, now, next)
  }

  /** Keyed by host, connections of one host from any two ports draw on one
      budget: with rate 1 the second request inside the window is refused. */
  lemma {:induction false} PortsShareBudget(host: string, p1: string, p2: string, next: Request -> Response)
    requires ':' !in p1 && ':' !in p2
    ensures var g := NewMiddleware("", 1, 60);
            var r1 := Request("POST", "/api/v1/search", host + ":" + p1, map[], "");
            var r2 := Request("POST", "/api/v1/search", host + ":" + p2, map[], "");
            var s1 := RateLimit(g, r1, 0, next);
            var s2 := RateLimit(s1.1, r2, 0, next);
            s1.0 == next(r1) && s2.0 == RateLimitedResponse()
  {
    ClientHostOfHostPort(host, p1);
    ClientHostOfHostPort(host, p2);
  }
}
