/** The per-token fixed-window limiter of the signing proxy (src/gateway-signing-proxy.ts:443-464). */
module RateLimiter {
  import opened Wrappers

  type Jti = nat

  datatype Bucket = Bucket(windowStart: int, count: nat)
  type Buckets = map<Jti, Bucket>

  datatype Config = Config(limit: int, windowMs: int)
  datatype Request = Request(jti: Jti, now: int)

  const GC_THRESHOLD := 4096

  /** What one request does to its own token's bucket. */
  function Decide(cfg: Config, b: Option<Bucket>, now: int): (Bucket, bool) {
    if b.None? || now - b.value.windowStart >= cfg.windowMs then (Bucket(now, 1), true)
    else if b.value.count >= cfg.limit then (b.value, false)
    else (b.value.(count := b.value.count + 1), true)
  }

  function BucketOf(buckets: Buckets, jti: Jti): Option<Bucket> {
    if jti in buckets then Some(buckets[jti]) else None
  }

  /** The limiter without garbage collection. */
  function Allow(cfg: Config, buckets: Buckets, r: Request): (Buckets, bool) {
    var (b, ok) := Decide(cfg, BucketOf(buckets, r.jti), r.now);
    (buckets[r.jti := b], ok)
  }

  function Sweep(cfg: Config, buckets: Buckets, now: int): Buckets {
    map k | k in buckets && now - buckets[k].windowStart < cfg.windowMs :: buckets[k]
  }

  /** The limiter as written: a window that opens sweeps the others once the map is large. */
  function AllowGc(cfg: Config, buckets: Buckets, r: Request): (Buckets, bool) {
    var b := BucketOf(buckets, r.jti);
    var (buckets', ok) := Allow(cfg, buckets, r);
    var opens := b.None? || r.now - b.value.windowStart >= cfg.windowMs;
    (if opens && |buckets'| > GC_THRESHOLD then Sweep(cfg, buckets', r.now) else buckets', ok)
  }

  class Limiter {
    const cfg: Config
    var buckets: Buckets

    constructor (limit: int, windowMs: int)
      ensures cfg == Config(limit, windowMs) && buckets == map[]
    {
      cfg, buckets := Config(limit, windowMs), map[];
    }

    method Request(r: Request) returns (ok: bool)
      modifies this
      ensures (buckets, ok) == AllowGc(cfg, old(buckets), r)
    {
      if r.jti !in buckets || r.now - buckets[r.jti].windowStart >= cfg.windowMs {
        buckets := buckets[r.jti := Bucket(r.now, 1)];
        if |buckets| > GC_THRESHOLD {
          var all := buckets;
          var rest := all.Keys;
          while rest != {}
            invariant rest <= all.Keys
            invariant buckets == map k | k in all && (k in rest || r.now - all[k].windowStart < cfg.windowMs) :: all[k]
            decreases rest
          {
            var k :| k in rest;
            rest := rest - {k};
            if r.now - all[k].windowStart >= cfg.windowMs { buckets := buckets - {k}; }
          }
          assert buckets == Sweep(cfg, all, r.now);
        }
        return true;
      }
      assert buckets == buckets[r.jti := buckets[r.jti]];
      if buckets[r.jti].count >= cfg.limit { return false; }
      buckets := buckets[r.jti := buckets[r.jti].(count := buckets[r.jti].count + 1)];
      ok := true;
    }
  }

  // ---------------------------------------------------------------- runs

  function Last(rs: seq<Request>): Request
    requires rs != []
  {
    rs[|rs| - 1]
  }

  function Init(rs: seq<Request>): seq<Request>
    requires rs != []
  {
    rs[..|rs| - 1]
  }

  function Run(cfg: Config, rs: seq<Request>): Buckets {
    if rs == [] then map[] else Allow(cfg, Run(cfg, Init(rs)), Last(rs)).0
  }

  function RunGc(cfg: Config, rs: seq<Request>): Buckets {
    if rs == [] then map[] else AllowGc(cfg, RunGc(cfg, Init(rs)), Last(rs)).0
  }

  /** The answer to the last request of a run. */
  predicate Answer(cfg: Config, rs: seq<Request>)
    requires rs != []
  {
    Allow(cfg, Run(cfg, Init(rs)), Last(rs)).1
  }

  predicate AnswerGc(cfg: Config, rs: seq<Request>)
    requires rs != []
  {
    AllowGc(cfg, RunGc(cfg, Init(rs)), Last(rs)).1
  }

  ghost predicate Nondecreasing(rs: seq<Request>) {
    forall i, j :: 0 <= i < j < |rs| ==> rs[i].now <= rs[j].now
  }

  /** The collected map misses only windows that have fully elapsed. */
  ghost predicate Collected(cfg: Config, all: Buckets, kept: Buckets, now: int) {
    && (forall k :: k in kept ==> k in all && kept[k] == all[k])
    && (forall k :: k in all && k !in kept ==> now - all[k].windowStart >= cfg.windowMs)
  }

  lemma CollectedStep(cfg: Config, all: Buckets, kept: Buckets, before: int, r: Request)
    requires Collected(cfg, all, kept, before) && before <= r.now
    ensures AllowGc(cfg, kept, r).1 == Allow(cfg, all, r).1
    ensures Collected(cfg, Allow(cfg, all, r).0, AllowGc(cfg, kept, r).0, r.now)
  {
  }

  lemma {:induction false} RunsCollected(cfg: Config, rs: seq<Request>)
    requires Nondecreasing(rs) && rs != []
    ensures Collected(cfg, Run(cfg, rs), RunGc(cfg, rs), Last(rs).now) && AnswerGc(cfg, rs) == Answer(cfg, rs)
  {
    var before := if |rs| == 1 then Last(rs).now else Last(Init(rs)).now;
    if |rs| > 1 { RunsCollected(cfg, Init(rs)); }
    CollectedStep(cfg, Run(cfg, Init(rs)), RunGc(cfg, Init(rs)), before, Last(rs));
  }

  /** Garbage collection is unobservable: every request of every run with a nondecreasing clock gets
      the answer it would get without it. */
  lemma GcIsUnobservable(cfg: Config, rs: seq<Request>, n: nat)
    requires Nondecreasing(rs) && n < |rs|
    ensures AnswerGc(cfg, rs[..n + 1]) == Answer(cfg, rs[..n + 1])
  {
    RunsCollected(cfg, rs[..n + 1]);
  }

  // ---------------------------------------------------------------- how much is granted

  /** Granted requests of a token with time in [from, from + windowMs). */
  function Granted(cfg: Config, rs: seq<Request>, jti: Jti, from: int): nat {
    if rs == [] then 0
    else
      Granted(cfg, Init(rs), jti, from) +
      if Last(rs).jti == jti && from <= Last(rs).now < from + cfg.windowMs && Answer(cfg, rs) then 1 else 0
  }

  function Capacity(cfg: Config): nat {
    if cfg.limit >= 1 then cfg.limit else 1
  }

  /** What a bucket says about the grants g seen so far in [from, from + windowMs). */
  ghost predicate Accounted(cfg: Config, b: Option<Bucket>, last: int, from: int, g: nat) {
    match b
    case None => g == 0
    case Some(Bucket(start, count)) =>
      && 1 <= count <= Capacity(cfg) && start <= last
      && (last < from || start + cfg.windowMs <= from ==> g == 0)
      && (start < from ==> g < count)
      && (start == from ==> g <= count)
      && (from <= start < from + cfg.windowMs ==> g < Capacity(cfg) + count)
      && (from + cfg.windowMs <= start ==> g < 2 * Capacity(cfg))
  }

  lemma AccountedStep(cfg: Config, b: Option<Bucket>, last: int, now: int, from: int, g: nat)
    requires cfg.windowMs > 0 && Accounted(cfg, b, last, from, g) && last <= now
    ensures var (b', ok) := Decide(cfg, b, now);
      Accounted(cfg, Some(b'), now, from, g + if from <= now < from + cfg.windowMs && ok then 1 else 0)
  {
  }

  lemma {:induction false} RunAccounted(cfg: Config, rs: seq<Request>, jti: Jti, from: int)
    requires cfg.windowMs > 0 && Nondecreasing(rs) && rs != []
    ensures Accounted(cfg, BucketOf(Run(cfg, rs), jti), Last(rs).now, from, Granted(cfg, rs, jti, from))
  {
    var before := if |rs| == 1 then Last(rs).now else Last(Init(rs)).now;
    if |rs| > 1 { RunAccounted(cfg, Init(rs), jti, from); }
    if Last(rs).jti == jti {
      AccountedStep(cfg, BucketOf(Run(cfg, Init(rs)), jti), before, Last(rs).now, from, Granted(cfg, Init(rs), jti, from));
    }
  }

  /** A token is granted at most `limit` requests in its current window (one, when the limit is
      below one), and fewer than twice that in any interval of the window's length. */
  lemma GrantsAreBounded(cfg: Config, rs: seq<Request>, jti: Jti, from: int)
    requires cfg.windowMs > 0 && Nondecreasing(rs)
    ensures Granted(cfg, rs, jti, from) < 2 * Capacity(cfg)
    ensures jti in Run(cfg, rs) ==> Granted(cfg, rs, jti, Run(cfg, rs)[jti].windowStart) <= Capacity(cfg)
  {
    if rs != [] {
      RunAccounted(cfg, rs, jti, from);
      if jti in Run(cfg, rs) { RunAccounted(cfg, rs, jti, Run(cfg, rs)[jti].windowStart); }
    }
  }

  /** When the token's current window opened: with its first request, and with each that finds the
      window before it over. */
  function WindowOpen(cfg: Config, rs: seq<Request>, jti: Jti): Option<int> {
    if rs == [] then None
    else
      var open := WindowOpen(cfg, Init(rs), jti);
      if Last(rs).jti == jti && (open.None? || Last(rs).now >= open.value + cfg.windowMs) then Some(Last(rs).now) else open
  }

  lemma {:induction false} BucketIsWindow(cfg: Config, rs: seq<Request>, jti: Jti)
    requires cfg.windowMs > 0 && Nondecreasing(rs)
    ensures BucketOf(Run(cfg, rs), jti) ==
      match WindowOpen(cfg, rs, jti)
      case None => None
      case Some(open) => Some(Bucket(open, Granted(cfg, rs, jti, open)))
    ensures rs != [] && WindowOpen(cfg, rs, jti).Some? ==> WindowOpen(cfg, rs, jti).value <= Last(rs).now
  {
    if rs != [] {
      var r := Last(rs);
      BucketIsWindow(cfg, Init(rs), jti);
      if |rs| > 1 && r.jti == jti { RunAccounted(cfg, Init(rs), jti, r.now); }
      hide Nondecreasing, AllowGc;
    }
  }

  /** Main result: exactly those requests are granted that open a window, or find fewer than `limit`
      granted in the token's current one. */
  lemma GrantedExactlyWhenRoom(cfg: Config, rs: seq<Request>)
    requires cfg.windowMs > 0 && Nondecreasing(rs) && rs != []
    ensures var r, before := Last(rs), Init(rs);
      var open := WindowOpen(cfg, before, r.jti);
      Answer(cfg, rs) <==>
        open.None? || r.now >= open.value + cfg.windowMs || Granted(cfg, before, r.jti, open.value) < cfg.limit
  {
    BucketIsWindow(cfg, Init(rs), Last(rs).jti);
    hide Granted, WindowOpen, Run, Nondecreasing;
  }

  /** The first request of a token is granted whatever the limit is. */
  lemma FirstRequestIsGranted(cfg: Config, r: Request)
    requires cfg.windowMs > 0
    ensures Granted(cfg, [r], r.jti, r.now) == 1
    ensures Run(cfg, [r]) == map[r.jti := Bucket(r.now, 1)]
  {
    var rs := [r];
    assert Init(rs) == [] && Last(rs) == r;
    assert Granted(cfg, [], r.jti, r.now) == 0;
  }

  /** Exactly: no token is ever granted more than `limit` requests in a window iff the limit is at
      least one; below that, one is granted all the same. */
  lemma LimitIsKeptIff(cfg: Config)
    requires cfg.windowMs > 0
    ensures cfg.limit >= 1 <==>
      forall rs, jti :: Nondecreasing(rs) && jti in Run(cfg, rs) ==>
        Granted(cfg, rs, jti, Run(cfg, rs)[jti].windowStart) <= cfg.limit
  {
    if cfg.limit >= 1 {
      forall rs, jti | Nondecreasing(rs) && jti in Run(cfg, rs)
        ensures Granted(cfg, rs, jti, Run(cfg, rs)[jti].windowStart) <= cfg.limit
      {
        GrantsAreBounded(cfg, rs, jti, 0);
      }
    } else {
      var r := Request(0, 0);
      FirstRequestIsGranted(cfg, r);
      assert Nondecreasing([r]) && 0 in Run(cfg, [r]);
    }
  }

  /** The bound is met: two requests a window, and three of them within one window's length. */
  lemma BoundIsMet()
    ensures var rs := [Request(0, 0), Request(0, 9), Request(0, 10), Request(0, 10)];
      Granted(Config(2, 10), rs, 0, 9) == 3
  {
    var cfg := Config(2, 10);
    var rs := [Request(0, 0), Request(0, 9), Request(0, 10), Request(0, 10)];
    assert Init(rs) == [Request(0, 0), Request(0, 9), Request(0, 10)];
    assert Init(Init(rs)) == [Request(0, 0), Request(0, 9)];
    assert Init(Init(Init(rs))) == [Request(0, 0)];
    assert Run(cfg, [Request(0, 0)]) == map[0 := Bucket(0, 1)];
    assert Run(cfg, Init(Init(rs))) == map[0 := Bucket(0, 2)];
    assert Run(cfg, Init(rs)) == map[0 := Bucket(10, 1)];
    assert Granted(cfg, Init(Init(Init(rs))), 0, 9) == 0;
    assert Granted(cfg, Init(Init(rs)), 0, 9) == 1;
    assert Granted(cfg, Init(rs), 0, 9) == 2;
  }
}
