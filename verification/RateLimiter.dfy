/** The per-IP limiter cache: filled eagerly from the whitelist, lazily by checks, rebuilt on reload. */
module RateLimiter {
  import opened Prelude

  const MAX_IP_LIMITERS: nat := 50000

  type Ip = nat

  datatype Limits = Limits(rps: nat, tps: nat, burstRps: nat, burstTps: nat)

  datatype WhitelistEntry = WhitelistEntry(
    ip: Ip, rps: Option<nat>, tps: Option<nat>, burstRps: Option<nat>, burstTps: Option<nat>)

  datatype Config = Config(whitelist: seq<WhitelistEntry>, defaults: Limits)

  /** A limiter is its quota: refill per second and burst capacity. */
  datatype Quota = Quota(perSecond: nat, burst: nat)

  datatype IpLimiters = IpLimiters(rps: Quota, tps: Quota)

  function AtLeastOne(x: nat): nat {
    if x == 0 then 1 else x
  }

  /** u32 addition without overflow checks. */
  function CreateLimiter(rate: nat, burst: nat): Quota {
    Quota(AtLeastOne(rate), AtLeastOne((rate + burst) % U32))
  }

  /** A limiter's burst covers one second at its rate, unless the sum overflowed (at rate 1 even then). */
  lemma BurstCoversRate(rate: nat, burst: nat)
    requires rate < U32 && burst < U32
    ensures var q := CreateLimiter(rate, burst);
            && q.perSecond == (if rate == 0 then 1 else rate)
            && (rate + burst < U32 ==> q.burst == if rate + burst == 0 then 1 else rate + burst)
            && (q.burst >= q.perSecond <==> rate + burst < U32 || rate == 1)
  {
  }

  function LimitersOf(l: Limits): IpLimiters {
    IpLimiters(CreateLimiter(l.rps, l.burstRps), CreateLimiter(l.tps, l.burstTps))
  }

  function Or(x: Option<nat>, default: nat): nat {
    if x.Some? then x.value else default
  }

  function EntryLimits(c: Config, e: WhitelistEntry): Limits {
    Limits(Or(e.rps, c.defaults.rps), Or(e.tps, c.defaults.tps),
           Or(e.burstRps, c.defaults.burstRps), Or(e.burstTps, c.defaults.burstTps))
  }

  /** get_ip_rps and its siblings: the first entry for the IP decides. */
  function FirstFor(c: Config, entries: seq<WhitelistEntry>, ip: Ip): Limits {
    if entries == [] then c.defaults
    else if entries[0].ip == ip then EntryLimits(c, entries[0])
    else FirstFor(c, entries[1..], ip)
  }

  function Configured(c: Config, ip: Ip): IpLimiters {
    LimitersOf(FirstFor(c, c.whitelist, ip))
  }

  /** Field by field, the quotas an IP is owed: its first entry's figures, the defaults where that has none or there is none. */
  lemma {:induction false} QuotasExact(c: Config, entries: seq<WhitelistEntry>, ip: Ip)
    ensures var l := FirstFor(c, entries, ip);
            || (l == c.defaults && forall e :: e in entries ==> e.ip != ip)
            || (exists i :: 0 <= i < |entries| && entries[i].ip == ip && (forall j :: 0 <= j < i ==> entries[j].ip != ip)
                            && l.rps == (if entries[i].rps.Some? then entries[i].rps.value else c.defaults.rps)
                            && l.tps == (if entries[i].tps.Some? then entries[i].tps.value else c.defaults.tps)
                            && l.burstRps == (if entries[i].burstRps.Some? then entries[i].burstRps.value else c.defaults.burstRps)
                            && l.burstTps == (if entries[i].burstTps.Some? then entries[i].burstTps.value else c.defaults.burstTps))
  {
    if entries != [] && entries[0].ip != ip {
      QuotasExact(c, entries[1..], ip);
      var rest := entries[1..];
      if i :| 0 <= i < |rest| && rest[i].ip == ip && forall j :: 0 <= j < i ==> rest[j].ip != ip {
        assert entries[i + 1] == rest[i];
        assert forall j :: 1 <= j < i + 1 ==> entries[j] == rest[j - 1];
      }
    }
  }

  /** The request limiter is built from the request figures and the transaction limiter from the transaction figures. */
  lemma LimitersExact(c: Config, ip: Ip)
    ensures var l := FirstFor(c, c.whitelist, ip);
            var q := Configured(c, ip);
            && q.rps.perSecond == (if l.rps == 0 then 1 else l.rps) && q.tps.perSecond == (if l.tps == 0 then 1 else l.tps)
            && (0 < l.rps + l.burstRps < U32 ==> q.rps.burst == l.rps + l.burstRps)
            && (0 < l.tps + l.burstTps < U32 ==> q.tps.burst == l.tps + l.burstTps)
  {
  }

  datatype Cache = Cache(limiters: map<Ip, IpLimiters>, config: Config)

  /** Eager insertion, entry by entry: the last entry for an IP decides. */
  function Loaded(c: Config, entries: seq<WhitelistEntry>): map<Ip, IpLimiters> {
    if entries == [] then map[]
    else
      var e := entries[|entries| - 1];
      Loaded(c, entries[..|entries| - 1])[e.ip := LimitersOf(EntryLimits(c, e))]
  }

  function Reloaded(c: Config): Cache {
    Cache(Loaded(c, c.whitelist), c)
  }

  predicate Refused(s: Cache, ip: Ip) {
    ip !in s.limiters && |s.limiters| >= MAX_IP_LIMITERS
  }

  function Touched(s: Cache, ip: Ip): Cache {
    if Refused(s, ip) || ip in s.limiters then s
    else s.(limiters := s.limiters[ip := Configured(s.config, ip)])
  }

  class Middleware {
    var ipLimiters: map<Ip, IpLimiters>
    var config: Config

    ghost function View(): Cache
      reads this
    {
      Cache(ipLimiters, config)
    }

    constructor (config: Config)
      ensures View() == Reloaded(config)
    {
      this.config := config;
      ipLimiters := map[];
      new;
      Fill();
    }

    /** Insert a limiter for every whitelist entry of the current config. */
    method Fill()
      requires ipLimiters == map[]
      modifies this`ipLimiters
      ensures View() == Reloaded(config)
    {
      for i := 0 to |config.whitelist|
        invariant ipLimiters == Loaded(config, config.whitelist[..i])
      {
        assert config.whitelist[..i + 1][..i] == config.whitelist[..i];
        var entry := config.whitelist[i];
        ipLimiters := ipLimiters[entry.ip := LimitersOf(EntryLimits(config, entry))];
      }
      assert config.whitelist[..|config.whitelist|] == config.whitelist;
    }

    method Reload(config: Config)
      modifies this
      ensures View() == Reloaded(config)
    {
      this.config := config;
      ipLimiters := map[];
      Fill();
    }

    method GetOrCreateLimiters(ip: Ip) returns (l: IpLimiters)
      modifies this`ipLimiters
      ensures ip in ipLimiters && l == ipLimiters[ip]
      ensures ipLimiters == if ip in old(ipLimiters) then old(ipLimiters)
                            else old(ipLimiters)[ip := Configured(config, ip)]
    {
      if ip in ipLimiters {
        return ipLimiters[ip];
      }
      l := Configured(config, ip);
      ipLimiters := ipLimiters[ip := l];
    }

    /** The limiters' own verdicts are given; the error says whether the transaction limit was hit. */
    method Check(ip: Ip, isSendTx: bool, rpsOk: bool, tpsOk: bool) returns (r: Result<(), bool>)
      modifies this`ipLimiters
      ensures View() == Touched(old(View()), ip)
      ensures r.Ok? <==> !Refused(old(View()), ip) && rpsOk && (isSendTx ==> tpsOk)
      ensures r == Err(true) ==> rpsOk && isSendTx && !tpsOk
    {
      if ip !in ipLimiters && |ipLimiters| >= MAX_IP_LIMITERS {
        return Err(false);
      }
      var _ := GetOrCreateLimiters(ip);
      if !rpsOk {
        return Err(false);
      }
      if isSendTx && !tpsOk {
        return Err(true);
      }
      return Ok(());
    }
  }

  // ---------------------------------------------------------------------------------------------
  // Agreement with the configuration
  // ---------------------------------------------------------------------------------------------

  /** Everything cached has the quota the current configuration prescribes. */
  ghost predicate Agrees(s: Cache) {
    forall ip :: ip in s.limiters ==> s.limiters[ip] == Configured(s.config, ip)
  }

  function LastFor(c: Config, entries: seq<WhitelistEntry>, ip: Ip): Limits {
    if entries == [] then c.defaults
    else if entries[|entries| - 1].ip == ip then EntryLimits(c, entries[|entries| - 1])
    else LastFor(c, entries[..|entries| - 1], ip)
  }

  /** For every listed IP the first and the last entry amount to the same quotas. */
  ghost predicate Consistent(c: Config) {
    forall e :: e in c.whitelist ==>
      LimitersOf(FirstFor(c, c.whitelist, e.ip)) == LimitersOf(LastFor(c, c.whitelist, e.ip))
  }

  ghost predicate DistinctIps(entries: seq<WhitelistEntry>) {
    forall i, j :: 0 <= i < j < |entries| ==> entries[i].ip != entries[j].ip
  }

  lemma {:induction false} FirstAt(c: Config, entries: seq<WhitelistEntry>, i: nat)
    requires DistinctIps(entries) && i < |entries|
    ensures FirstFor(c, entries, entries[i].ip) == EntryLimits(c, entries[i])
  {
    if i > 0 {
      FirstAt(c, entries[1..], i - 1);
    }
  }

  lemma {:induction false} LastAt(c: Config, entries: seq<WhitelistEntry>, i: nat)
    requires DistinctIps(entries) && i < |entries|
    ensures LastFor(c, entries, entries[i].ip) == EntryLimits(c, entries[i])
  {
    if i < |entries| - 1 {
      LastAt(c, entries[..|entries| - 1], i);
    }
  }

  lemma DistinctIsConsistent(c: Config)
    requires DistinctIps(c.whitelist)
    ensures Consistent(c)
  {
    forall e | e in c.whitelist
      ensures LimitersOf(FirstFor(c, c.whitelist, e.ip)) == LimitersOf(LastFor(c, c.whitelist, e.ip))
    {
      var i :| 0 <= i < |c.whitelist| && c.whitelist[i] == e;
      FirstAt(c, c.whitelist, i);
      LastAt(c, c.whitelist, i);
    }
  }

  lemma {:induction false} LoadedIsLast(c: Config, entries: seq<WhitelistEntry>, ip: Ip)
    ensures ip in Loaded(c, entries) <==> exists e :: e in entries && e.ip == ip
    ensures ip in Loaded(c, entries) ==> Loaded(c, entries)[ip] == LimitersOf(LastFor(c, entries, ip))
    ensures |Loaded(c, entries)| <= |entries|
  {
    if entries != [] {
      var n := |entries| - 1;
      LoadedIsLast(c, entries[..n], ip);
      assert entries == entries[..n] + [entries[n]];
      assert entries[n] in entries;
    }
  }

  function CheckAll(s: Cache, ips: seq<Ip>): Cache {
    if ips == [] then s else Touched(CheckAll(s, ips[..|ips| - 1]), ips[|ips| - 1])
  }

  lemma {:induction false} ChecksKeep(s: Cache, ips: seq<Ip>)
    ensures var t := CheckAll(s, ips);
            && t.config == s.config
            && (forall ip :: ip in s.limiters ==> ip in t.limiters && t.limiters[ip] == s.limiters[ip])
            && (forall ip :: ip in t.limiters && ip !in s.limiters ==> t.limiters[ip] == Configured(s.config, ip))
            && |t.limiters| <= (if |s.limiters| > MAX_IP_LIMITERS then |s.limiters| else MAX_IP_LIMITERS)
  {
    if ips != [] {
      ChecksKeep(s, ips[..|ips| - 1]);
    }
  }

  lemma ChecksKeepAgreement(s: Cache, ips: seq<Ip>)
    ensures Agrees(CheckAll(s, ips)) <==> Agrees(s)
  {
    ChecksKeep(s, ips);
    var t := CheckAll(s, ips);
    if !Agrees(s) {
      var ip :| ip in s.limiters && s.limiters[ip] != Configured(s.config, ip);
      assert ip in t.limiters && t.limiters[ip] != Configured(t.config, ip);
    }
  }

  lemma LoadAgreesIffConsistent(c: Config)
    ensures Agrees(Reloaded(c)) <==> Consistent(c)
  {
    var m := Loaded(c, c.whitelist);
    if Consistent(c) {
      forall ip | ip in m ensures m[ip] == Configured(c, ip) {
        LoadedIsLast(c, c.whitelist, ip);
        var e :| e in c.whitelist && e.ip == ip;
      }
    } else {
      var e :| e in c.whitelist && LimitersOf(FirstFor(c, c.whitelist, e.ip)) != LimitersOf(LastFor(c, c.whitelist, e.ip));
      LoadedIsLast(c, c.whitelist, e.ip);
    }
  }

  /**
   After a (re)load and any number of checks, every cached limiter agrees with the configuration if and
   only if the whitelist's repeated entries agree among themselves; the cache never exceeds its bound.
   */
  lemma CacheAgreesIffConsistent(c: Config, ips: seq<Ip>)
    ensures var s := CheckAll(Reloaded(c), ips);
            && (Agrees(s) <==> Consistent(c))
            && |s.limiters| <= (if |c.whitelist| > 50000 then |c.whitelist| else 50000)
  {
    LoadAgreesIffConsistent(c);
    ChecksKeepAgreement(Reloaded(c), ips);
    ChecksKeep(Reloaded(c), ips);
    LoadedIsLast(c, c.whitelist, 0);
  }

  /** The first n addresses. */
  function Addresses(n: nat): seq<Ip> {
    if n == 0 then [] else Addresses(n - 1) + [n - 1]
  }

  /** The cap is real: with no whitelist, n different addresses fill the cache up to 50000 entries and no further. */
  lemma {:induction false} FillsToCap(c: Config, n: nat)
    requires c.whitelist == []
    ensures var s := CheckAll(Reloaded(c), Addresses(n));
            && |s.limiters| == (if n < 50000 then n else 50000)
            && forall ip :: ip in s.limiters ==> ip < n
  {
    if n > 0 {
      FillsToCap(c, n - 1);
      var s := CheckAll(Reloaded(c), Addresses(n - 1));
      assert Addresses(n)[..|Addresses(n)| - 1] == Addresses(n - 1);
      assert CheckAll(Reloaded(c), Addresses(n)) == Touched(s, n - 1);
      OneMoreAddress(s, n - 1);
    }
  }

  lemma OneMoreAddress(s: Cache, ip: Ip)
    requires ip !in s.limiters
    ensures |Touched(s, ip).limiters| == if |s.limiters| >= 50000 then |s.limiters| else |s.limiters| + 1
    ensures Touched(s, ip).limiters.Keys <= s.limiters.Keys + {ip}
  {
  }

  datatype Event = Reloading(config: Config) | Checking(ip: Ip)

  function Exec(c: Config, es: seq<Event>): Cache {
    if es == [] then Reloaded(c)
    else
      var s := Exec(c, es[..|es| - 1]);
      match es[|es| - 1]
      case Reloading(d) => Reloaded(d)
      case Checking(ip) => Touched(s, ip)
  }

  /** Every state of a run is the last (re)load followed by checks. */
  lemma {:induction false} RunIsReloadThenChecks(c: Config, es: seq<Event>)
    ensures exists ips :: Exec(c, es) == CheckAll(Reloaded(Exec(c, es).config), ips)
  {
    if es == [] {
      assert Exec(c, es) == CheckAll(Reloaded(Exec(c, es).config), []);
    } else {
      var n := |es| - 1;
      match es[n]
      case Reloading(d) =>
        assert Exec(c, es) == CheckAll(Reloaded(Exec(c, es).config), []);
      case Checking(ip) =>
        RunIsReloadThenChecks(c, es[..n]);
        var s := Exec(c, es[..n]);
        var ips :| s == CheckAll(Reloaded(s.config), ips);
        assert (ips + [ip])[..|ips|] == ips;
        assert Exec(c, es) == CheckAll(Reloaded(s.config), ips + [ip]);
    }
  }

  /** In every run of reloads and checks the cache agrees with the current configuration exactly when it is consistent. */
  lemma LimiterCacheAgrees(c: Config, es: seq<Event>)
    ensures var s := Exec(c, es);
            && (Agrees(s) <==> Consistent(s.config))
            && (DistinctIps(s.config.whitelist) ==> Agrees(s))
            && |s.limiters| <= (if |s.config.whitelist| > 50000 then |s.config.whitelist| else 50000)
  {
    var s := Exec(c, es);
    RunIsReloadThenChecks(c, es);
    var ips :| s == CheckAll(Reloaded(s.config), ips);
    CacheAgreesIffConsistent(s.config, ips);
    if DistinctIps(s.config.whitelist) {
      DistinctIsConsistent(s.config);
    }
  }

  /** One IP listed twice with different limits: the cache holds the last entry's, lookup answers the first's. */
  lemma DuplicateEntriesDisagree(ip: Ip, low: nat, high: nat, d: Limits)
    requires 0 < low < high < U32
    ensures var entry := (rps: nat) => WhitelistEntry(ip, Some(rps), None, None, None);
            !Agrees(Reloaded(Config([entry(low), entry(high)], d)))
  {
    var e1, e2 := WhitelistEntry(ip, Some(low), None, None, None), WhitelistEntry(ip, Some(high), None, None, None);
    var c := Config([e1, e2], d);
    LoadedIsLast(c, c.whitelist, ip);
    assert e1 in c.whitelist;
    assert Loaded(c, c.whitelist)[ip].rps.perSecond == high;
    assert Configured(c, ip).rps.perSecond == low;
  }
}
