/**
 Advisory lookups: a bounded, expiring cache and a circuit breaker in front of OSV
 (src/advisory/mod.rs).  A lookup is two steps under the lock with the query in
 between, so concurrent lookups interleave as sequences of such steps.
 */
module Advisories {
  import opened Text
  import opened CircuitBreaker

  datatype Registry = Pypi | Npm | Cargo | Maven | Nuget | Hex | Rubygems | Packagist | Yarn | Cpan

  /** `Ecosystem::for_registry` */
  function EcosystemOf(r: Registry): Option<string> {
    match r
    case Pypi => Some("PyPI")
    case Npm => Some("npm")
    case Yarn => Some("npm")
    case Cargo => Some("crates.io")
    case Maven => Some("Maven")
    case Nuget => Some("NuGet")
    case Hex => Some("Hex")
    case Rubygems => Some("RubyGems")
    case Packagist => Some("Packagist")
    case Cpan => None
  }

  datatype Advisory = Advisory(id: string, other: string)

  /** `active` is the switch together with a non-blank endpoint; `ttl` and `cooldown` are in ticks. */
  datatype LookupConfig = LookupConfig(active: bool, ttl: nat, threshold: U32, cooldown: nat)

  datatype Key = Key(ecosystem: string, name: string, version: string)

  datatype Entry = Entry(advisories: seq<Advisory>, storedAt: nat)

  datatype LookupOutcome = LookupOutcome(advisories: seq<Advisory>, verified: bool)

  /** `LookupOutcome::default` */
  const UNVERIFIED := LookupOutcome([], false)

  const CACHE_MAX_ENTRIES := 4096

  datatype LookupState = LookupState(cache: map<Key, Entry>, breaker: BreakerState)

  const FRESH_STATE := LookupState(map[], CLOSED)

  /** The key of a lookup, if there is anything to ask. */
  function KeyOf(cfg: LookupConfig, r: Registry, name: string, version: string): Option<Key> {
    if !cfg.active || EcosystemOf(r).None? || Blank(name) || Blank(version) then None
    else Some(Key(EcosystemOf(r).value, Trim(name), Trim(version)))
  }

  predicate IsFresh(cfg: LookupConfig, e: Entry, now: nat) {
    now < e.storedAt + cfg.ttl
  }

  function Cached(cfg: LookupConfig, cache: map<Key, Entry>, key: Key, now: nat): Option<seq<Advisory>> {
    if cfg.ttl > 0 && key in cache && IsFresh(cfg, cache[key], now) then Some(cache[key].advisories) else None
  }

  datatype Decision = Skip | Hit(advisories: seq<Advisory>) | Ask(key: Key)

  /** The part of a lookup before the query. */
  function Decide(cfg: LookupConfig, s: LookupState, r: Registry, name: string, version: string, now: nat): Decision {
    match KeyOf(cfg, r, name, version)
    case None => Skip
    case Some(key) =>
      match Cached(cfg, s.cache, key, now)
      case Some(advisories) => Hit(advisories)
      case None => if Allows(s.breaker, now) then Ask(key) else Skip
  }

  /** Room for one more entry: stale ones are dropped first, then all of them. */
  function Evicted(cfg: LookupConfig, cache: map<Key, Entry>, now: nat): (r: map<Key, Entry>)
    ensures |r| < CACHE_MAX_ENTRIES && r.Keys <= cache.Keys && forall k :: k in r ==> r[k] == cache[k]
  {
    if |cache| < CACHE_MAX_ENTRIES then cache
    else
      var kept := map k | k in cache && IsFresh(cfg, cache[k], now) :: cache[k];
      if |kept| < CACHE_MAX_ENTRIES then kept else map[]
  }

  /** `record_success` and `record_failure`; `None` is a failed query. */
  function Finish(cfg: LookupConfig, s: LookupState, key: Key, answer: Option<seq<Advisory>>, now: nat): LookupState {
    match answer
    case Some(advisories) =>
      var cache := if cfg.ttl == 0 then s.cache else Evicted(cfg, s.cache, now)[key := Entry(advisories, now)];
      LookupState(cache, After(s.breaker, now, true, 0, 0))
    case None =>
      s.(breaker := After(s.breaker, now, false, if cfg.threshold >= 1 then cfg.threshold else 1, cfg.cooldown))
  }

  /** What OSV would answer for a coordinate right now; `None` is any failure to answer. */
  type Osv = (string, string, string) -> Option<seq<Advisory>>

  class AdvisoryLookup {
    const cfg: LookupConfig
    var cache: map<Key, Entry>
    const breaker: Breaker

    constructor (cfg: LookupConfig)
      ensures this.cfg == cfg && fresh(breaker) && Now() == FRESH_STATE
    {
      this.cfg := cfg;
      cache := map[];
      breaker := new Breaker();
    }

    function Now(): LookupState
      reads this, breaker
    {
      LookupState(cache, breaker.Now())
    }

    method RecordSuccess(key: Key, advisories: seq<Advisory>, now: nat)
      modifies this, breaker
      ensures Now() == Finish(cfg, old(Now()), key, Some(advisories), now)
    {
      var reported := breaker.Record(now, true, 0, 0);
      if cfg.ttl == 0 {
        return;
      }
      if |cache| >= CACHE_MAX_ENTRIES {
        cache := map k | k in cache && IsFresh(cfg, cache[k], now) :: cache[k];
        if |cache| >= CACHE_MAX_ENTRIES {
          cache := map[];
        }
      }
      cache := cache[key := Entry(advisories, now)];
    }

    method RecordFailure(key: Key, now: nat)
      modifies this, breaker
      ensures Now() == Finish(cfg, old(Now()), key, None, now)
    {
      var threshold := if cfg.threshold >= 1 then cfg.threshold else 1;
      var reported := breaker.Record(now, false, threshold, cfg.cooldown);
    }

    /** One lookup with no other in between. */
    method Lookup(r: Registry, name: string, version: string, osv: Osv, askedAt: nat, answeredAt: nat)
      returns (outcome: LookupOutcome)
      modifies this, breaker
      ensures var key := KeyOf(cfg, r, name, version);
              match Decide(cfg, old(Now()), r, name, version, askedAt)
              case Skip => outcome == UNVERIFIED && Now() == old(Now())
              case Hit(advisories) => outcome == LookupOutcome(advisories, true) && Now() == old(Now())
              case Ask(key) =>
                var answer := osv(key.ecosystem, key.name, key.version);
                && Now() == Finish(cfg, old(Now()), key, answer, answeredAt)
                && outcome == if answer.Some? then LookupOutcome(answer.value, true) else UNVERIFIED
    {
      if !cfg.active || EcosystemOf(r).None? || Blank(name) || Blank(version) {
        return UNVERIFIED;
      }
      var key := Key(EcosystemOf(r).value, Trim(name), Trim(version));
      var hit := Cached(cfg, cache, key, askedAt);
      if hit.Some? {
        return LookupOutcome(hit.value, true);
      }
      if !Allows(breaker.Now(), askedAt) {
        return UNVERIFIED;
      }
      var answer := osv(key.ecosystem, key.name, key.version);
      if answer.None? {
        RecordFailure(key, answeredAt);
        return UNVERIFIED;
      }
      RecordSuccess(key, answer.value, answeredAt);
      return LookupOutcome(answer.value, true);
    }
  }

  // -------------------------------------------------------------------- runs

  /** One finished query: only these change the shared state, so every interleaving is a sequence of them. */
  datatype Query = Query(key: Key, answer: Option<seq<Advisory>>, at: nat)

  function Run(cfg: LookupConfig, queries: seq<Query>): LookupState {
    if queries == [] then FRESH_STATE
    else
      var last := queries[|queries| - 1];
      Finish(cfg, Run(cfg, queries[..|queries| - 1]), last.key, last.answer, last.at)
  }

  /** Query `i` is the last answer OSV gave for its key. */
  predicate LastAnswer(queries: seq<Query>, i: nat, key: Key) {
    && i < |queries| && queries[i].key == key && queries[i].answer.Some?
    && forall j :: i < j < |queries| && queries[j].key == key ==> queries[j].answer.None?
  }

  predicate Backed(queries: seq<Query>, key: Key, e: Entry) {
    exists i: nat :: i < |queries| && LastAnswer(queries, i, key)
      && queries[i].answer == Some(e.advisories) && queries[i].at == e.storedAt
  }

  lemma {:induction false} CacheBacked(cfg: LookupConfig, queries: seq<Query>, key: Key)
    requires key in Run(cfg, queries).cache
    ensures cfg.ttl > 0 && Backed(queries, key, Run(cfg, queries).cache[key])
    decreases |queries|
  {
    var last := |queries| - 1;
    var before := queries[..last];
    var e := Run(cfg, queries).cache[key];
    if queries[last].key == key && queries[last].answer.Some? {
      if cfg.ttl == 0 {
        CacheBacked(cfg, before, key);
      } else {
        assert LastAnswer(queries, last, key);
      }
    } else {
      CacheBacked(cfg, before, key);
      var i: nat :| i < |before| && LastAnswer(before, i, key) && before[i].answer == Some(e.advisories) && before[i].at == e.storedAt;
      assert forall j :: i < j < last ==> queries[j] == before[j];
      assert LastAnswer(queries, i, key) && queries[i] == before[i];
    }
  }

  /**
   Cache soundness: whatever lookups came before, an answer served from the cache
   is the last one OSV gave for the same ecosystem and trimmed name and version,
   given less than the configured lifetime ago.
   */
  lemma {:induction false} HitIsRecentAnswer(cfg: LookupConfig, queries: seq<Query>, r: Registry, name: string,
                                            version: string, now: nat)
    requires Decide(cfg, Run(cfg, queries), r, name, version, now).Hit?
    ensures cfg.active && EcosystemOf(r).Some? && !Blank(name) && !Blank(version)
    ensures var key := Key(EcosystemOf(r).value, Trim(name), Trim(version));
            exists i: nat :: i < |queries| && LastAnswer(queries, i, key) && now < queries[i].at + cfg.ttl
              && queries[i].answer == Some(Decide(cfg, Run(cfg, queries), r, name, version, now).advisories)
  {
    hide Run, Trim;
    var key := Key(EcosystemOf(r).value, Trim(name), Trim(version));
    CacheBacked(cfg, queries, key);
    var e := Run(cfg, queries).cache[key];
    var i: nat :| i < |queries| && LastAnswer(queries, i, key) && queries[i].answer == Some(e.advisories) && queries[i].at == e.storedAt;
  }

  lemma InsertSize(m: map<Key, Entry>, key: Key, e: Entry)
    ensures |m[key := e]| <= |m| + 1
  {
    assert m[key := e].Keys == m.Keys + {key};
  }

  /** The cache never outgrows its cap, and holds nothing when caching is switched off. */
  lemma {:induction false} CacheBounded(cfg: LookupConfig, queries: seq<Query>)
    ensures |Run(cfg, queries).cache| <= CACHE_MAX_ENTRIES
    ensures cfg.ttl == 0 ==> Run(cfg, queries).cache == map[]
    decreases |queries|
  {
    if queries != [] {
      var last := queries[|queries| - 1];
      var before := Run(cfg, queries[..|queries| - 1]);
      CacheBounded(cfg, queries[..|queries| - 1]);
      if last.answer.Some? && cfg.ttl > 0 {
        InsertSize(Evicted(cfg, before.cache, last.at), last.key, Entry(last.answer.value, last.at));
      }
    }
  }

  /** The coordinates answered or asked about so far. */
  function KeysOf(queries: seq<Query>): set<Key> {
    set i | 0 <= i < |queries| :: queries[i].key
  }

  lemma {:induction false} SubsetSize(a: set<Key>, b: set<Key>)
    requires a <= b
    ensures |a| <= |b|
    decreases |b|
  {
    if a != {} {
      var k :| k in a;
      SubsetSize(a - {k}, b - {k});
    }
  }

  lemma {:induction false} CachedKeys(cfg: LookupConfig, queries: seq<Query>)
    ensures Run(cfg, queries).cache.Keys <= KeysOf(queries)
    decreases |queries|
  {
    if queries != [] {
      var last := |queries| - 1;
      CachedKeys(cfg, queries[..last]);
      assert queries[last].key in KeysOf(queries);
      KeysGrow(queries, last);
    }
  }

  lemma KeysGrow(queries: seq<Query>, n: nat)
    requires n <= |queries|
    ensures KeysOf(queries[..n]) <= KeysOf(queries)
  {
    forall k | k in KeysOf(queries[..n]) ensures k in KeysOf(queries) {
      var i :| 0 <= i < n && queries[..n][i].key == k;
      assert queries[i].key == k;
    }
  }

  /** While the working set stays below the cap, the last answer for a coordinate is kept. */
  lemma {:induction false} AnswerKept(cfg: LookupConfig, queries: seq<Query>, i: nat, key: Key)
    requires cfg.ttl > 0 && LastAnswer(queries, i, key) && |KeysOf(queries)| < CACHE_MAX_ENTRIES
    ensures var cache := Run(cfg, queries).cache;
            key in cache && cache[key] == Entry(queries[i].answer.value, queries[i].at)
    decreases |queries|
  {
    var last := |queries| - 1;
    var before := queries[..last];
    CachedKeys(cfg, before);
    KeysGrow(queries, last);
    SubsetSize(Run(cfg, before).cache.Keys, KeysOf(queries));
    assert |Run(cfg, before).cache| == |Run(cfg, before).cache.Keys|;
    if i < last {
      SubsetSize(KeysOf(before), KeysOf(queries));
      assert forall j :: i < j < last ==> before[j] == queries[j];
      AnswerKept(cfg, before, i, key);
    }
  }

  /** So a coordinate answered less than a lifetime ago is served from the cache, with that answer. */
  lemma RecentAnswerServed(cfg: LookupConfig, queries: seq<Query>, i: nat, r: Registry, name: string, version: string,
                           now: nat)
    requires cfg.ttl > 0 && KeyOf(cfg, r, name, version).Some? && |KeysOf(queries)| < CACHE_MAX_ENTRIES
    requires LastAnswer(queries, i, KeyOf(cfg, r, name, version).value) && now < queries[i].at + cfg.ttl
    ensures Decide(cfg, Run(cfg, queries), r, name, version, now) == Hit(queries[i].answer.value)
  {
    hide Run, KeysOf, Trim;
    AnswerKept(cfg, queries, i, KeyOf(cfg, r, name, version).value);
  }

  /** The queries as the breaker saw them. */
  function Outcomes(queries: seq<Query>): seq<Outcome> {
    seq(|queries|, i requires 0 <= i < |queries| => Outcome(queries[i].at, queries[i].answer.Some?))
  }

  lemma {:induction false} BreakerFolds(cfg: LookupConfig, queries: seq<Query>)
    ensures Run(cfg, queries).breaker ==
            Fold(Outcomes(queries), if cfg.threshold >= 1 then cfg.threshold else 1, cfg.cooldown)
    decreases |queries|
  {
    if queries != [] {
      var last := |queries| - 1;
      BreakerFolds(cfg, queries[..last]);
      assert Outcomes(queries)[..last] == Outcomes(queries[..last]);
    }
  }

  /**
   OSV is asked about a coordinate exactly if lookups are on, the coordinate is one, no
   fresh answer for it is cached, and the queries before do not end in a full streak of
   failures, or the last of them is a cooldown ago; it is asked about the trimmed name
   and version.
   */
  lemma AskedExactly(cfg: LookupConfig, queries: seq<Query>, r: Registry, name: string, version: string, now: nat)
    ensures var threshold := if cfg.threshold >= 1 then cfg.threshold else 1;
            var key := Key(if EcosystemOf(r).Some? then EcosystemOf(r).value else "", Trim(name), Trim(version));
            var cache := Run(cfg, queries).cache;
            && (Decide(cfg, Run(cfg, queries), r, name, version, now).Ask? <==>
                  && cfg.active && EcosystemOf(r).Some? && !Blank(name) && !Blank(version)
                  && !(cfg.ttl > 0 && key in cache && now < cache[key].storedAt + cfg.ttl)
                  && Passable(Outcomes(queries), now, threshold, cfg.cooldown))
            && (Decide(cfg, Run(cfg, queries), r, name, version, now).Ask? ==>
                  Decide(cfg, Run(cfg, queries), r, name, version, now).key == key)
  {
    hide Run, Trim, Passable, Allows;
    BreakerFolds(cfg, queries);
    AllowedExactly(Outcomes(queries), now, if cfg.threshold >= 1 then cfg.threshold else 1, cfg.cooldown);
  }

  /** Two registries share their answers exactly if they are one, or npm and Yarn. */
  lemma EcosystemsApart(r: Registry, q: Registry)
    ensures EcosystemOf(r).Some? && EcosystemOf(r) == EcosystemOf(q) <==>
            r != Cpan && (r == q || (r in {Npm, Yarn} && q in {Npm, Yarn}))
  {
  }

  /** At the cap, storing an answer drops the stale ones first, and the fresh ones only if all are fresh. */
  lemma FreshKeptAtCap(cfg: LookupConfig, s: LookupState, key: Key, advisories: seq<Advisory>, now: nat, k: Key)
    requires cfg.ttl > 0 && k in s.cache && k != key && now < s.cache[k].storedAt + cfg.ttl
    requires |s.cache| <= CACHE_MAX_ENTRIES
    requires |s.cache| < CACHE_MAX_ENTRIES || exists stale :: stale in s.cache && s.cache[stale].storedAt + cfg.ttl <= now
    ensures var after := Finish(cfg, s, key, Some(advisories), now).cache;
            k in after && after[k] == s.cache[k] && key in after && after[key] == Entry(advisories, now)
  {
    if |s.cache| == CACHE_MAX_ENTRIES {
      var stale :| stale in s.cache && s.cache[stale].storedAt + cfg.ttl <= now;
      var kept := map k | k in s.cache && IsFresh(cfg, s.cache[k], now) :: s.cache[k];
      SubsetSize(kept.Keys, s.cache.Keys - {stale});
      assert |s.cache.Keys - {stale}| == |s.cache.Keys| - 1;
      assert |kept| == |kept.Keys|;
    }
  }
}
