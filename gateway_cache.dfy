/** The latency classifiers of the API-gateway memory lock test and the
    metrics they feed: the `auth_service_calls` counter, the `redis_hit_rate`
    rate and the `refresh_token_latency` trend. Latencies are measured
    milliseconds, given as inputs. The script's global `TEST_TYPE` is passed
    as `testType`. */
module GatewayCache {

  /** The message `analyzePerformance` returns. */
  datatype PerformanceVerdict =
    | SlowAsExpected       // 'current', latency > 500
    | FasterThanExpected   // 'current', otherwise
    | RedisCacheHit        // 'redis', latency < 100
    | RedisAuthCall        // 'redis', 100 <= latency < 200
    | RedisTooSlow         // 'redis', latency >= 200
    | SimpleFast           // 'simple', latency < 200
    | SimpleStillSlow      // 'simple', otherwise
    | Analyzing            // any other test type

  /** Samples one classifier call adds: increments of `auth_service_calls`
      and samples of `redis_hit_rate` (`true` for a hit). */
  datatype Emission = Emission(authCalls: nat, hitSamples: seq<bool>)

  datatype Analysis = Analysis(verdict: PerformanceVerdict, emitted: Emission)

  /** `analyzePerformance(latency, testType)`. */
  function AnalyzePerformance(latency: int, testType: string): Analysis
  {
    if testType == "current" then
      if latency > 500 then Analysis(SlowAsExpected, Emission(1, [false]))
      else Analysis(FasterThanExpected, Emission(0, [true]))
    else if testType == "redis" then
      if latency < 100 then Analysis(RedisCacheHit, Emission(0, [true]))
      else if latency < 200 then Analysis(RedisAuthCall, Emission(1, [false]))
      else Analysis(RedisTooSlow, Emission(1, [false]))
    else if testType == "simple" then
      if latency < 200 then Analysis(SimpleFast, Emission(1, []))
      else Analysis(SimpleStillSlow, Emission(1, []))
    else Analysis(Analyzing, Emission(0, []))
  }

  /** The behaviour of `analyzePerformance` per test type. The default test
      type 'complex' falls through to "analysing" with no samples, because the
      first branch tests for 'current'. */
  lemma PerformanceByTestType(latency: int, testType: string)
    ensures var a := AnalyzePerformance(latency, testType);
      && (testType == "redis" && latency < 100 ==> a.emitted == Emission(0, [true]))
      && (testType == "redis" && latency >= 100 ==> a.emitted == Emission(1, [false]))
      && (testType == "simple" ==> a.emitted == Emission(1, []))
      && (testType != "current" && testType != "redis" && testType != "simple" ==>
            a == Analysis(Analyzing, Emission(0, [])))
  {
  }

  /** `updateCacheMetrics(callIndex, latency)`: one hit-rate sample per call;
      the first call is always a miss with an auth call, a later call is a hit
      iff the test type is 'redis' and the latency is under 100 ms, and every
      miss is one auth call. */
  function CacheUpdate(callIndex: int, latency: int, testType: string): (e: Emission)
    ensures |e.hitSamples| == 1
    ensures e.hitSamples[0] <==> callIndex != 0 && testType == "redis" && latency < 100
    ensures e.authCalls == if e.hitSamples[0] then 0 else 1
  {
    if callIndex == 0 then Emission(1, [false])
    else if testType == "redis" && latency < 100 then Emission(0, [true])
    else Emission(1, [false])
  }

  function Misses(samples: seq<bool>): nat
  {
    if samples == [] then 0 else (if samples[0] then 0 else 1) + Misses(samples[1..])
  }

  lemma {:induction false} MissesAppend(a: seq<bool>, b: seq<bool>)
    ensures Misses(a + b) == Misses(a) + Misses(b)
    decreases |a|
  {
    if a == [] {
      assert a + b == b;
    } else {
      assert (a + b)[1..] == a[1..] + b;
      MissesAppend(a[1..], b);
    }
  }

  /** What `updateCacheMetrics(i, latencies[i])` adds for i in lo .. hi-1. */
  function CacheRun(testType: string, latencies: seq<int>, lo: nat, hi: nat): Emission
    requires lo <= hi <= |latencies|
    decreases hi - lo
  {
    if lo == hi then Emission(0, [])
    else
      var first := CacheUpdate(lo, latencies[lo], testType);
      var rest := CacheRun(testType, latencies, lo + 1, hi);
      Emission(first.authCalls + rest.authCalls, first.hitSamples + rest.hitSamples)
  }

  /** Over any run of `updateCacheMetrics` calls there is one hit-rate sample
      per call, and the auth calls are exactly the misses. */
  lemma {:induction false} CacheRunAuthCallsAreMisses(testType: string, latencies: seq<int>, lo: nat, hi: nat)
    requires lo <= hi <= |latencies|
    ensures var e := CacheRun(testType, latencies, lo, hi);
      |e.hitSamples| == hi - lo && e.authCalls == Misses(e.hitSamples)
    decreases hi - lo
  {
    if lo < hi {
      var first := CacheUpdate(lo, latencies[lo], testType);
      var rest := CacheRun(testType, latencies, lo + 1, hi);
      CacheRunAuthCallsAreMisses(testType, latencies, lo + 1, hi);
      MissesAppend(first.hitSamples, rest.hitSamples);
      assert Misses(first.hitSamples) == first.authCalls;
    }
  }

  lemma {:induction false} CacheRunSnoc(testType: string, latencies: seq<int>, lo: nat, hi: nat)
    requires lo <= hi < |latencies|
    ensures var e := CacheRun(testType, latencies, lo, hi);
      var u := CacheUpdate(hi, latencies[hi], testType);
      CacheRun(testType, latencies, lo, hi + 1) == Emission(e.authCalls + u.authCalls, e.hitSamples + u.hitSamples)
    decreases hi - lo
  {
    if lo < hi {
      CacheRunSnoc(testType, latencies, lo + 1, hi);
    }
  }

  /** Outside a 'redis' test, every call of a run is a miss with an auth call. */
  lemma {:induction false} NonRedisNeverHits(testType: string, latencies: seq<int>, lo: nat, hi: nat)
    requires lo <= hi <= |latencies| && testType != "redis"
    ensures var e := CacheRun(testType, latencies, lo, hi);
      e.authCalls == hi - lo && forall i :: 0 <= i < |e.hitSamples| ==> !e.hitSamples[i]
    decreases hi - lo
  {
    if lo < hi {
      NonRedisNeverHits(testType, latencies, lo + 1, hi);
      CacheRunAuthCallsAreMisses(testType, latencies, lo + 1, hi);
    }
  }

  /** The message `analyzeCacheEffect` returns; the improvement percentages
      it prints are not modelled. */
  datatype CacheEffect = CacheEffective | CacheModerate | CacheNegligible | RepeatEffectOnly

  /** `analyzeCacheEffect([first, second, third])`. */
  function AnalyzeCacheEffect(testType: string, first: int, second: int, third: int): CacheEffect
  {
    if testType == "redis" then
      if second as real < first as real * 0.5 && third as real < first as real * 0.5 then CacheEffective
      else if second as real < first as real * 0.8 && third as real < first as real * 0.8 then CacheModerate
      else CacheNegligible
    else RepeatEffectOnly
  }

  /** The cache-effect verdict in integer form: "effective" iff both repeat
      calls took under half the first; "moderate" iff not that but both under
      four fifths; otherwise "negligible". Other test types get the neutral
      message whatever the latencies. */
  lemma CacheEffectInIntegers(testType: string, first: int, second: int, third: int)
    ensures var v := AnalyzeCacheEffect(testType, first, second, third);
      && (testType != "redis" <==> v == RepeatEffectOnly)
      && (v == CacheEffective <==> testType == "redis" && 2 * second < first && 2 * third < first)
      && (v == CacheModerate <==> testType == "redis" && !(2 * second < first && 2 * third < first)
                                  && 5 * second < 4 * first && 5 * third < 4 * first)
  {
    assert (2 * second) as real == 2.0 * second as real;
    assert (2 * third) as real == 2.0 * third as real;
    assert (5 * second) as real == 5.0 * second as real;
    assert (5 * third) as real == 5.0 * third as real;
    assert (4 * first) as real == 4.0 * first as real;
  }

  /** The runtime-owned metrics the classifiers write to. */
  class Metrics {
    var authServiceCalls: nat
    var redisHitRate: seq<bool>
    var refreshTokenLatency: seq<int>

    constructor ()
      ensures authServiceCalls == 0 && redisHitRate == [] && refreshTokenLatency == []
    {
      authServiceCalls, redisHitRate, refreshTokenLatency := 0, [], [];
    }

    /** `analyzePerformance`, with its side effects on the metrics. */
    method RecordPerformance(latency: int, testType: string) returns (verdict: PerformanceVerdict)
      modifies this
      ensures verdict == AnalyzePerformance(latency, testType).verdict
      ensures authServiceCalls == old(authServiceCalls) + AnalyzePerformance(latency, testType).emitted.authCalls
      ensures redisHitRate == old(redisHitRate) + AnalyzePerformance(latency, testType).emitted.hitSamples
      ensures refreshTokenLatency == old(refreshTokenLatency)
    {
      if testType == "current" {
        if latency > 500 {
          authServiceCalls := authServiceCalls + 1;
          redisHitRate := redisHitRate + [false];
          return SlowAsExpected;
        } else {
          redisHitRate := redisHitRate + [true];
          return FasterThanExpected;
        }
      } else if testType == "redis" {
        if latency < 100 {
          redisHitRate := redisHitRate + [true];
          return RedisCacheHit;
        } else if latency < 200 {
          authServiceCalls := authServiceCalls + 1;
          redisHitRate := redisHitRate + [false];
          return RedisAuthCall;
        } else {
          authServiceCalls := authServiceCalls + 1;
          redisHitRate := redisHitRate + [false];
          return RedisTooSlow;
        }
      } else if testType == "simple" {
        authServiceCalls := authServiceCalls + 1;
        if latency < 200 {
          return SimpleFast;
        } else {
          return SimpleStillSlow;
        }
      }
      return Analyzing;
    }

    /** `updateCacheMetrics(callIndex, latency)`. */
    method UpdateCacheMetrics(callIndex: int, latency: int, testType: string)
      modifies this
      ensures authServiceCalls == old(authServiceCalls) + CacheUpdate(callIndex, latency, testType).authCalls
      ensures redisHitRate == old(redisHitRate) + CacheUpdate(callIndex, latency, testType).hitSamples
      ensures refreshTokenLatency == old(refreshTokenLatency)
    {
      if callIndex == 0 {
        authServiceCalls := authServiceCalls + 1;
        redisHitRate := redisHitRate + [false];
      } else {
        if testType == "redis" && latency < 100 {
          redisHitRate := redisHitRate + [true];
        } else {
          authServiceCalls := authServiceCalls + 1;
          redisHitRate := redisHitRate + [false];
        }
      }
    }

    /** `testExpiredTokenScenario` once the request has been timed: the
        latency goes to the trend and through `analyzePerformance`. */
    method ExpiredTokenScenario(latency: int, testType: string) returns (verdict: PerformanceVerdict)
      modifies this
      ensures verdict == AnalyzePerformance(latency, testType).verdict
      ensures refreshTokenLatency == old(refreshTokenLatency) + [latency]
      ensures authServiceCalls == old(authServiceCalls) + AnalyzePerformance(latency, testType).emitted.authCalls
      ensures redisHitRate == old(redisHitRate) + AnalyzePerformance(latency, testType).emitted.hitSamples
    {
      refreshTokenLatency := refreshTokenLatency + [latency];
      verdict := RecordPerformance(latency, testType);
    }

    /** `testSameRefreshTokenScenario`: three calls with the same refresh
        token, timed as `measured`; each is recorded in the trend and in the
        cache metrics, then the three latencies are judged together. */
    method SameRefreshTokenScenario(measured: seq<int>, testType: string)
      returns (results: seq<int>, effect: CacheEffect)
      requires |measured| == 3
      modifies this
      ensures results == measured
      ensures effect == AnalyzeCacheEffect(testType, measured[0], measured[1], measured[2])
      ensures refreshTokenLatency == old(refreshTokenLatency) + measured
      ensures authServiceCalls == old(authServiceCalls) + CacheRun(testType, measured, 0, 3).authCalls
      ensures redisHitRate == old(redisHitRate) + CacheRun(testType, measured, 0, 3).hitSamples
    {
      results := [];
      for i := 0 to 3
        invariant results == measured[..i]
        invariant refreshTokenLatency == old(refreshTokenLatency) + measured[..i]
        invariant authServiceCalls == old(authServiceCalls) + CacheRun(testType, measured, 0, i).authCalls
        invariant redisHitRate == old(redisHitRate) + CacheRun(testType, measured, 0, i).hitSamples
      {
        var latency := measured[i];
        results := results + [latency];
        refreshTokenLatency := refreshTokenLatency + [latency];
        CacheRunSnoc(testType, measured, 0, i);
        UpdateCacheMetrics(i, latency, testType);
        assert measured[..i + 1] == measured[..i] + [latency];
      }
      assert measured[..3] == measured;
      effect := AnalyzeCacheEffect(testType, results[0], results[1], results[2]);
    }
  }

  /** In one same-token scenario the first call is always a miss, three
      hit-rate samples are added, and the auth calls added are the misses. */
  lemma SameTokenScenarioSamples(testType: string, measured: seq<int>)
    requires |measured| == 3
    ensures var e := CacheRun(testType, measured, 0, 3);
      |e.hitSamples| == 3 && !e.hitSamples[0] && e.authCalls == Misses(e.hitSamples)
  {
    CacheRunAuthCallsAreMisses(testType, measured, 0, 3);
  }
}
