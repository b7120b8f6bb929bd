/** The contest-list API load test: the per-request success verdict and its
    counters, the success-rate formula of the summary, and the
    recommendation list printed at the end. Replies and metric values are
    inputs. */
module ContestApi {

  import opened Wrappers
  import opened Strings
  import opened RealArith

  /* ---------------- Per-request verdict ---------------- */

  /** What `response.json()` yields: a parse error, an array, or any other JSON value. */
  datatype JsonBody = NotJson | JsonArray | OtherJson

  /** A reply of the contest-list endpoint. `durationMs` is the runtime's
      `timings.duration`; `contentType` is `None` when the header is absent. */
  datatype ContestReply = ContestReply(status: int, durationMs: int, contentType: Option<string>, body: JsonBody)

  predicate ContentTypeIsJson(r: ContestReply)
  {
    r.contentType.Some? && Contains(r.contentType.value, "application/json")
  }

  /** `isActualSuccess`: status 200, a JSON array body, a JSON content type. */
  predicate ActualSuccess(r: ContestReply)
  {
    r.status == 200 && r.body == JsonArray && ContentTypeIsJson(r)
  }

  /** The response time takes no part in the verdict. */
  lemma VerdictIgnoresResponseTime(r: ContestReply, durationMs: int)
    ensures ActualSuccess(r.(durationMs := durationMs)) == ActualSuccess(r)
    ensures ActualSuccess(r) <==> r.status == 200 && r.body.JsonArray? && r.contentType.Some?
                                  && exists k :: OccursAt(r.contentType.value, "application/json", k)
  {
  }

  function Count(samples: seq<bool>, b: bool): nat
  {
    if samples == [] then 0 else (if samples[0] == b then 1 else 0) + Count(samples[1..], b)
  }

  lemma {:induction false} CountAppend(a: seq<bool>, c: seq<bool>, b: bool)
    ensures Count(a + c, b) == Count(a, b) + Count(c, b)
    decreases |a|
  {
    if a == [] {
      assert a + c == c;
    } else {
      assert (a + c)[1..] == a[1..] + c;
      CountAppend(a[1..], c, b);
    }
  }

  /** Every sample is either a success or a failure. */
  lemma {:induction false} CountsPartition(samples: seq<bool>)
    ensures Count(samples, true) + Count(samples, false) == |samples|
    decreases |samples|
  {
    if samples != [] {
      CountsPartition(samples[1..]);
    }
  }

  /** The runtime-owned metrics of the test. */
  class ContestMetrics {
    var requestSuccess: nat
    var requestFailure: nat
    var contestListSuccessRate: seq<bool>
    var requestDuration: seq<int>

    /** The two counters agree with the samples of the success rate. */
    ghost predicate Valid()
      reads this
    {
      requestSuccess == Count(contestListSuccessRate, true) && requestFailure == Count(contestListSuccessRate, false)
    }

    constructor ()
      ensures Valid()
      ensures requestSuccess == 0 && requestFailure == 0 && contestListSuccessRate == [] && requestDuration == []
    {
      requestSuccess, requestFailure, contestListSuccessRate, requestDuration := 0, 0, [], [];
    }

    /** `testGetContestList` once the reply has arrived; `measuredMs` is the
        wall-clock duration the script measures around the request. Exactly
        one of the two counters moves, with a matching rate sample. */
    method TestGetContestList(r: ContestReply, measuredMs: int) returns (success: bool)
      requires Valid()
      modifies this
      ensures Valid()
      ensures success == ActualSuccess(r)
      ensures requestDuration == old(requestDuration) + [measuredMs]
      ensures contestListSuccessRate == old(contestListSuccessRate) + [success]
      ensures success ==> requestSuccess == old(requestSuccess) + 1 && requestFailure == old(requestFailure)
      ensures !success ==> requestFailure == old(requestFailure) + 1 && requestSuccess == old(requestSuccess)
    {
      requestDuration := requestDuration + [measuredMs];
      var statusCheck := r.status == 200;
      var jsonValidCheck := r.body == JsonArray;
      var contentTypeCheck := ContentTypeIsJson(r);
      success := statusCheck && jsonValidCheck && contentTypeCheck;
      CountAppend(contestListSuccessRate, [success], true);
      CountAppend(contestListSuccessRate, [success], false);
      if success {
        requestSuccess := requestSuccess + 1;
        contestListSuccessRate := contestListSuccessRate + [true];
      } else {
        requestFailure := requestFailure + 1;
        contestListSuccessRate := contestListSuccessRate + [false];
      }
    }
  }

  /* ---------------- Summary ---------------- */

  /** `successRate` of `createSummary`, in percent. */
  function SuccessRate(successCount: nat, failureCount: nat): real
  {
    var total := successCount + failureCount;
    if total > 0 then successCount as real / total as real * 100.0 else 0.0
  }

  /** The rate is a percentage; it is 100 iff there were requests and none
      failed, and 0 iff none succeeded. */
  lemma SuccessRateBounds(successCount: nat, failureCount: nat)
    ensures var r := SuccessRate(successCount, failureCount);
      && 0.0 <= r <= 100.0
      && (r == 100.0 <==> successCount > 0 && failureCount == 0)
      && (r == 0.0 <==> successCount == 0)
  {
    var total := successCount + failureCount;
    if total > 0 {
      var t := total as real;
      QuotientCompare(successCount as real, t, 1.0);
      QuotientCompare(successCount as real, t, 0.0);
    }
  }

  /** The counters' rate equals the share of `true` samples. */
  lemma SuccessRateOfSamples(samples: seq<bool>)
    requires |samples| > 0
    ensures SuccessRate(Count(samples, true), Count(samples, false)) == Count(samples, true) as real / |samples| as real * 100.0
  {
    CountsPartition(samples);
  }

  /* ---------------- generateRecommendations ---------------- */

  datatype Recommendation =
    | TopPerformance | TestHigherLoad
    | GoodPerformance | ConsiderCaching
    | ImproveSuccessRate | OptimiseQueries | HttpFailRateHigh | ImproveThroughput
    | NextStressStage
    | TipsHeading | TipIndexes | TipCompression | TipRedisCache | TipConnectionPool

  function Text(r: Recommendation): string
  {
    match r
    case TopPerformance => "🏆 최고 성능! 현재 설정으로 프로덕션 배포 권장"
    case TestHigherLoad => "🚀 더 높은 부하에서 한계점 테스트 고려 (VU 50+ 테스트)"
    case GoodPerformance => "✅ 우수한 성능 - 일반적인 운영 환경에 적합"
    case ConsiderCaching => "💡 캐싱 전략 도입으로 더 나은 성능 가능"
    case ImproveSuccessRate => "⚠️ 성공률 개선 필요 - 애플리케이션 로그 및 에러 분석"
    case OptimiseQueries => "⚠️ 응답시간 최적화 필요 - DB 쿼리 성능 점검"
    case HttpFailRateHigh => "❌ HTTP 실패율 높음 - 서버 리소스 및 연결 설정 점검"
    case ImproveThroughput => "💡 처리량 개선 - 애플리케이션 병목 지점 분석 필요"
    case NextStressStage => "📈 다음 단계: VU 50개로 스트레스 테스트 진행"
    case TipsHeading => "🔧 성능 최적화 팁:"
    case TipIndexes => "   - DB 인덱스 최적화"
    case TipCompression => "   - 응답 데이터 압축 (gzip)"
    case TipRedisCache => "   - Redis 캐시 도입"
    case TipConnectionPool => "   - Connection Pool 튜닝"
  }

  const OptimisationTips: seq<Recommendation> := [TipsHeading, TipIndexes, TipCompression, TipRedisCache, TipConnectionPool]

  const NoRecommendation: string := "  📈 현재 성능 수준 양호"

  const Separator: string := "\n  "

  /** `recommendations.join('\n  ')`. */
  function JoinTexts(recs: seq<Recommendation>): string
  {
    if recs == [] then ""
    else if |recs| == 1 then Text(recs[0])
    else Text(recs[0]) + Separator + JoinTexts(recs[1..])
  }

  /** The string `generateRecommendations` returns for a list. */
  function Render(recs: seq<Recommendation>): string
  {
    if |recs| > 0 then JoinTexts(recs) else NoRecommendation
  }

  /** Every message has at least three characters, and none has the
      default's chart mark as its third. */
  lemma TextShape(r: Recommendation)
    ensures |Text(r)| >= 3 && Text(r)[2] != NoRecommendation[2]
  {
  }

  lemma JoinTextsStartsWithFirst(recs: seq<Recommendation>)
    requires recs != []
    ensures |JoinTexts(recs)| >= |Text(recs[0])| && JoinTexts(recs)[..|Text(recs[0])|] == Text(recs[0])
  {
  }

  /** The fixed default is returned iff no recommendation was pushed. */
  lemma RenderDefaultIffEmpty(recs: seq<Recommendation>)
    ensures Render(recs) == NoRecommendation <==> recs == []
  {
    if recs != [] {
      TextShape(recs[0]);
      JoinTextsStartsWithFirst(recs);
      var first := Text(recs[0]);
      assert JoinTexts(recs)[2] == first[..|first|][2];
    }
  }

  predicate TopTier(successRate: real, p95Response: real, reqPerSec: real)
  {
    successRate >= 99.0 && p95Response <= 200.0 && reqPerSec >= 100.0
  }

  predicate SecondTier(successRate: real, p95Response: real, reqPerSec: real)
  {
    !TopTier(successRate, p95Response, reqPerSec) && successRate >= 95.0 && p95Response <= 500.0 && reqPerSec >= 50.0
  }

  /** Neither tier matched: the individual warnings are considered. */
  predicate NeedsWork(successRate: real, p95Response: real, reqPerSec: real)
  {
    !TopTier(successRate, p95Response, reqPerSec) && !SecondTier(successRate, p95Response, reqPerSec)
  }

  /** The messages of the tier block: a tier's pair or the individual warnings. */
  predicate TierMessage(m: Recommendation)
  {
    m.TopPerformance? || m.TestHigherLoad? || m.GoodPerformance? || m.ConsiderCaching?
    || m.ImproveSuccessRate? || m.OptimiseQueries? || m.HttpFailRateHigh? || m.ImproveThroughput?
  }

  /** The warnings, in the order they are considered, each present when its
      own threshold is crossed. */
  function Warnings(successRate: real, p95Response: real, httpFailRate: real, reqPerSec: real): seq<Recommendation>
  {
    (if successRate < 95.0 then [ImproveSuccessRate] else [])
    + (if p95Response > 1000.0 then [OptimiseQueries] else [])
    + (if httpFailRate > 5.0 then [HttpFailRateHigh] else [])
    + (if reqPerSec < 20.0 then [ImproveThroughput] else [])
  }

  /** The first block of the list: a tier's pair, or else the warnings. */
  function TierBlock(successRate: real, p95Response: real, httpFailRate: real, reqPerSec: real): seq<Recommendation>
  {
    if TopTier(successRate, p95Response, reqPerSec) then [TopPerformance, TestHigherLoad]
    else if SecondTier(successRate, p95Response, reqPerSec) then [GoodPerformance, ConsiderCaching]
    else Warnings(successRate, p95Response, httpFailRate, reqPerSec)
  }

  /** The whole list `generateRecommendations` builds: the tier block, the
      next-stage message, then the optimisation tips. */
  function Recommendations(successRate: real, avgResponse: real, p95Response: real,
                           httpFailRate: real, maxVUs: real, reqPerSec: real): seq<Recommendation>
  {
    TierBlock(successRate, p95Response, httpFailRate, reqPerSec)
    + (if maxVUs <= 30.0 && successRate >= 95.0 then [NextStressStage] else [])
    + (if avgResponse > 100.0 then OptimisationTips else [])
  }

  /** The warnings pushed when neither tier matched, one per failing metric. */
  method ImprovementWarnings(successRate: real, p95Response: real, httpFailRate: real, reqPerSec: real)
    returns (recs: seq<Recommendation>)
    ensures recs == Warnings(successRate, p95Response, httpFailRate, reqPerSec)
    ensures forall m :: m in recs ==> m.ImproveSuccessRate? || m.OptimiseQueries? || m.HttpFailRateHigh? || m.ImproveThroughput?
    ensures ImproveSuccessRate in recs <==> successRate < 95.0
    ensures OptimiseQueries in recs <==> p95Response > 1000.0
    ensures HttpFailRateHigh in recs <==> httpFailRate > 5.0
    ensures ImproveThroughput in recs <==> reqPerSec < 20.0
  {
    recs := [];
    if successRate < 95.0 {
      recs := recs + [ImproveSuccessRate];
    }
    if p95Response > 1000.0 {
      recs := recs + [OptimiseQueries];
    }
    if httpFailRate > 5.0 {
      recs := recs + [HttpFailRateHigh];
    }
    if reqPerSec < 20.0 {
      recs := recs + [ImproveThroughput];
    }
  }

  /** The first block of `generateRecommendations`: the top tier's pair, the
      second tier's pair, or else the individual warnings. */
  method TierAdvice(successRate: real, p95Response: real, httpFailRate: real, reqPerSec: real)
    returns (recs: seq<Recommendation>)
    ensures recs == TierBlock(successRate, p95Response, httpFailRate, reqPerSec)
    ensures forall m :: m in recs ==> TierMessage(m)
    ensures TopTier(successRate, p95Response, reqPerSec) ==> recs == [TopPerformance, TestHigherLoad]
    ensures SecondTier(successRate, p95Response, reqPerSec) ==> recs == [GoodPerformance, ConsiderCaching]
    ensures NeedsWork(successRate, p95Response, reqPerSec) ==> recs == Warnings(successRate, p95Response, httpFailRate, reqPerSec)
    ensures TopPerformance in recs <==> TopTier(successRate, p95Response, reqPerSec)
    ensures GoodPerformance in recs <==> SecondTier(successRate, p95Response, reqPerSec)
    ensures ImproveSuccessRate in recs <==> NeedsWork(successRate, p95Response, reqPerSec) && successRate < 95.0
    ensures OptimiseQueries in recs <==> NeedsWork(successRate, p95Response, reqPerSec) && p95Response > 1000.0
    ensures HttpFailRateHigh in recs <==> NeedsWork(successRate, p95Response, reqPerSec) && httpFailRate > 5.0
    ensures ImproveThroughput in recs <==> NeedsWork(successRate, p95Response, reqPerSec) && reqPerSec < 20.0
  {
    recs := [];
    if successRate >= 99.0 && p95Response <= 200.0 && reqPerSec >= 100.0 {
      recs := recs + [TopPerformance];
      recs := recs + [TestHigherLoad];
    } else if successRate >= 95.0 && p95Response <= 500.0 && reqPerSec >= 50.0 {
      recs := recs + [GoodPerformance];
      recs := recs + [ConsiderCaching];
    } else {
      recs := ImprovementWarnings(successRate, p95Response, httpFailRate, reqPerSec);
    }
  }

  /** The closing block of `generateRecommendations`: the next stress stage
      when the load was light and healthy, then the optimisation tips when the
      average response was slow. */
  method ClosingAdvice(tier: seq<Recommendation>, successRate: real, avgResponse: real, maxVUs: real)
    returns (recs: seq<Recommendation>)
    requires forall m :: m in tier ==> TierMessage(m)
    ensures recs == tier + (if maxVUs <= 30.0 && successRate >= 95.0 then [NextStressStage] else [])
                         + (if avgResponse > 100.0 then OptimisationTips else [])
    ensures forall m :: TierMessage(m) ==> (m in recs <==> m in tier)
    ensures NextStressStage in recs <==> maxVUs <= 30.0 && successRate >= 95.0
    ensures TipsHeading in recs <==> avgResponse > 100.0
    ensures avgResponse > 100.0 ==> |recs| >= 5 && recs[|recs| - 5..] == OptimisationTips
  {
    recs := tier;
    if maxVUs <= 30.0 && successRate >= 95.0 {
      recs := recs + [NextStressStage];
    }
    ghost var beforeTips := recs;
    if avgResponse > 100.0 {
      recs := recs + [TipsHeading];
      recs := recs + [TipIndexes];
      recs := recs + [TipCompression];
      recs := recs + [TipRedisCache];
      recs := recs + [TipConnectionPool];
      assert recs == beforeTips + OptimisationTips;
    }
  }

  /** `generateRecommendations`: the list it pushes, and the string it returns. */
  method GenerateRecommendations(successRate: real, avgResponse: real, p95Response: real,
                                 httpFailRate: real, maxVUs: real, reqPerSec: real)
    returns (recs: seq<Recommendation>, text: string)
    ensures recs == Recommendations(successRate, avgResponse, p95Response, httpFailRate, maxVUs, reqPerSec)
    ensures TopTier(successRate, p95Response, reqPerSec) ==>
      |recs| >= 2 && recs[..2] == [TopPerformance, TestHigherLoad]
    ensures SecondTier(successRate, p95Response, reqPerSec) ==>
      |recs| >= 2 && recs[..2] == [GoodPerformance, ConsiderCaching]
    ensures TopPerformance in recs <==> TopTier(successRate, p95Response, reqPerSec)
    ensures GoodPerformance in recs <==> SecondTier(successRate, p95Response, reqPerSec)
    ensures ImproveSuccessRate in recs <==> NeedsWork(successRate, p95Response, reqPerSec) && successRate < 95.0
    ensures OptimiseQueries in recs <==> NeedsWork(successRate, p95Response, reqPerSec) && p95Response > 1000.0
    ensures HttpFailRateHigh in recs <==> NeedsWork(successRate, p95Response, reqPerSec) && httpFailRate > 5.0
    ensures ImproveThroughput in recs <==> NeedsWork(successRate, p95Response, reqPerSec) && reqPerSec < 20.0
    ensures NextStressStage in recs <==> maxVUs <= 30.0 && successRate >= 95.0
    ensures TipsHeading in recs <==> avgResponse > 100.0
    ensures avgResponse > 100.0 ==> |recs| >= 5 && recs[|recs| - 5..] == OptimisationTips
    ensures text == Render(recs)
  {
    var tier := TierAdvice(successRate, p95Response, httpFailRate, reqPerSec);
    recs := ClosingAdvice(tier, successRate, avgResponse, maxVUs);
    text := if |recs| > 0 then JoinTexts(recs) else NoRecommendation;
  }

  /** No message is pushed twice. */
  lemma {:induction false} RecommendationsDistinct(successRate: real, avgResponse: real, p95Response: real,
                                                   httpFailRate: real, maxVUs: real, reqPerSec: real)
    ensures var recs := Recommendations(successRate, avgResponse, p95Response, httpFailRate, maxVUs, reqPerSec);
      forall i, j :: 0 <= i < j < |recs| ==> recs[i] != recs[j]
  {
    var tier := TierBlock(successRate, p95Response, httpFailRate, reqPerSec);
    var w := Warnings(successRate, p95Response, httpFailRate, reqPerSec);
    assert forall i, j :: 0 <= i < j < |w| ==> w[i] != w[j];
    assert forall i, j :: 0 <= i < j < |tier| ==> tier[i] != tier[j];
    assert forall i :: 0 <= i < |tier| ==> TierMessage(tier[i]);
  }

  /** The top tier excludes every improvement warning. */
  lemma TopTierHasNoWarnings(successRate: real, p95Response: real, reqPerSec: real)
    requires TopTier(successRate, p95Response, reqPerSec)
    ensures !NeedsWork(successRate, p95Response, reqPerSec) && !SecondTier(successRate, p95Response, reqPerSec)
  {
  }
}
