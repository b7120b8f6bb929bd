/** One virtual-user iteration of the resume download load test: submit a
    save-files job, poll the task-status endpoint until completion, a 404 or
    the poll budget, then record the outcome in the `errors` rate.

    Every HTTP reply is an input. The replies to the status requests come as
    a sequence: request number k (counting from 1) receives `replies[k-1]`;
    a request past the end of the sequence receives what the load-testing
    runtime reports for a network failure (status 0, no body). Samples of the
    `errors` rate are booleans: `true` for `errorRate.add(1)`, `false` for
    `errorRate.add(0)`. */
module DownloadPoller {

  import opened Wrappers
  import opened RealArith

  /** Parsed body of the submit reply; `taskId` is `None` when undefined. */
  datatype SubmitBody = SubmitBody(taskId: Option<string>)

  /** `body` is `None` when the reply body is not JSON. */
  datatype SubmitReply = SubmitReply(status: int, body: Option<SubmitBody>)

  /** Parsed body of a task-status reply. `completed` is the truthiness of the
      field; `savedFiles`/`failedFiles` are the array lengths, 0 when absent. */
  datatype StatusBody = StatusBody(taskId: Option<string>, completed: bool, savedFiles: nat, failedFiles: nat)

  datatype StatusReply = StatusReply(status: int, body: Option<StatusBody>)

  const NetworkFailure: StatusReply := StatusReply(0, None)

  /** The reply to status request number k + 1. */
  function ReplyAt(replies: seq<StatusReply>, k: nat): StatusReply
  {
    if k < |replies| then replies[k] else NetworkFailure
  }

  /** Both checks on the submit reply: status 202 and a `taskId` in the body. */
  predicate SubmitAccepted(r: SubmitReply)
  {
    r.status == 202 && r.body.Some? && r.body.value.taskId.Some?
  }

  /** Both checks on a status reply: status 200 and the same `taskId`. */
  predicate StatusValid(taskId: string, r: StatusReply)
  {
    r.status == 200 && r.body.Some? && r.body.value.taskId == Some(taskId)
  }

  /** What the loop makes of one status reply. */
  datatype PollVerdict = NotFound | CheckFailed | Pending | Done(saved: nat, failed: nat)

  function Classify(taskId: string, r: StatusReply): PollVerdict
  {
    if !StatusValid(taskId, r) then
      if r.status == 404 then NotFound else CheckFailed
    else if r.body.value.completed then Done(r.body.value.savedFiles, r.body.value.failedFiles)
    else Pending
  }

  /** A reply after which the loop issues no further status request. */
  predicate Terminal(v: PollVerdict)
  {
    v.NotFound? || v.Done?
  }

  /** Share of failed files; 0 when the task reports no files at all. */
  function FailureRatio(saved: nat, failed: nat): real
  {
    if saved + failed > 0 then failed as real / (saved + failed) as real else 0.0
  }

  /** The advisory checks run on a completed task. */
  datatype QualityChecks = QualityChecks(completedSuccessfully: bool, hasSavedFiles: bool, errorRateAcceptable: bool)

  function Quality(saved: nat, failed: nat): QualityChecks
  {
    QualityChecks(true, saved > 0, FailureRatio(saved, failed) <= 0.1)
  }

  /** How the polling loop ended. */
  datatype LoopExit = Finished(saved: nat, failed: nat) | Gone | BudgetSpent

  datatype LoopEnd = LoopEnd(pollCount: nat, samples: seq<bool>, exit: LoopExit)

  /** The polling loop from the state reached after `pollCount` requests. */
  function PollFrom(taskId: string, replies: seq<StatusReply>, maxPolls: int, pollCount: nat, samples: seq<bool>): LoopEnd
    decreases maxPolls - pollCount
  {
    if pollCount >= maxPolls then LoopEnd(pollCount, samples, BudgetSpent)
    else
      match Classify(taskId, ReplyAt(replies, pollCount))
      case NotFound => LoopEnd(pollCount + 1, samples, Gone)
      case CheckFailed => PollFrom(taskId, replies, maxPolls, pollCount + 1, samples + [true])
      case Pending => PollFrom(taskId, replies, maxPolls, pollCount + 1, samples)
      case Done(s, f) => LoopEnd(pollCount + 1, samples, Finished(s, f))
  }

  /** The error taxonomy of one iteration. */
  datatype Exit = SubmissionFailed | Completed(checks: QualityChecks) | TaskNotFound | TaskTimeout

  datatype Outcome = Outcome(pollCount: nat, completed: bool, errorSamples: seq<bool>, exit: Exit)

  /** One iteration of the default export, as a function of the replies. */
  function Iteration(submit: SubmitReply, replies: seq<StatusReply>, maxPolls: int): Outcome
  {
    if !SubmitAccepted(submit) then Outcome(0, false, [true], SubmissionFailed)
    else
      var e := PollFrom(submit.body.value.taskId.value, replies, maxPolls, 0, []);
      match e.exit
      case Finished(s, f) => Outcome(e.pollCount, true, e.samples + [false], Completed(Quality(s, f)))
      case Gone => Outcome(e.pollCount, false, e.samples + [true, false], TaskNotFound)
      case BudgetSpent => Outcome(e.pollCount, false, e.samples + [true, false], TaskTimeout)
  }

  /** The default export: submit, then the `while (!completed && pollCount < maxPolls)`
      loop with its `break` on 404 and on completion and its `continue` on a
      failed status check, then the closing error samples. */
  method DownloadIteration(submit: SubmitReply, replies: seq<StatusReply>, maxPolls: int)
    returns (pollCount: nat, completed: bool, errorSamples: seq<bool>, exit: Exit)
    ensures Outcome(pollCount, completed, errorSamples, exit) == Iteration(submit, replies, maxPolls)
  {
    if !SubmitAccepted(submit) {
      return 0, false, [true], SubmissionFailed;
    }
    var taskId := submit.body.value.taskId.value;
    ghost var whole := PollFrom(taskId, replies, maxPolls, 0, []);
    completed, pollCount, errorSamples := false, 0, [];
    var checks := QualityChecks(false, false, false);
    var notFound := false;
    while !completed && pollCount < maxPolls
      invariant !notFound
      invariant PollFrom(taskId, replies, maxPolls, pollCount, errorSamples) == whole
      decreases maxPolls - pollCount
    {
      var reply := ReplyAt(replies, pollCount);
      ghost var before := pollCount;
      pollCount := pollCount + 1;
      if !StatusValid(taskId, reply) {
        if reply.status == 404 {
          notFound := true;
          assert whole == LoopEnd(pollCount, errorSamples, Gone) by {
            assert Classify(taskId, ReplyAt(replies, before)) == NotFound;
          }
          break;
        }
        errorSamples := errorSamples + [true];
        continue;
      }
      var body := reply.body.value;
      completed := body.completed;
      if completed {
        checks := Quality(body.savedFiles, body.failedFiles);
        assert whole == LoopEnd(pollCount, errorSamples, Finished(body.savedFiles, body.failedFiles)) by {
          assert Classify(taskId, ReplyAt(replies, before)) == Done(body.savedFiles, body.failedFiles);
        }
        break;
      }
    }
    if !completed {
      errorSamples := errorSamples + [true];
    }
    errorSamples := errorSamples + [false];
    exit := if completed then Completed(checks) else if notFound then TaskNotFound else TaskTimeout;
  }

  /* ---------------- Properties of the iteration ---------------- */

  function TaskIdOf(submit: SubmitReply): string
    requires SubmitAccepted(submit)
  {
    submit.body.value.taskId.value
  }

  /** `n` samples of `errorRate.add(1)`. */
  function Errors(n: nat): (r: seq<bool>)
    ensures |r| == n && forall i :: 0 <= i < n ==> r[i]
  {
    seq(n, _ => true)
  }

  /** Number of replies among requests lo+1 .. hi whose status check fails
      with a status other than 404. */
  function FailedChecks(taskId: string, replies: seq<StatusReply>, lo: nat, hi: nat): nat
    decreases hi - lo
  {
    if lo >= hi then 0
    else (if Classify(taskId, ReplyAt(replies, lo)).CheckFailed? then 1 else 0)
         + FailedChecks(taskId, replies, lo + 1, hi)
  }

  /** The loop never issues a request past the budget, issues one request per
      step, and stops exactly at its first terminal reply; every failed check
      on the way adds one `true` sample and nothing else adds any. */
  lemma {:induction false} PollFromCharacterised(taskId: string, replies: seq<StatusReply>, maxPolls: int, pollCount: nat, samples: seq<bool>)
    ensures var e := PollFrom(taskId, replies, maxPolls, pollCount, samples);
      && pollCount <= e.pollCount
      && (e.pollCount == pollCount || e.pollCount <= maxPolls)
      && (forall j :: pollCount <= j < e.pollCount - 1 ==> !Terminal(Classify(taskId, ReplyAt(replies, j))))
      && (e.exit.Gone? ==> pollCount < e.pollCount && Classify(taskId, ReplyAt(replies, e.pollCount - 1)).NotFound?)
      && (e.exit.Finished? ==>
            pollCount < e.pollCount && Classify(taskId, ReplyAt(replies, e.pollCount - 1)) == Done(e.exit.saved, e.exit.failed))
      && (e.exit.BudgetSpent? ==>
            && e.pollCount == (if pollCount < maxPolls then maxPolls else pollCount)
            && forall j :: pollCount <= j < e.pollCount ==> !Terminal(Classify(taskId, ReplyAt(replies, j))))
      && e.samples == samples + Errors(FailedChecks(taskId, replies, pollCount, e.pollCount))
    decreases maxPolls - pollCount
  {
    var e := PollFrom(taskId, replies, maxPolls, pollCount, samples);
    if pollCount >= maxPolls {
      assert e.samples == samples + Errors(0);
    } else {
      var v := Classify(taskId, ReplyAt(replies, pollCount));
      match v
      case NotFound =>
        assert FailedChecks(taskId, replies, pollCount, e.pollCount) == 0;
        assert e.samples == samples + Errors(0);
      case Done(_, _) =>
        assert FailedChecks(taskId, replies, pollCount, e.pollCount) == 0;
        assert e.samples == samples + Errors(0);
      case CheckFailed =>
        PollFromCharacterised(taskId, replies, maxPolls, pollCount + 1, samples + [true]);
        var n := FailedChecks(taskId, replies, pollCount + 1, e.pollCount);
        assert FailedChecks(taskId, replies, pollCount, e.pollCount) == n + 1;
        assert samples + [true] + Errors(n) == samples + Errors(n + 1);
      case Pending =>
        PollFromCharacterised(taskId, replies, maxPolls, pollCount + 1, samples);
    }
  }

  /** A rejected submission (not 202, or no `taskId`) records exactly one
      error sample and issues no status request. */
  lemma SubmissionRejectedIssuesNoPoll(submit: SubmitReply, replies: seq<StatusReply>, maxPolls: int)
    requires submit.status != 202 || submit.body.None? || submit.body.value.taskId.None?
    ensures Iteration(submit, replies, maxPolls) == Outcome(0, false, [true], SubmissionFailed)
  {
  }

  /** The number of status requests never exceeds the poll budget. */
  lemma PollCountWithinBudget(submit: SubmitReply, replies: seq<StatusReply>, maxPolls: int)
    ensures Iteration(submit, replies, maxPolls).pollCount <= if maxPolls > 0 then maxPolls else 0
  {
    if SubmitAccepted(submit) {
      PollFromCharacterised(TaskIdOf(submit), replies, maxPolls, 0, []);
    }
  }

  /** The loop stops at its first terminal reply within the budget. */
  lemma {:induction false} PollStopsAtFirstTerminal(taskId: string, replies: seq<StatusReply>, maxPolls: int, pollCount: nat, samples: seq<bool>, k: nat)
    requires pollCount <= k < maxPolls
    requires Terminal(Classify(taskId, ReplyAt(replies, k)))
    requires forall j :: pollCount <= j < k ==> !Terminal(Classify(taskId, ReplyAt(replies, j)))
    ensures var e := PollFrom(taskId, replies, maxPolls, pollCount, samples);
      && e.pollCount == k + 1
      && (e.exit.Gone? <==> Classify(taskId, ReplyAt(replies, k)).NotFound?)
      && (e.exit.Finished? <==> Classify(taskId, ReplyAt(replies, k)).Done?)
    decreases k - pollCount
  {
    if pollCount < k {
      var v := Classify(taskId, ReplyAt(replies, pollCount));
      assert !Terminal(v);
      if v.CheckFailed? {
        PollStopsAtFirstTerminal(taskId, replies, maxPolls, pollCount + 1, samples + [true], k);
      } else {
        PollStopsAtFirstTerminal(taskId, replies, maxPolls, pollCount + 1, samples, k);
      }
    }
  }

  /** Once a status reply reports the task completed, the loop breaks: that
      request is the last one issued, and the iteration counts as completed. */
  lemma CompletionStopsPolling(submit: SubmitReply, replies: seq<StatusReply>, maxPolls: int, k: nat)
    requires SubmitAccepted(submit) && k < maxPolls
    requires Classify(TaskIdOf(submit), ReplyAt(replies, k)).Done?
    requires forall j :: 0 <= j < k ==> !Terminal(Classify(TaskIdOf(submit), ReplyAt(replies, j)))
    ensures var o := Iteration(submit, replies, maxPolls);
      var v := Classify(TaskIdOf(submit), ReplyAt(replies, k));
      o.pollCount == k + 1 && o.completed && o.exit == Completed(Quality(v.saved, v.failed))
  {
    PollStopsAtFirstTerminal(TaskIdOf(submit), replies, maxPolls, 0, [], k);
    PollFromCharacterised(TaskIdOf(submit), replies, maxPolls, 0, []);
  }

  /** A 404 ends the loop at once, whatever budget remains; the iteration is
      not completed and ends with the after-loop error sample and the final 0. */
  lemma NotFoundStopsPolling(submit: SubmitReply, replies: seq<StatusReply>, maxPolls: int, k: nat)
    requires SubmitAccepted(submit) && k < maxPolls
    requires ReplyAt(replies, k).status == 404
    requires forall j :: 0 <= j < k ==> !Terminal(Classify(TaskIdOf(submit), ReplyAt(replies, j)))
    ensures var o := Iteration(submit, replies, maxPolls);
      && o.pollCount == k + 1 && !o.completed && o.exit == TaskNotFound
      && o.errorSamples[|o.errorSamples| - 2..] == [true, false]
  {
    PollStopsAtFirstTerminal(TaskIdOf(submit), replies, maxPolls, 0, [], k);
  }

  /** When no reply within the budget is terminal, the whole budget is spent
      and the iteration ends in a timeout. */
  lemma BudgetExhaustedIsTimeout(submit: SubmitReply, replies: seq<StatusReply>, maxPolls: int)
    requires SubmitAccepted(submit)
    requires forall j :: 0 <= j < maxPolls ==> !Terminal(Classify(TaskIdOf(submit), ReplyAt(replies, j)))
    ensures var o := Iteration(submit, replies, maxPolls);
      && o.pollCount == (if maxPolls > 0 then maxPolls else 0) && !o.completed && o.exit == TaskTimeout
      && o.errorSamples == Errors(FailedChecks(TaskIdOf(submit), replies, 0, o.pollCount)) + [true, false]
  {
    PollFromCharacterised(TaskIdOf(submit), replies, maxPolls, 0, []);
    AcceptedOutcome(submit, replies, maxPolls);
  }

  /** The outcome of an accepted submission, all at once: the requests issued
      before the last one were all non-terminal; the iteration is completed iff
      the last reply reported completion, a 404 iff the last reply was a 404;
      the `errors` samples are one `true` per failed non-404 status check, one
      more `true` unless completed (so a 404 is counted too), and a final
      `false`. */
  lemma AcceptedOutcome(submit: SubmitReply, replies: seq<StatusReply>, maxPolls: int)
    requires SubmitAccepted(submit)
    ensures var o := Iteration(submit, replies, maxPolls);
      var t := TaskIdOf(submit);
      && (forall j :: 0 <= j < o.pollCount - 1 ==> !Terminal(Classify(t, ReplyAt(replies, j))))
      && (o.completed <==> o.pollCount > 0 && Classify(t, ReplyAt(replies, o.pollCount - 1)).Done?)
      && (o.exit == TaskNotFound <==> o.pollCount > 0 && Classify(t, ReplyAt(replies, o.pollCount - 1)).NotFound?)
      && (o.completed <==> o.exit.Completed?)
      && o.errorSamples == Errors(FailedChecks(t, replies, 0, o.pollCount)) + (if o.completed then [] else [true]) + [false]
  {
    var t := TaskIdOf(submit);
    PollFromCharacterised(t, replies, maxPolls, 0, []);
    var e := PollFrom(t, replies, maxPolls, 0, []);
    if e.exit.BudgetSpent? && e.pollCount > 0 {
      assert !Terminal(Classify(t, ReplyAt(replies, e.pollCount - 1)));
    }
  }

  /** The "error rate acceptable" check in integer form. */
  lemma ErrorRateAcceptableIff(saved: nat, failed: nat)
    ensures Quality(saved, failed).errorRateAcceptable <==> 10 * failed <= saved + failed
  {
    var total := saved + failed;
    if total > 0 {
      QuotientCompare(failed as real, total as real, 0.1);
      assert 0.1 * total as real == total as real / 10.0;
    }
  }

  /** The checks on a completed task are advisory: whatever they say, the
      iteration is completed and ends with one `false` sample and no `true`
      one after the loop. */
  lemma QualityChecksAdvisory(submit: SubmitReply, replies: seq<StatusReply>, maxPolls: int)
    requires Iteration(submit, replies, maxPolls).exit.Completed?
    ensures var o := Iteration(submit, replies, maxPolls);
      && o.completed
      && o.errorSamples[|o.errorSamples| - 1] == false
      && o.exit.checks.completedSuccessfully
  {
  }

  /* ---------------- Scenarios ---------------- */

  /** Submission accepted as "T1"; first poll in progress, second completed
      with one saved file: two polls, completed, a single `false` sample. */
  lemma ScenarioCompletesOnSecondPoll()
    ensures var pending := StatusReply(200, Some(StatusBody(Some("T1"), false, 0, 0)));
      var done := StatusReply(200, Some(StatusBody(Some("T1"), true, 1, 0)));
      Iteration(SubmitReply(202, Some(SubmitBody(Some("T1")))), [pending, done], 60)
        == Outcome(2, true, [false], Completed(QualityChecks(true, true, true)))
  {
    var pending := StatusReply(200, Some(StatusBody(Some("T1"), false, 0, 0)));
    var done := StatusReply(200, Some(StatusBody(Some("T1"), true, 1, 0)));
    assert FailureRatio(1, 0) == 0.0;
    assert PollFrom("T1", [pending, done], 60, 1, []) == LoopEnd(2, [], Finished(1, 0));
  }

  /** A budget of three polls, every reply still in progress: three polls,
      then the timeout error and the final 0. */
  lemma ScenarioTimesOutAfterThreePolls()
    ensures var pending := StatusReply(200, Some(StatusBody(Some("T1"), false, 0, 0)));
      Iteration(SubmitReply(202, Some(SubmitBody(Some("T1")))), [pending, pending, pending], 3)
        == Outcome(3, false, [true, false], TaskTimeout)
  {
    var pending := StatusReply(200, Some(StatusBody(Some("T1"), false, 0, 0)));
    assert PollFrom("T1", [pending, pending, pending], 3, 2, []) == LoopEnd(3, [], BudgetSpent);
    assert PollFrom("T1", [pending, pending, pending], 3, 1, []) == LoopEnd(3, [], BudgetSpent);
  }

  /* ---------------- File selection ---------------- */

  /** `Math.floor(u * (MAX_FILES - MIN_FILES + 1)) + MIN_FILES` for a draw
      `u` of `Math.random()`. */
  function RandomCount(minFiles: int, maxFiles: int, u: real): int
  {
    (u * (maxFiles - minFiles + 1) as real).Floor + minFiles
  }

  lemma RandomCountInRange(minFiles: int, maxFiles: int, u: real)
    requires 0.0 <= u < 1.0 && minFiles <= maxFiles
    ensures minFiles <= RandomCount(minFiles, maxFiles, u) <= maxFiles
  {
    var width := (maxFiles - minFiles + 1) as real;
    assert 0.0 <= u * width < width;
  }

  /** `s.slice(0, end)`: a negative end counts back from the end of `s`. */
  function SlicePrefix<T>(s: seq<T>, end: int): (r: seq<T>)
    ensures end >= 0 ==> |r| == (if end < |s| then end else |s|)
    ensures end < 0 ==> |r| == (if |s| + end > 0 then |s| + end else 0)
    ensures multiset(r) <= multiset(s)
  {
    var n := if end < 0 then (if |s| + end > 0 then |s| + end else 0)
             else if end < |s| then end else |s|;
    assert s == s[..n] + s[n..];
    s[..n]
  }

  /** `getRandomFilePaths`: `shuffled` is the result of sorting a copy of the
      file paths with a random comparator, `u` the draw for the count. */
  function GetRandomFilePaths(shuffled: seq<string>, minFiles: int, maxFiles: int, u: real): seq<string>
  {
    SlicePrefix(shuffled, RandomCount(minFiles, maxFiles, u))
  }

  /** With a valid range the selection has `min(randomCount, |filePaths|)`
      entries, every one drawn from `filePaths` without repetition beyond
      the multiplicity there. */
  lemma SelectionBounded(filePaths: seq<string>, shuffled: seq<string>, minFiles: int, maxFiles: int, u: real)
    requires multiset(shuffled) == multiset(filePaths)
    requires 0.0 <= u < 1.0 && 0 <= minFiles <= maxFiles
    ensures var n := RandomCount(minFiles, maxFiles, u);
      var r := GetRandomFilePaths(shuffled, minFiles, maxFiles, u);
      && minFiles <= n <= maxFiles
      && |r| == (if n < |filePaths| then n else |filePaths|)
      && multiset(r) <= multiset(filePaths)
      && forall p :: p in r ==> p in filePaths
  {
    RandomCountInRange(minFiles, maxFiles, u);
    var r := GetRandomFilePaths(shuffled, minFiles, maxFiles, u);
    assert |shuffled| == |multiset(shuffled)| == |filePaths|;
    forall p | p in r ensures p in filePaths {
      assert p in multiset(r);
    }
  }
}
