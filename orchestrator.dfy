/**
 * The unattended driver: the retry policy of `run_script` over the outcomes of successive
 * subprocess attempts, the log check for a recent Instagram rate limit, and the iteration loop of
 * `main_collection_loop` with its resume, stop and checkpoint rules. Subprocess outcomes, log contents
 * and the checkpoint file are parameters; sleeps are reported as the sequence of their durations.
 */
module Orchestrator {
  import opened Wrappers
  import opened Json
  import Text

  // ---- run_script ---------------------------------------------------------------------------

  /** What one `subprocess.run` attempt did: exited, timed out after two hours, or raised. */
  datatype Attempt = Exited(code: int, stdout: string, stderr: string) | TimedOut | Failed

  const InstagramRateLimitWait: nat := 1320
  const InstagramRetryDelay: nat := 60
  const YouTubeQuotaWait: nat := 300
  const GeneralRetryDelay: nat := 30

  /** `result.stderr or result.stdout` */
  function ErrorOutput(stdout: string, stderr: string): string {
    if stderr != "" then stderr else stdout
  }

  /** The rate-limit test on a failed run's output. */
  predicate RateLimited(output: string) {
    Text.Contains(Text.Lower(output), "rate limit") || Text.Contains(output, "401") || Text.Contains(output, "429")
  }

  /** The cool-down a rate-limited script waits out instead of the retry rule, if it has one. */
  function CoolDown(script: string): Option<nat> {
    if Text.Contains(Text.Lower(script), "instagram") then Some(InstagramRateLimitWait)
    else if Text.Contains(Text.Lower(script), "youtube") then Some(YouTubeQuotaWait)
    else None
  }

  /** A rate-limited exit of a script with a cool-down: it waits and moves on to the next attempt. */
  predicate CooledDown(coolDown: Option<nat>, a: Attempt) {
    a.Exited? && a.code != 0 && RateLimited(ErrorOutput(a.stdout, a.stderr)) && coolDown.Some?
  }

  /** The result of `run_script`: its return value, the sleeps it took and the number of attempts made. */
  datatype ScriptRun = ScriptRun(ok: bool, sleeps: seq<nat>, attempts: nat)

  predicate Succeeded(a: Attempt) {
    a.Exited? && a.code == 0
  }

  /**
   * The attempts from number `a` on, for a script with cool-down `coolDown`; `outcome(a)` is what
   * attempt `a` did. A failure sleeps and goes on when it is cooled down or not the last attempt.
   */
  function RunFrom(coolDown: Option<nat>, maxRetries: nat, retryDelay: nat, outcome: nat -> Attempt, a: nat): ScriptRun
    requires a >= 1
    decreases maxRetries + 1 - a
  {
    if a > maxRetries then ScriptRun(false, [], maxRetries)
    else if Succeeded(outcome(a)) then ScriptRun(true, [], a)
    else if !CooledDown(coolDown, outcome(a)) && a == maxRetries then ScriptRun(false, [], a)
    else
      var d := if CooledDown(coolDown, outcome(a)) then coolDown.value else retryDelay;
      Prepended([d], RunFrom(coolDown, maxRetries, retryDelay, outcome, a + 1))
  }

  /** A run with the sleeps `s` taken before it. */
  function Prepended(s: seq<nat>, r: ScriptRun): ScriptRun {
    ScriptRun(r.ok, s + r.sleeps, r.attempts)
  }

  lemma PrependedTwice(s: seq<nat>, t: seq<nat>, r: ScriptRun)
    ensures Prepended(s, Prepended(t, r)) == Prepended(s + t, r)
  {
    assert s + (t + r.sleeps) == (s + t) + r.sleeps;
  }

  function RunScriptSpec(script: string, maxRetries: nat, retryDelay: nat, outcome: nat -> Attempt): ScriptRun {
    RunFrom(CoolDown(script), maxRetries, retryDelay, outcome, 1)
  }

  /**
   * From attempt `a` on: success exactly when a later attempt within the budget exits with 0; never
   * more than `maxRetries` attempts; each sleep is the retry delay or the script's cool-down.
   */
  lemma {:induction false} RunFromFacts(coolDown: Option<nat>, maxRetries: nat, retryDelay: nat, outcome: nat -> Attempt, a: nat)
    requires 1 <= a
    ensures var r := RunFrom(coolDown, maxRetries, retryDelay, outcome, a);
      && (r.ok <==> exists b :: a <= b <= maxRetries && Succeeded(outcome(b)))
      && r.attempts <= maxRetries
      && (r.ok ==> Succeeded(outcome(r.attempts)) && forall b :: a <= b < r.attempts ==> !Succeeded(outcome(b)))
      && (forall k :: 0 <= k < |r.sleeps| ==> r.sleeps[k] == retryDelay || Some(r.sleeps[k]) == coolDown)
    decreases maxRetries + 1 - a
  {
    if a <= maxRetries && !Succeeded(outcome(a)) {
      RunFromFacts(coolDown, maxRetries, retryDelay, outcome, a + 1);
      if exists b :: a <= b <= maxRetries && Succeeded(outcome(b)) {
        var b :| a <= b <= maxRetries && Succeeded(outcome(b));
        assert b != a;
      }
    }
  }

  /**
   * `run_script` returns True exactly when some attempt within the budget exits with 0, makes at most
   * `maxRetries` attempts, and never sleeps anything but the retry delay or the script's cool-down.
   */
  lemma RunScriptFacts(script: string, maxRetries: nat, retryDelay: nat, outcome: nat -> Attempt)
    ensures var r := RunScriptSpec(script, maxRetries, retryDelay, outcome);
      && (r.ok <==> exists b :: 1 <= b <= maxRetries && Succeeded(outcome(b)))
      && r.attempts <= maxRetries
      && (forall k :: 0 <= k < |r.sleeps| ==> r.sleeps[k] == retryDelay || Some(r.sleeps[k]) == CoolDown(script))
  {
    RunFromFacts(CoolDown(script), maxRetries, retryDelay, outcome, 1);
  }

  /**
   * The number of sleeps: one after every failed attempt but the last, whose retry delay is skipped;
   * a rate-limited last attempt of a script with a cool-down still waits it out, and then returns False.
   */
  lemma {:induction false} RunFromSleeps(coolDown: Option<nat>, maxRetries: nat, retryDelay: nat, outcome: nat -> Attempt, a: nat)
    requires 1 <= a <= maxRetries
    ensures var r := RunFrom(coolDown, maxRetries, retryDelay, outcome, a);
      && (r.ok ==> |r.sleeps| == r.attempts - a)
      && (!r.ok ==> |r.sleeps| == maxRetries - a + (if CooledDown(coolDown, outcome(maxRetries)) then 1 else 0))
    decreases maxRetries - a
  {
    if !Succeeded(outcome(a)) && a < maxRetries {
      RunFromSleeps(coolDown, maxRetries, retryDelay, outcome, a + 1);
    }
  }

  /** `run_script`: the `for attempt in range(1, max_retries + 1)` loop with its `continue` and returns. */
  method RunScript(script: string, maxRetries: nat, retryDelay: nat, outcome: nat -> Attempt) returns (r: ScriptRun)
    ensures r == RunScriptSpec(script, maxRetries, retryDelay, outcome)
  {
    var sleeps: seq<nat> := [];
    var attempt := 1;
    while attempt <= maxRetries
      invariant 1 <= attempt <= maxRetries + 1
      invariant Prepended(sleeps, RunFrom(CoolDown(script), maxRetries, retryDelay, outcome, attempt)) == RunScriptSpec(script, maxRetries, retryDelay, outcome)
      decreases maxRetries + 1 - attempt
    {
      var o := outcome(attempt);
      if o.Exited? {
        if o.code == 0 {
          return ScriptRun(true, sleeps, attempt);
        }
        var errorOutput := ErrorOutput(o.stdout, o.stderr);
        if RateLimited(errorOutput) {
          if Text.Contains(Text.Lower(script), "instagram") {
            PrependedTwice(sleeps, [InstagramRateLimitWait], RunFrom(CoolDown(script), maxRetries, retryDelay, outcome, attempt + 1));
            sleeps := sleeps + [InstagramRateLimitWait];
            attempt := attempt + 1;
            continue;
          } else if Text.Contains(Text.Lower(script), "youtube") {
            PrependedTwice(sleeps, [YouTubeQuotaWait], RunFrom(CoolDown(script), maxRetries, retryDelay, outcome, attempt + 1));
            sleeps := sleeps + [YouTubeQuotaWait];
            attempt := attempt + 1;
            continue;
          }
        }
      }
      if attempt < maxRetries {
        PrependedTwice(sleeps, [retryDelay], RunFrom(CoolDown(script), maxRetries, retryDelay, outcome, attempt + 1));
        sleeps := sleeps + [retryDelay];
      } else {
        return ScriptRun(false, sleeps, attempt);
      }
      attempt := attempt + 1;
    }
    r := ScriptRun(false, sleeps, maxRetries);
  }

  // ---- check_instagram_rate_limit ------------------------------------------------------------------

  /** A log line that signals a recent Instagram rate limit. */
  predicate Alarming(line: string) {
    Text.Contains(Text.Lower(line), "rate limit") || Text.Contains(Text.Lower(line), "22 minutes") || Text.Contains(line, "401")
  }

  /** `f.readlines()[-50:]` */
  function RecentLines(lines: seq<string>): (r: seq<string>)
    ensures |r| == (if |lines| > 50 then 50 else |lines|) && r == lines[|lines| - |r|..]
  {
    if |lines| > 50 then lines[|lines| - 50..] else lines
  }

  /** `check_instagram_rate_limit` on the log file's lines, `None` when there is no log file. */
  method CheckInstagramRateLimit(log: Option<seq<string>>) returns (limited: bool)
    ensures limited <==> log.Some? && exists k :: 0 <= k < |RecentLines(log.value)| && Alarming(RecentLines(log.value)[k])
  {
    if log.None? {
      return false;
    }
    var recent := RecentLines(log.value);
    for k := 0 to |recent|
      invariant forall j :: 0 <= j < k ==> !Alarming(recent[j])
    {
      if Alarming(recent[k]) {
        return true;
      }
    }
    return false;
  }

  /** `check_instagram_rate_limit` as a value, for the loop's specification. */
  predicate RecentRateLimit(log: Option<seq<string>>) {
    log.Some? && exists k :: 0 <= k < |RecentLines(log.value)| && Alarming(RecentLines(log.value)[k])
  }

  /** Only the last 50 lines count: an alarming line followed by 50 quiet ones no longer triggers the wait. */
  lemma OldAlarmsExpire(older: seq<string>, quiet: seq<string>)
    requires |quiet| >= 50 && forall k :: 0 <= k < |quiet| ==> !Alarming(quiet[k])
    ensures !RecentRateLimit(Some(older + quiet))
  {
    var lines := older + quiet;
    var r := RecentLines(lines);
    forall k | 0 <= k < |r| ensures !Alarming(r[k]) {
      assert r[k] == lines[|lines| - 50 + k] == quiet[|quiet| - 50 + k];
    }
  }

  // ---- main_collection_loop -----------------------------------------------------------------------

  /** One stage: its script, its retry budget and its retry delay. */
  datatype Stage = Stage(script: string, maxRetries: nat, retryDelay: nat)

  const Stages: seq<Stage> := [
    Stage("collect_lastfm_artists.py", 2, GeneralRetryDelay),
    Stage("collect_instagram_data.py", 5, InstagramRetryDelay),
    Stage("collect_youtube_data.py", 3, GeneralRetryDelay),
    Stage("merge_and_upload_bigquery.py", 2, GeneralRetryDelay)]

  const StagePause: nat := 10
  const CycleWait: nat := 1800

  /**
   * A saved checkpoint, without its clock reading and file statistics; `interrupted` is whether the
   * `interrupted: True` key is present (a normal checkpoint has no such key).
   */
  datatype Checkpoint = Checkpoint(iteration: int, interrupted: bool)

  /** The JSON document `save_checkpoint` writes for `c`, given the `last_run` stamp and the `stats` object. */
  function CheckpointJson(c: Checkpoint, lastRun: string, stats: Json): (j: Json)
    ensures j.JObj? && "iteration" in j.fields && j.fields["iteration"] == JInt(c.iteration)
    ensures j.fields.Keys == {"iteration", "last_run", "stats"} + (if c.interrupted then {"interrupted"} else {})
  {
    var fields := map["iteration" := JInt(c.iteration), "last_run" := JStr(lastRun), "stats" := stats];
    JObj(if c.interrupted then fields["interrupted" := JBool(true)] else fields)
  }

  /**
   * `checkpoint.get('iteration', 0)` after `load_checkpoint`: a missing or unreadable file is `{}`.
   * `None` when the value makes the code raise (a payload that is not an object, or an iteration
   * that cannot be compared and incremented); a boolean counts as 0 or 1.
   */
  function StartIteration(file: Option<Json>): Option<int> {
    match file
    case None => Some(0)
    case Some(JObj(m)) =>
      (match Get(m, "iteration", JInt(0))
       case JInt(n) => Some(n)
       case JBool(b) => Some(if b then 1 else 0)
       case _ => None)
    case Some(_) => None
  }

  /** A later invocation resumes from the counter of the checkpoint saved last, interrupted or not. */
  lemma ResumeFromCheckpoint(c: Checkpoint, lastRun: string, stats: Json)
    ensures StartIteration(Some(CheckpointJson(c, lastRun, stats))) == Some(c.iteration)
  {
  }

  /**
   * The inputs of one invocation: `outcome(j, s, a)` is what attempt `a` of stage `s` did in the
   * `j`-th iteration of this invocation (from 0), `log(j)` the log file before that iteration's
   * Instagram stage, and `interrupt` the iteration (from 1) in which Ctrl+C arrives, before its first stage.
   */
  datatype World = World(outcome: (nat, nat, nat) -> Attempt, log: nat -> Option<seq<string>>, interrupt: Option<nat>)

  /** Of the four stage scripts, the Instagram and YouTube collectors have a cool-down, by their names. */
  lemma LastfmCoolDown(name: string)
    requires name == "collect_lastfm_artists.py"
    ensures CoolDown(name) == None
  {
    LastfmLacks(name, 'g');
    Text.NotInLower(name, "instagram", 'g');
    LastfmLacks(name, 'u');
    Text.NotInLower(name, "youtube", 'u');
  }

  lemma LastfmLacks(name: string, c: char)
    requires name == "collect_lastfm_artists.py" && (c == 'g' || c == 'u')
    ensures c !in name && (c as int - 32) as char !in name
  {
  }

  lemma InstagramCoolDown(name: string)
    requires name == "collect_instagram_data.py"
    ensures CoolDown(name) == Some(InstagramRateLimitWait)
  {
    Text.LowerSlice(name, 8, 17);
    assert name[8..17] == "instagram";
    LowerWord("instagram");
    Text.OccursContains(Text.Lower(name), "instagram", 8);
  }

  /** A word spelt in lower case is its own lower-case form. */
  lemma LowerWord(w: string)
    requires w == "instagram" || w == "youtube"
    ensures Text.Lower(w) == w
  {
    assert Text.IsLowerCase(w);
    Text.LowerIsLowerCase(w);
  }

  lemma YouTubeCoolDown(name: string)
    requires name == "collect_youtube_data.py"
    ensures CoolDown(name) == Some(YouTubeQuotaWait)
  {
    YouTubeLacksG(name);
    Text.NotInLower(name, "instagram", 'g');
    Text.LowerSlice(name, 8, 15);
    assert name[8..15] == "youtube";
    LowerWord("youtube");
    Text.OccursContains(Text.Lower(name), "youtube", 8);
  }

  lemma YouTubeLacksG(name: string)
    requires name == "collect_youtube_data.py"
    ensures 'g' !in name && 'G' !in name
  {
  }

  lemma MergeCoolDown(name: string)
    requires name == "merge_and_upload_bigquery.py"
    ensures CoolDown(name) == None
  {
    MergeLacksT(name);
    Text.NotInLower(name, "instagram", 't');
    Text.NotInLower(name, "youtube", 't');
  }

  lemma MergeLacksT(name: string)
    requires name == "merge_and_upload_bigquery.py"
    ensures 't' !in name && 'T' !in name
  {
  }

  /** The cool-down of each stage's script. */
  function StageCoolDown(s: nat): (r: Option<nat>)
    requires s < |Stages|
    ensures r == CoolDown(Stages[s].script)
  {
    if s == 0 then LastfmCoolDown(Stages[0].script); None
    else if s == 1 then InstagramCoolDown(Stages[1].script); Some(InstagramRateLimitWait)
    else if s == 2 then YouTubeCoolDown(Stages[2].script); Some(YouTubeQuotaWait)
    else MergeCoolDown(Stages[3].script); None
  }

  /** `run_script` for stage `s` of the `j`-th iteration. */
  method RunStage(w: World, j: nat, s: nat) returns (r: ScriptRun)
    requires s < |Stages|
    ensures r == StageRun(w, j, s)
  {
    r := RunScript(Stages[s].script, Stages[s].maxRetries, Stages[s].retryDelay, (a: nat) => w.outcome(j, s, a));
  }

  /** Stage `s` of the `j`-th iteration. */
  function StageRun(w: World, j: nat, s: nat): ScriptRun
    requires s < |Stages|
  {
    RunFrom(StageCoolDown(s), Stages[s].maxRetries, Stages[s].retryDelay, (a: nat) => w.outcome(j, s, a), 1)
  }

  /** What one full iteration did: its sleeps and the four stage results. */
  datatype Iteration = Iteration(sleeps: seq<nat>, results: seq<bool>)

  /**
   * Iteration `j`: each stage's sleeps, the pauses after the first three and the Instagram wait
   * when the log shows a recent rate limit; every stage runs whatever the earlier ones returned.
   */
  function IterationRun(w: World, j: nat): Iteration {
    IterationOf(StageRun(w, j, 0), RecentRateLimit(w.log(j)), StageRun(w, j, 1), StageRun(w, j, 2), StageRun(w, j, 3))
  }

  /** The iterations of this invocation, as one function. */
  function Iterations(w: World): nat -> Iteration {
    (j: nat) => IterationRun(w, j)
  }

  function IterationOf(lastfm: ScriptRun, limited: bool, instagram: ScriptRun, youtube: ScriptRun, merge: ScriptRun): Iteration {
    Iteration(lastfm.sleeps + [StagePause] + (if limited then [InstagramRateLimitWait] else []) +
              instagram.sleeps + [StagePause] + youtube.sleeps + [StagePause] + merge.sleeps,
              [lastfm.ok, instagram.ok, youtube.ok, merge.ok])
  }

  /** Whether iteration number `done + 1` may begin: with a limit only the first, and only below the limit. */
  predicate MayStart(start: int, maxIterations: int, done: nat) {
    if maxIterations != 0 then done == 0 && start < maxIterations else true
  }

  /** The trace of one invocation. */
  datatype LoopRun = LoopRun(crashed: bool, checkpoints: seq<Checkpoint>, sleeps: seq<nat>, results: seq<bool>)

  /** An invocation ends: with a limit after at most one iteration, without one only by the interrupt. */
  predicate Ends(maxIterations: int, interrupt: Option<nat>) {
    maxIterations != 0 || (interrupt.Some? && interrupt.value >= 1)
  }

  /** The most iterations that can begin. */
  function Horizon(start: int, maxIterations: int, interrupt: Option<nat>): nat
    requires Ends(maxIterations, interrupt)
  {
    if maxIterations != 0 then (if start < maxIterations then 1 else 0) else interrupt.value
  }

  /** The state after one more iteration, which saved its checkpoint. */
  function AfterIteration(acc: LoopRun, counter: int, it: Iteration, maxIterations: int): LoopRun {
    LoopRun(false, acc.checkpoints + [Checkpoint(counter, false)],
            acc.sleeps + it.sleeps + (if maxIterations == 0 then [CycleWait] else []), acc.results + it.results)
  }

  /** The loop from `done` completed iterations on; `iter(j)` is what the `j`-th iteration does. */
  function LoopFrom(iter: nat -> Iteration, interrupt: Option<nat>, start: int, maxIterations: int, done: nat, acc: LoopRun): LoopRun
    requires Ends(maxIterations, interrupt) && done <= Horizon(start, maxIterations, interrupt)
    requires maxIterations == 0 ==> done < interrupt.value
    decreases Horizon(start, maxIterations, interrupt) - done
  {
    if !MayStart(start, maxIterations, done) then acc
    else if interrupt == Some(done + 1) then
      LoopRun(false, acc.checkpoints + [Checkpoint(start + done + 1, true)], acc.sleeps, acc.results)
    else if maxIterations != 0 then AfterIteration(acc, start + done + 1, iter(done), maxIterations)
    else LoopFrom(iter, interrupt, start, maxIterations, done + 1, AfterIteration(acc, start + done + 1, iter(done), maxIterations))
  }

  /**
   * `main_collection_loop(max_iterations)` on the checkpoint file, where `iter(j)` is what the `j`-th
   * iteration does and 0 stands for a falsy `max_iterations`.
   */
  function LoopSpec(iter: nat -> Iteration, interrupt: Option<nat>, file: Option<Json>, maxIterations: int): LoopRun
    requires Ends(maxIterations, interrupt)
  {
    match StartIteration(file)
    case None => LoopRun(true, [], [], [])
    case Some(start) => LoopFrom(iter, interrupt, start, maxIterations, 0, LoopRun(false, [], [], []))
  }

  /**
   * With a limit, at most one iteration runs, and none once the saved counter has reached it; the
   * checkpoint written carries the resumed counter plus one, marked interrupted exactly when Ctrl+C
   * arrived in it; a completed iteration contributes its stage results.
   */
  lemma BoundedRun(iter: nat -> Iteration, interrupt: Option<nat>, file: Option<Json>, maxIterations: int)
    requires maxIterations != 0 && StartIteration(file).Some?
    ensures var start := StartIteration(file).value;
      var r := LoopSpec(iter, interrupt, file, maxIterations);
      && !r.crashed
      && (start >= maxIterations ==> r.checkpoints == [] && r.sleeps == [] && r.results == [])
      && (start < maxIterations && interrupt == Some(1) ==> r.checkpoints == [Checkpoint(start + 1, true)] && r.results == [])
      && (start < maxIterations && interrupt != Some(1) ==>
            r.checkpoints == [Checkpoint(start + 1, false)] && r.results == iter(0).results && r.sleeps == iter(0).sleeps)
  {
    assert [] + iter(0).sleeps + [] == iter(0).sleeps;
  }

  /** The state after `n` uninterrupted iterations without a limit. */
  function Completed(iter: nat -> Iteration, start: int, n: nat): LoopRun
    decreases n
  {
    if n == 0 then LoopRun(false, [], [], [])
    else AfterIteration(Completed(iter, start, n - 1), start + n, iter(n - 1), 0)
  }

  lemma {:induction false} LoopFromCompleted(iter: nat -> Iteration, k: nat, start: int, done: nat)
    requires done < k
    ensures LoopFrom(iter, Some(k), start, 0, done, Completed(iter, start, done)) ==
            var prev := Completed(iter, start, k - 1);
            LoopRun(false, prev.checkpoints + [Checkpoint(start + k, true)], prev.sleeps, prev.results)
    decreases k - done
  {
    if k != done + 1 {
      LoopFromCompleted(iter, k, start, done + 1);
    }
  }

  lemma {:induction false} CompletedShape(iter: nat -> Iteration, start: int, n: nat)
    requires forall j: nat :: |iter(j).results| == 4
    ensures |Completed(iter, start, n).checkpoints| == n && |Completed(iter, start, n).results| == 4 * n
    ensures forall i :: 0 <= i < n ==> Completed(iter, start, n).checkpoints[i] == Checkpoint(start + i + 1, false)
  {
    if n > 0 {
      CompletedShape(iter, start, n - 1);
    }
  }

  /** Every iteration reports the results of all four stages. */
  lemma FourStages(w: World)
    ensures forall j: nat :: |Iterations(w)(j).results| == 4
  {
  }

  /**
   * Without a limit the loop runs until Ctrl+C arrives in iteration `k`: the `k - 1` completed
   * iterations each save a normal checkpoint with their counter and report four stage results, and
   * the interrupt saves the incremented counter marked interrupted.
   */
  lemma UnboundedRun(iter: nat -> Iteration, k: nat, file: Option<Json>)
    requires StartIteration(file).Some? && k >= 1
    requires forall j: nat :: |iter(j).results| == 4
    ensures var start := StartIteration(file).value;
      var r := LoopSpec(iter, Some(k), file, 0);
      && !r.crashed && |r.checkpoints| == k && |r.results| == 4 * (k - 1)
      && r.checkpoints[k - 1] == Checkpoint(start + k, true)
      && forall i :: 0 <= i < k - 1 ==> r.checkpoints[i] == Checkpoint(start + i + 1, false)
  {
    var start := StartIteration(file).value;
    LoopFromCompleted(iter, k, start, 0);
    CompletedShape(iter, start, k - 1);
  }

  /** The stages of iteration `j`, run in order regardless of one another's results. */
  method RunIteration(w: World, ghost iter: nat -> Iteration, j: nat) returns (it: Iteration)
    requires forall j: nat {:trigger IterationRun(w, j)} :: iter(j) == IterationRun(w, j)
    ensures it == iter(j)
  {
    var r0 := RunStage(w, j, 0);
    var sleeps := r0.sleeps + [StagePause];
    var limited := CheckInstagramRateLimit(w.log(j));
    var wait: seq<nat> := [];
    if limited {
      wait := [InstagramRateLimitWait];
    }
    sleeps := sleeps + wait;
    var r1 := RunStage(w, j, 1);
    sleeps := sleeps + r1.sleeps + [StagePause];
    var r2 := RunStage(w, j, 2);
    sleeps := sleeps + r2.sleeps + [StagePause];
    var r3 := RunStage(w, j, 3);
    sleeps := sleeps + r3.sleeps;
    it := Iteration(sleeps, [r0.ok, r1.ok, r2.ok, r3.ok]);
    assert it == IterationRun(w, j);
  }

  /**
   * `main_collection_loop`. The loop needs to end to be modelled: without a limit, Ctrl+C must arrive
   * in some iteration (`Ends`).
   */
  method MainCollectionLoop(w: World, file: Option<Json>, maxIterations: int) returns (run: LoopRun)
    requires Ends(maxIterations, w.interrupt)
    ensures run == LoopSpec(Iterations(w), w.interrupt, file, maxIterations)
  {
    var loaded := StartIteration(file);
    if loaded.None? {
      return LoopRun(true, [], [], []);
    }
    run := IterationLoop(w, Iterations(w), loaded.value, maxIterations);
  }

  /** The `while True` loop, from the loaded counter `start`; `iter` names the iterations' specification. */
  method IterationLoop(w: World, ghost iter: nat -> Iteration, start: int, maxIterations: int) returns (run: LoopRun)
    requires Ends(maxIterations, w.interrupt)
    requires forall j: nat {:trigger IterationRun(w, j)} :: iter(j) == IterationRun(w, j)
    ensures run == LoopFrom(iter, w.interrupt, start, maxIterations, 0, LoopRun(false, [], [], []))
  {
    var iteration := start;
    var done: nat := 0;
    run := LoopRun(false, [], [], []);
    while true
      invariant done <= Horizon(start, maxIterations, w.interrupt)
      invariant iteration == start + done
      invariant maxIterations != 0 ==> done == 0
      invariant maxIterations == 0 ==> done < w.interrupt.value
      invariant LoopFrom(iter, w.interrupt, start, maxIterations, done, run) ==
                LoopFrom(iter, w.interrupt, start, maxIterations, 0, LoopRun(false, [], [], []))
      decreases Horizon(start, maxIterations, w.interrupt) - done
    {
      if maxIterations != 0 && iteration >= maxIterations {
        break;
      }
      iteration := iteration + 1;
      if w.interrupt == Some(done + 1) {
        run := LoopRun(false, run.checkpoints + [Checkpoint(iteration, true)], run.sleeps, run.results);
        return;
      }
      var it := RunIteration(w, iter, done);
      run := LoopRun(false, run.checkpoints + [Checkpoint(iteration, false)], run.sleeps + it.sleeps, run.results + it.results);
      if maxIterations == 0 {
        run := run.(sleeps := run.sleeps + [CycleWait]);
        done := done + 1;
      } else {
        return;
      }
    }
  }
}
