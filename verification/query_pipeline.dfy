/**
 The answering of a question: preparation, the attempt loop, and the accounting of the run row.  What the language
 model, the guard, the agent and the store answer is given; the loop is for any bound on attempts.
 */
module QueryPipeline {
  import opened Common
  import opened Text
  import SqlGuard

  datatype Generated = GenerationFailed(message: string) | Sql(sql: string)

  datatype AgentAnswer =
    | Unreachable(offline: bool, message: string)
    | QueryFailed(message: string, permissionDenied: bool)
    | Rows(rowCount: nat)

  /** What happens in one attempt, as far as it gets. */
  datatype Round = Round(generated: Generated, answer: AgentAnswer)

  /** The guard on a statement: an error of its own, or a verdict. */
  datatype Guarded = GuardFailed(message: string) | Judged(verdict: SqlGuard.Verdict)

  datatype Attempt = Attempt(sql: string, stage: string, error: string)

  datatype Completion =
    | CompletedSucceeded(runID: Uuid, sqlOriginal: string, sqlExecuted: string, attempts: seq<Attempt>, rowCount: nat)
    | CompletedFailed(runID: Uuid, attempts: seq<Attempt>, errorStage: string, errorMessage: string)

  datatype Error = Generation | AgentOffline | Execution | AllAttemptsFailed | CompletionFailed | PreparationFailed | NoRun

  const NIL: Uuid := 0

  // ----- one attempt

  function JoinStrings(items: seq<string>): string {
    if items == [] then "" else if |items| == 1 then items[0] else items[0] + ", " + JoinStrings(items[1..])
  }

  /** Each item stands once, with a comma and a space before every one but the first. */
  lemma {:induction false} JoinedSnoc(items: seq<string>, last: string)
    ensures JoinStrings(items + [last]) == if items == [] then last else JoinStrings(items) + ", " + last
    decreases |items|
  {
    if |items| > 1 {
      assert (items + [last])[1..] == items[1..] + [last];
      JoinedSnoc(items[1..], last);
    } else if |items| == 1 {
      assert (items + [last])[1..] == [last];
    }
  }

  function Reason(v: SqlGuard.Verdict): string {
    if v.blockedConstructs == [] then v.reason else v.reason + " (blocked: " + JoinStrings(v.blockedConstructs) + ")"
  }

  /** The statement passes the guard. */
  predicate Passes(guard: string -> Guarded, sql: string) { guard(sql).Judged? && guard(sql).verdict.ok }

  /** How an attempt is put on record. */
  function Recorded(guard: string -> Guarded, r: Round): Attempt {
    match r.generated
    case GenerationFailed(message) => Attempt("", "generation", message)
    case Sql(sql) =>
      match guard(sql)
      case GuardFailed(message) => Attempt(sql, "validation", message)
      case Judged(v) =>
        if !v.ok then Attempt(sql, "validation", Reason(v))
        else
          match r.answer
          case Unreachable(_, message) => Attempt(v.rewrittenSQL, "execution", message)
          case QueryFailed(message, _) => Attempt(v.rewrittenSQL, "execution", message)
          case Rows(_) => Attempt(sql, "execution", "")
  }

  /** The statement an attempt gets to send to the agent. */
  function SentIn(guard: string -> Guarded, r: Round): Option<string> {
    if r.generated.Sql? && Passes(guard, r.generated.sql) then Some(guard(r.generated.sql).verdict.rewrittenSQL) else None
  }

  predicate Succeeds(guard: string -> Guarded, r: Round) { SentIn(guard, r).Some? && r.answer.Rows? }

  /** Nothing is tried after this attempt: it succeeds, the model fails, the agent is unreachable or denies the query. */
  predicate EndsLoop(guard: string -> Guarded, r: Round) {
    || r.generated.GenerationFailed?
    || (SentIn(guard, r).Some? && (r.answer.Rows? || r.answer.Unreachable? || r.answer.permissionDenied))
  }

  datatype Ending = Again | Failed(error: Error) | Succeeded(rowCount: nat)

  function EndingOf(guard: string -> Guarded, r: Round): Ending {
    if !EndsLoop(guard, r) then Again
    else if r.generated.GenerationFailed? then Failed(Generation)
    else match r.answer
         case Rows(rowCount) => Succeeded(rowCount)
         case QueryFailed(_, _) => Failed(AllAttemptsFailed)
         case Unreachable(offline, _) => Failed(if offline then AgentOffline else Execution)
  }

  /** The number of attempts made: up to and with the first that ends the loop, or all that are allowed. */
  function Made(guard: string -> Guarded, rounds: seq<Round>): (n: nat)
    ensures n <= |rounds|
    ensures forall k | 0 <= k < n - 1 :: !EndsLoop(guard, rounds[k])
    ensures n < |rounds| ==> n > 0 && EndsLoop(guard, rounds[n - 1])
  {
    if rounds == [] then 0
    else if EndsLoop(guard, rounds[0]) then 1
    else 1 + Made(guard, rounds[1..])
  }

  function AllRecorded(guard: string -> Guarded, rounds: seq<Round>): (attempts: seq<Attempt>)
    ensures |attempts| == |rounds| && forall k | 0 <= k < |rounds| :: attempts[k] == Recorded(guard, rounds[k])
  {
    seq(|rounds|, k requires 0 <= k < |rounds| => Recorded(guard, rounds[k]))
  }

  function AllSent(guard: string -> Guarded, rounds: seq<Round>): seq<string> {
    if rounds == [] then []
    else
      var last := SentIn(guard, rounds[|rounds| - 1]);
      AllSent(guard, rounds[..|rounds| - 1]) + (if last.Some? then [last.value] else [])
  }

  /** Error messages are never blank, and the guard gives a reason for every refusal. */
  ghost predicate Plausible(guard: string -> Guarded, rounds: seq<Round>) {
    && (forall sql :: match guard(sql)
                      case GuardFailed(message) => TrimSpace(message) != ""
                      case Judged(v) => !v.ok ==> TrimSpace(Reason(v)) != "")
    && forall k | 0 <= k < |rounds| ::
         && (rounds[k].generated.GenerationFailed? ==> TrimSpace(rounds[k].generated.message) != "")
         && (!rounds[k].answer.Rows? ==> TrimSpace(rounds[k].answer.message) != "")
  }

  // ----- what is reported of the attempts

  function LastNonBlank(values: seq<string>): string {
    if values == [] then ""
    else if TrimSpace(values[|values| - 1]) != "" then values[|values| - 1]
    else LastNonBlank(values[..|values| - 1])
  }

  function Stages(attempts: seq<Attempt>): (s: seq<string>)
    ensures |s| == |attempts| && forall k | 0 <= k < |s| :: s[k] == attempts[k].stage
  {
    seq(|attempts|, k requires 0 <= k < |attempts| => attempts[k].stage)
  }

  function Errors(attempts: seq<Attempt>): (s: seq<string>)
    ensures |s| == |attempts| && forall k | 0 <= k < |s| :: s[k] == attempts[k].error
  {
    seq(|attempts|, k requires 0 <= k < |attempts| => attempts[k].error)
  }

  lemma {:induction false} BlankTail(values: seq<string>, n: nat)
    requires n <= |values| && forall k | n <= k < |values| :: TrimSpace(values[k]) == ""
    ensures LastNonBlank(values) == LastNonBlank(values[..n])
    decreases |values|
  {
    if n < |values| {
      BlankTail(values[..|values| - 1], n);
      assert values[..|values| - 1][..n] == values[..n];
    } else {
      assert values[..n] == values;
    }
  }

  method ErrorStageFromAttempts(attempts: seq<Attempt>) returns (stage: string)
    ensures stage == LastNonBlank(Stages(attempts))
  {
    var i := |attempts|;
    while i > 0
      invariant 0 <= i <= |attempts|
      invariant forall k | i <= k < |attempts| :: TrimSpace(attempts[k].stage) == ""
    {
      i := i - 1;
      if TrimSpace(attempts[i].stage) != "" {
        BlankTail(Stages(attempts), i + 1);
        return attempts[i].stage;
      }
    }
    BlankTail(Stages(attempts), 0);
    return "";
  }

  method LastAttemptError(attempts: seq<Attempt>) returns (error: string)
    ensures error == LastNonBlank(Errors(attempts))
  {
    var i := |attempts|;
    while i > 0
      invariant 0 <= i <= |attempts|
      invariant forall k | i <= k < |attempts| :: TrimSpace(attempts[k].error) == ""
    {
      i := i - 1;
      if TrimSpace(attempts[i].error) != "" {
        BlankTail(Errors(attempts), i + 1);
        return attempts[i].error;
      }
    }
    BlankTail(Errors(attempts), 0);
    return "";
  }

  // ----- the loop

  /** The prompts of the attempts: each after the first carries the statement and the error of the one before. */
  ghost predicate PromptsFollow(prompts: seq<(string, string)>, guard: string -> Guarded, rounds: seq<Round>) {
    && |prompts| == |rounds|
    && (prompts != [] ==> prompts[0] == ("", ""))
    && forall k | 0 <= k < |rounds| - 1 ::
         rounds[k].generated.Sql? && prompts[k + 1] == (rounds[k].generated.sql, Recorded(guard, rounds[k]).error)
  }

  /** The one completion a run gets for the attempts made. */
  function Completed(guard: string -> Guarded, runID: Uuid, made: seq<Round>): Completion {
    var attempts := AllRecorded(guard, made);
    if made != [] && Succeeds(guard, made[|made| - 1]) then
      var last := made[|made| - 1];
      CompletedSucceeded(runID, last.generated.sql, SentIn(guard, last).value, attempts, last.answer.rowCount)
    else CompletedFailed(runID, attempts, LastNonBlank(Stages(attempts)), LastNonBlank(Errors(attempts)))
  }

  /** The error returned for the attempts made, if the completion is written. */
  function Returned(guard: string -> Guarded, made: seq<Round>): Option<Error> {
    if made == [] then Some(AllAttemptsFailed)
    else
      match EndingOf(guard, made[|made| - 1])
      case Again => Some(AllAttemptsFailed)
      case Failed(error) => Some(error)
      case Succeeded(_) => None
  }

  class QueryController {
    /** The run rows created, and the completion calls made, in order. */
    var created: seq<Uuid>
    var completions: seq<Completion>

    constructor ()
      ensures created == [] && completions == []
    {
      created, completions := [], [];
    }

    /** Fails the run, if there is one. */
    method CompleteFailedQueryRun(runID: Uuid, attempts: seq<Attempt>, errorStage: string, errorMessage: string, up: bool)
      returns (err: Option<Error>)
      modifies this`completions
      ensures completions == old(completions) +
                if runID == NIL then [] else [CompletedFailed(runID, attempts, errorStage, errorMessage)]
      ensures err == if runID == NIL || up then None else Some(CompletionFailed)
    {
      if runID == NIL {
        return None;
      }
      completions := completions + [CompletedFailed(runID, attempts, errorStage, errorMessage)];
      err := if up then None else Some(CompletionFailed);
    }

    method FailAskQuestion(runID: Uuid, attempts: seq<Attempt>, errorStage: string, errorMessage: string, returnErr: Error, up: bool)
      returns (err: Option<Error>)
      requires runID != NIL
      modifies this`completions
      ensures completions == old(completions) + [CompletedFailed(runID, attempts, errorStage, errorMessage)]
      ensures err == Some(if up then returnErr else CompletionFailed)
    {
      err := CompleteFailedQueryRun(runID, attempts, errorStage, errorMessage, up);
      if err == None {
        err := Some(returnErr);
      }
    }

    /** One turn of the loop: what goes on record, what the agent was sent, and how the turn ends. */
    static method TryOnce(guard: string -> Guarded, r: Round) returns (record: Attempt, sent: Option<string>, ending: Ending)
      ensures record == Recorded(guard, r) && sent == SentIn(guard, r) && ending == EndingOf(guard, r)
    {
      if r.generated.GenerationFailed? {
        return Attempt("", "generation", r.generated.message), None, Failed(Generation);
      }
      var sql := r.generated.sql;
      var guarded := guard(sql);
      if guarded.GuardFailed? {
        return Attempt(sql, "validation", guarded.message), None, Again;
      }
      if !guarded.verdict.ok {
        var reason := guarded.verdict.reason;
        if |guarded.verdict.blockedConstructs| > 0 {
          reason := reason + " (blocked: " + JoinStrings(guarded.verdict.blockedConstructs) + ")";
        }
        return Attempt(sql, "validation", reason), None, Again;
      }
      var rewritten := guarded.verdict.rewrittenSQL;
      match r.answer {
      case Unreachable(offline, message) =>
        return Attempt(rewritten, "execution", message), Some(rewritten), Failed(if offline then AgentOffline else Execution);
      case QueryFailed(message, permissionDenied) =>
        return Attempt(rewritten, "execution", message), Some(rewritten),
               if permissionDenied then Failed(AllAttemptsFailed) else Again;
      case Rows(rowCount) =>
        return Attempt(sql, "execution", ""), Some(rewritten), Succeeded(rowCount);
      }
    }

    /**
     The attempt loop.  `rounds` holds what happens in each attempt allowed, `up` whether the completion is written.
     `sent` is what the agent was asked to run, `prompts` what the model was told of the attempt before.
     */
    method ExecuteAskQuestionPipeline(guard: string -> Guarded, runID: Uuid, rounds: seq<Round>, up: bool)
      returns (attempts: seq<Attempt>, sent: seq<string>, prompts: seq<(string, string)>, err: Option<Error>)
      requires runID != NIL && Plausible(guard, rounds)
      modifies this`completions
      ensures var made := rounds[..Made(guard, rounds)];
              && attempts == AllRecorded(guard, made)
              && sent == AllSent(guard, made)
              && PromptsFollow(prompts, guard, made)
              && completions == old(completions) + [Completed(guard, runID, made)]
              && err == if up then Returned(guard, made) else Some(CompletionFailed)
    {
      hide TrimSpace, Made, AllSent, LastNonBlank, Plausible, Recorded, PromptsFollow, Completed, Returned, SentIn, Succeeds;
      assert PromptsFollow([], guard, []) by { NothingPrompted(guard); }
      attempts, sent, prompts := [], [], [];
      assert AllSent(guard, []) == [] by { NothingSent(guard); }
      var priorSQL, priorError := "", "";
      var attempt := 0;
      while attempt < |rounds|
        invariant 0 <= attempt <= |rounds|
        invariant completions == old(completions)
        invariant forall k | 0 <= k < attempt :: !EndsLoop(guard, rounds[k])
        invariant attempts == AllRecorded(guard, rounds[..attempt])
        invariant sent == AllSent(guard, rounds[..attempt])
        invariant PromptsFollow(prompts, guard, rounds[..attempt])
        invariant attempt == 0 ==> priorSQL == "" && priorError == ""
        invariant attempt > 0 ==>
                    && rounds[attempt - 1].generated.Sql? && priorSQL == rounds[attempt - 1].generated.sql
                    && priorError == Recorded(guard, rounds[attempt - 1]).error
      {
        var r := rounds[attempt];
        ghost var made := rounds[..attempt + 1];
        OneMoreRound(guard, rounds, attempt);
        if EndsLoop(guard, r) {
          MadeIs(guard, rounds, attempt + 1);
          EndedIs(guard, runID, rounds, attempt);
        }
        RecordedIsNotBlank(guard, rounds, attempt);
        PromptsGrow(prompts, guard, rounds, attempt, priorSQL, priorError);
        prompts := prompts + [(priorSQL, priorError)];
        var record, sql, ending := TryOnce(guard, r);
        attempts := attempts + [record];
        sent := sent + (if sql.Some? then [sql.value] else []);
        match ending {
        case Again => priorSQL, priorError := r.generated.sql, record.error;
        case Failed(error) =>
          err := FailAskQuestion(runID, attempts, record.stage, record.error, error, up);
          return;
        case Succeeded(rowCount) =>
          completions := completions + [CompletedSucceeded(runID, r.generated.sql, sql.value, attempts, rowCount)];
          err := if up then None else Some(CompletionFailed);
          return;
        }
        attempt := attempt + 1;
      }
      MadeIs(guard, rounds, attempt);
      assert rounds[..attempt] == rounds;
      ExhaustedIs(guard, runID, rounds);
      var errorStage := ErrorStageFromAttempts(attempts);
      var errorMessage := LastAttemptError(attempts);
      err := FailAskQuestion(runID, attempts, errorStage, errorMessage, AllAttemptsFailed, up);
    }

    /**
     Preparation and loop: a context that cannot be resolved or a row that cannot be created means no run; a failed
     search for examples fails the run at once.
     */
    method AskQuestion(contextOk: bool, run: Option<Uuid>, examplesError: Option<string>, guard: string -> Guarded,
                       rounds: seq<Round>, up: bool)
      returns (attempts: seq<Attempt>, sent: seq<string>, err: Option<Error>)
      requires Plausible(guard, rounds) && (run.Some? ==> run.value != NIL)
      modifies this
      ensures var made := rounds[..Made(guard, rounds)];
              if !contextOk || run == None then
                created == old(created) && completions == old(completions) && sent == [] && err == Some(NoRun)
              else
                && created == old(created) + [run.value]
                && (if examplesError.Some? then
                      && completions == old(completions) + [CompletedFailed(run.value, [], "generation", examplesError.value)]
                      && sent == [] && err == Some(if up then PreparationFailed else CompletionFailed)
                    else
                      && completions == old(completions) + [Completed(guard, run.value, made)]
                      && attempts == AllRecorded(guard, made) && sent == AllSent(guard, made)
                      && err == if up then Returned(guard, made) else Some(CompletionFailed))
    {
      attempts, sent := [], [];
      if !contextOk || run == None {
        return [], [], Some(NoRun);
      }
      created := created + [run.value];
      if examplesError.Some? {
        err := CompleteFailedQueryRun(run.value, [], "generation", examplesError.value, up);
        if err == None {
          err := Some(PreparationFailed);
        }
        return;
      }
      var prompts;
      attempts, sent, prompts, err := ExecuteAskQuestionPipeline(guard, run.value, rounds, up);
    }
  }

  lemma {:induction false} MadeIs(guard: string -> Guarded, rounds: seq<Round>, n: nat)
    requires n <= |rounds| && (n == 0 ==> rounds == [])
    requires forall k | 0 <= k < n - 1 :: !EndsLoop(guard, rounds[k])
    requires n < |rounds| ==> EndsLoop(guard, rounds[n - 1])
    ensures Made(guard, rounds) == n
  {
    if n > 0 && !EndsLoop(guard, rounds[0]) {
      MadeIs(guard, rounds[1..], n - 1);
    }
  }

  /** A run that ends in failure is completed with the stage and the error of its last attempt. */
  lemma CompletedIs(guard: string -> Guarded, runID: Uuid, rounds: seq<Round>, n: nat)
    requires Plausible(guard, rounds) && n < |rounds| && !Succeeds(guard, rounds[n])
    ensures var last := Recorded(guard, rounds[n]);
            Completed(guard, runID, rounds[..n + 1]) ==
            CompletedFailed(runID, AllRecorded(guard, rounds[..n + 1]), last.stage, last.error)
  {
    hide LastNonBlank, Recorded;
    RecordedIsNotBlank(guard, rounds, n);
  }

  /** What a run ends with once an attempt has ended its loop. */
  lemma EndedIs(guard: string -> Guarded, runID: Uuid, rounds: seq<Round>, n: nat)
    requires Plausible(guard, rounds) && n < |rounds| && EndsLoop(guard, rounds[n])
    ensures var made, last := rounds[..n + 1], rounds[n];
            match EndingOf(guard, last)
            case Again => false
            case Failed(error) =>
              && Completed(guard, runID, made) ==
                 CompletedFailed(runID, AllRecorded(guard, made), Recorded(guard, last).stage, Recorded(guard, last).error)
              && Returned(guard, made) == Some(error)
            case Succeeded(rowCount) =>
              && last.generated.Sql? && SentIn(guard, last).Some?
              && Completed(guard, runID, made) ==
                 CompletedSucceeded(runID, last.generated.sql, SentIn(guard, last).value, AllRecorded(guard, made), rowCount)
              && Returned(guard, made) == None
  {
    hide LastNonBlank, Recorded, Plausible, TrimSpace;
    if !Succeeds(guard, rounds[n]) {
      CompletedIs(guard, runID, rounds, n);
    }
  }

  /** What a run ends with if no attempt ends its loop. */
  lemma ExhaustedIs(guard: string -> Guarded, runID: Uuid, rounds: seq<Round>)
    requires forall k | 0 <= k < |rounds| :: !EndsLoop(guard, rounds[k])
    ensures var attempts := AllRecorded(guard, rounds);
            Completed(guard, runID, rounds) ==
            CompletedFailed(runID, attempts, LastNonBlank(Stages(attempts)), LastNonBlank(Errors(attempts)))
    ensures Returned(guard, rounds) == Some(AllAttemptsFailed)
  {
    hide LastNonBlank, Recorded;
  }

  lemma NothingPrompted(guard: string -> Guarded)
    ensures PromptsFollow([], guard, [])
  {
  }

  lemma PromptsGrow(prompts: seq<(string, string)>, guard: string -> Guarded, rounds: seq<Round>, n: nat,
                    sql: string, error: string)
    requires n < |rounds| && PromptsFollow(prompts, guard, rounds[..n])
    requires n == 0 ==> sql == "" && error == ""
    requires n > 0 ==>
               rounds[n - 1].generated.Sql? && sql == rounds[n - 1].generated.sql && error == Recorded(guard, rounds[n - 1]).error
    ensures PromptsFollow(prompts + [(sql, error)], guard, rounds[..n + 1])
  {
    var made, next := rounds[..n + 1], prompts + [(sql, error)];
    forall k | 0 <= k < n
      ensures made[k].generated.Sql? && next[k + 1] == (made[k].generated.sql, Recorded(guard, made[k]).error)
    {
      assert made[k] == rounds[k];
      if k < n - 1 {
        assert rounds[..n][k] == rounds[k];
      }
    }
  }

  lemma NothingSent(guard: string -> Guarded)
    ensures AllSent(guard, []) == []
  {
  }

  lemma OneMoreRound(guard: string -> Guarded, rounds: seq<Round>, n: nat)
    requires n < |rounds|
    ensures AllRecorded(guard, rounds[..n + 1]) == AllRecorded(guard, rounds[..n]) + [Recorded(guard, rounds[n])]
    ensures AllSent(guard, rounds[..n + 1]) ==
            AllSent(guard, rounds[..n]) + (if SentIn(guard, rounds[n]).Some? then [SentIn(guard, rounds[n]).value] else [])
  {
    assert rounds[..n + 1][..n] == rounds[..n];
  }

  /** A failed attempt is on record with its stage and its error, which are therefore what is reported of the run. */
  lemma RecordedIsNotBlank(guard: string -> Guarded, rounds: seq<Round>, n: nat)
    requires Plausible(guard, rounds) && n < |rounds|
    ensures var a := Recorded(guard, rounds[n]);
            && TrimSpace(a.stage) != ""
            && (a.error == "" <==> Succeeds(guard, rounds[n]))
            && (!Succeeds(guard, rounds[n]) ==> TrimSpace(a.error) != "")
    ensures var attempts := AllRecorded(guard, rounds[..n + 1]);
            && LastNonBlank(Stages(attempts)) == Recorded(guard, rounds[n]).stage
            && (!Succeeds(guard, rounds[n]) ==> LastNonBlank(Errors(attempts)) == Recorded(guard, rounds[n]).error)
  {
    hide TrimSpace;
    StagesAreNotBlank();
  }

  lemma StagesAreNotBlank()
    ensures TrimSpace("generation") != "" && TrimSpace("validation") != "" && TrimSpace("execution") != "" && TrimSpace("") == ""
  {
  }

  // ----- what the loop promises

  lemma {:induction false} SentPassed(guard: string -> Guarded, rounds: seq<Round>, sql: string)
    requires sql in AllSent(guard, rounds)
    ensures exists k :: 0 <= k < |rounds| && rounds[k].generated.Sql? && Passes(guard, rounds[k].generated.sql)
                        && sql == guard(rounds[k].generated.sql).verdict.rewrittenSQL
    decreases |rounds|
  {
    var n := |rounds| - 1;
    if sql in AllSent(guard, rounds[..n]) {
      SentPassed(guard, rounds[..n], sql);
      var k :| 0 <= k < |rounds[..n]| && rounds[..n][k].generated.Sql? && Passes(guard, rounds[..n][k].generated.sql)
               && sql == guard(rounds[..n][k].generated.sql).verdict.rewrittenSQL;
      assert rounds[k] == rounds[..n][k];
    } else {
      assert SentIn(guard, rounds[n]) == Some(sql);
    }
  }

  /** Whatever the bound on attempts, the agent is asked to run only what the guard rewrote of a statement it passed. */
  lemma OnlyGuardedSQLIsSent(guard: string -> Guarded, rounds: seq<Round>, sql: string)
    requires sql in AllSent(guard, rounds[..Made(guard, rounds)])
    ensures exists k :: 0 <= k < Made(guard, rounds) && rounds[k].generated.Sql? && Passes(guard, rounds[k].generated.sql)
                        && sql == guard(rounds[k].generated.sql).verdict.rewrittenSQL
  {
    hide Made, AllSent;
    var made := rounds[..Made(guard, rounds)];
    SentPassed(guard, made, sql);
    var k :| 0 <= k < |made| && made[k].generated.Sql? && Passes(guard, made[k].generated.sql)
             && sql == guard(made[k].generated.sql).verdict.rewrittenSQL;
    assert rounds[k] == made[k];
  }

  /** The guard is the one of the SqlGuard module, over some parser and some writing back of trees. */
  ghost predicate IsSqlGuard(guard: string -> Guarded, upper: char -> char, parse: string -> Option<seq<SqlGuard.Node>>,
                             restore: SqlGuard.Node -> Option<string>)
  {
    forall sql ::
      SqlGuard.Settles(if guard(sql).Judged? then Some(guard(sql).verdict) else None, TrimSpace(sql), upper, parse, restore)
  }

  /** For every parser and writing back there is such a guard. */
  lemma SqlGuardExists(upper: char -> char, parse: string -> Option<seq<SqlGuard.Node>>,
                       restore: SqlGuard.Node -> Option<string>, message: string)
    returns (guard: string -> Guarded)
    ensures IsSqlGuard(guard, upper, parse, restore)
  {
    hide TrimSpace, SqlGuard.Settles, SqlGuard.Settled;
    guard := sql => match SqlGuard.Settled(TrimSpace(sql), upper, parse, restore)
                    case None => GuardFailed(message)
                    case Some(v) => Judged(v);
    forall sql: string
      ensures SqlGuard.Settles(if guard(sql).Judged? then Some(guard(sql).verdict) else None, TrimSpace(sql), upper, parse, restore)
    {
      SqlGuard.SomeVerdictSettles(TrimSpace(sql), upper, parse, restore);
    }
  }

  /** The text is acceptable, and `sent` is its one statement written back, limited exactly where nothing else bounds its rows. */
  ghost predicate RewrittenFrom(sent: string, text: string, upper: char -> char, parse: string -> Option<seq<SqlGuard.Node>>,
                                restore: SqlGuard.Node -> Option<string>)
  {
    && SqlGuard.Acceptable(text, upper, parse)
    && var n := SqlGuard.OneStatement(parse(text)).value;
       restore(n).Some? && sent == SqlGuard.Limited(n.shape, restore(n).value)
  }

  /**
   With that guard, whatever the bound on attempts, the agent is asked to run only acceptable statements generated in
   this run, each as written back by the guard and with the row limit exactly where nothing else bounds its rows.
   */
  lemma OnlyAcceptableSQLIsSent(guard: string -> Guarded, rounds: seq<Round>, sql: string, upper: char -> char,
                                parse: string -> Option<seq<SqlGuard.Node>>, restore: SqlGuard.Node -> Option<string>)
    requires IsSqlGuard(guard, upper, parse, restore)
    requires sql in AllSent(guard, rounds[..Made(guard, rounds)])
    ensures exists k :: 0 <= k < Made(guard, rounds) && rounds[k].generated.Sql?
                        && RewrittenFrom(sql, TrimSpace(rounds[k].generated.sql), upper, parse, restore)
  {
    hide Made, AllSent, TrimSpace, SqlGuard.Refusal;
    OnlyGuardedSQLIsSent(guard, rounds, sql);
    var k :| 0 <= k < Made(guard, rounds) && rounds[k].generated.Sql? && Passes(guard, rounds[k].generated.sql)
             && sql == guard(rounds[k].generated.sql).verdict.rewrittenSQL;
    var generated := rounds[k].generated.sql;
    assert SqlGuard.Settles(Some(guard(generated).verdict), TrimSpace(generated), upper, parse, restore);
    assert RewrittenFrom(sql, TrimSpace(generated), upper, parse, restore);
  }

  /** Nothing is tried after a success, an unreachable agent or a denied query; a run succeeds by its last attempt or not at all. */
  lemma LastAttemptDecides(guard: string -> Guarded, rounds: seq<Round>, runID: Uuid, k: nat)
    requires k < Made(guard, rounds)
    ensures SentIn(guard, rounds[k]).Some? && (rounds[k].answer.QueryFailed? ==> rounds[k].answer.permissionDenied) ==>
              k == Made(guard, rounds) - 1
    ensures Completed(guard, runID, rounds[..Made(guard, rounds)]).CompletedSucceeded? <==>
            Succeeds(guard, rounds[Made(guard, rounds) - 1])
  {
    hide Made, LastNonBlank, Recorded, AllRecorded, Stages, Errors, TrimSpace;
  }

  lemma {:induction false} MadeExactly(guard: string -> Guarded, rounds: seq<Round>, k: nat)
    ensures k < Made(guard, rounds) <==> k < |rounds| && forall j | 0 <= j < k :: !EndsLoop(guard, rounds[j])
    decreases |rounds|
  {
    if rounds != [] && k > 0 {
      MadeExactly(guard, rounds[1..], k - 1);
      if !EndsLoop(guard, rounds[0]) {
        assert forall j | 0 <= j < k - 1 && j < |rounds| - 1 :: rounds[1..][j] == rounds[j + 1];
        assert (forall j | 0 <= j < k && j < |rounds| :: !EndsLoop(guard, rounds[j])) <==>
               (forall j | 0 <= j < k - 1 && j < |rounds| - 1 :: !EndsLoop(guard, rounds[1..][j])) by {
          assert forall j | 1 <= j < k && j < |rounds| :: rounds[j] == rounds[1..][j - 1];
        }
      }
    }
  }

  /**
   The loop tries again: an attempt is made exactly if it is within the bound and every one before it generated a statement
   that the guard did not pass, or that failed on the agent without being denied.
   */
  lemma TriesAgainExactly(guard: string -> Guarded, rounds: seq<Round>, k: nat)
    ensures k < Made(guard, rounds) <==>
            && k < |rounds|
            && forall j | 0 <= j < k ::
                 && rounds[j].generated.Sql?
                 && (|| guard(rounds[j].generated.sql).GuardFailed?
                     || !guard(rounds[j].generated.sql).verdict.ok
                     || (rounds[j].answer.QueryFailed? && !rounds[j].answer.permissionDenied))
  {
    hide Made;
    MadeExactly(guard, rounds, k);
  }

  /**
   A run succeeds exactly if some round within the bound passes the guard and comes back with rows, after rounds that only
   failed as above; then it is completed with that round's statement, as generated and as sent, and its rows.
   */
  lemma SucceedsExactly(guard: string -> Guarded, runID: Uuid, rounds: seq<Round>)
    ensures var c := Completed(guard, runID, rounds[..Made(guard, rounds)]);
            c.CompletedSucceeded? <==>
            exists k | 0 <= k < |rounds| ::
              && (forall j | 0 <= j < k ::
                    && rounds[j].generated.Sql?
                    && (|| guard(rounds[j].generated.sql).GuardFailed?
                        || !guard(rounds[j].generated.sql).verdict.ok
                        || (rounds[j].answer.QueryFailed? && !rounds[j].answer.permissionDenied)))
              && rounds[k].generated.Sql? && guard(rounds[k].generated.sql).Judged? && guard(rounds[k].generated.sql).verdict.ok
              && rounds[k].answer.Rows?
    ensures var m := Made(guard, rounds);
            var c := Completed(guard, runID, rounds[..m]);
            c.CompletedSucceeded? ==>
              && m > 0 && rounds[m - 1].generated.Sql? && rounds[m - 1].answer.Rows?
              && guard(rounds[m - 1].generated.sql).Judged?
              && c.runID == runID && c.sqlOriginal == rounds[m - 1].generated.sql
              && c.sqlExecuted == guard(rounds[m - 1].generated.sql).verdict.rewrittenSQL
              && c.rowCount == rounds[m - 1].answer.rowCount && |c.attempts| == m
              && Returned(guard, rounds[..m]) == None
  {
    hide Made, LastNonBlank, Recorded, Stages, Errors, TrimSpace;
    var m := Made(guard, rounds);
    if m > 0 {
      TriesAgainExactly(guard, rounds, m - 1);
      assert rounds[..m][m - 1] == rounds[m - 1];
    }
    if k :| 0 <= k < |rounds|
            && (forall j | 0 <= j < k ::
                  && rounds[j].generated.Sql?
                  && (|| guard(rounds[j].generated.sql).GuardFailed?
                      || !guard(rounds[j].generated.sql).verdict.ok
                      || (rounds[j].answer.QueryFailed? && !rounds[j].answer.permissionDenied)))
            && rounds[k].generated.Sql? && guard(rounds[k].generated.sql).Judged? && guard(rounds[k].generated.sql).verdict.ok
            && rounds[k].answer.Rows? {
      TriesAgainExactly(guard, rounds, k);
      LastAttemptDecides(guard, rounds, runID, k);
    }
  }

  /** What is put on record of an attempt: where it failed, with which statement and which message. */
  lemma AttemptsOnRecord(guard: string -> Guarded, rounds: seq<Round>, k: nat)
    requires k < |rounds|
    ensures var a, r := AllRecorded(guard, rounds)[k], rounds[k];
            match r.generated
            case GenerationFailed(message) => a.sql == "" && a.stage == "generation" && a.error == message
            case Sql(sql) =>
              match guard(sql)
              case GuardFailed(message) => a.sql == sql && a.stage == "validation" && a.error == message
              case Judged(v) =>
                if !v.ok then
                  && a.sql == sql && a.stage == "validation"
                  && a.error == v.reason + (if v.blockedConstructs == [] then ""
                                            else " (blocked: " + JoinStrings(v.blockedConstructs) + ")")
                else
                  && a.stage == "execution"
                  && (if r.answer.Rows? then a.sql == sql && a.error == ""
                      else a.sql == v.rewrittenSQL && a.error == r.answer.message)
  {
    if rounds[k].generated.Sql? && guard(rounds[k].generated.sql).Judged? {
      var v := guard(rounds[k].generated.sql).verdict;
      assert v.reason + "" == v.reason;
      assert v.reason + " (blocked: " + JoinStrings(v.blockedConstructs) + ")" ==
             v.reason + (" (blocked: " + JoinStrings(v.blockedConstructs) + ")");
    }
  }

  /** The error of a run that does not succeed, and the stage and message it is completed with: those of its last attempt. */
  lemma FailsAsLastAttempt(guard: string -> Guarded, runID: Uuid, rounds: seq<Round>)
    requires Plausible(guard, rounds)
    ensures var m := Made(guard, rounds);
            var made := rounds[..m];
            var c := Completed(guard, runID, made);
            c.CompletedFailed? ==>
              && c.runID == runID && c.attempts == AllRecorded(guard, made)
              && (m > 0 ==> c.errorStage == c.attempts[m - 1].stage && c.errorMessage == c.attempts[m - 1].error)
              && (m == 0 ==> rounds == [] && c.errorStage == "" && c.errorMessage == "")
              && Returned(guard, made) ==
                   Some(if m > 0 && rounds[m - 1].generated.GenerationFailed? then Generation
                        else if m > 0 && Passes(guard, rounds[m - 1].generated.sql) && rounds[m - 1].answer.Unreachable? then
                          (if rounds[m - 1].answer.offline then AgentOffline else Execution)
                        else AllAttemptsFailed)
  {
    hide Made, LastNonBlank, Recorded, Plausible, TrimSpace, Stages, Errors;
    var m := Made(guard, rounds);
    if m > 0 {
      assert rounds[..m][m - 1] == rounds[m - 1];
      if !Succeeds(guard, rounds[m - 1]) {
        CompletedIs(guard, runID, rounds, m - 1);
      }
    } else {
      MadeExactly(guard, rounds, 0);
      NothingReported(guard);
    }
  }

  lemma NothingReported(guard: string -> Guarded)
    ensures LastNonBlank(Stages(AllRecorded(guard, []))) == "" && LastNonBlank(Errors(AllRecorded(guard, []))) == ""
  {
  }

  /** The first prompt carries nothing, every other the statement and the recorded error of the attempt before it. */
  lemma PromptsCarryTheLastError(prompts: seq<(string, string)>, guard: string -> Guarded, made: seq<Round>, k: nat)
    requires PromptsFollow(prompts, guard, made) && k < |made|
    ensures |prompts| == |made|
    ensures k == 0 ==> prompts[k] == ("", "")
    ensures k > 0 ==>
              && made[k - 1].generated.Sql?
              && prompts[k] == (made[k - 1].generated.sql, AllRecorded(guard, made)[k - 1].error)
  {
    hide Recorded;
    if k > 0 {
      assert k - 1 < |made| - 1;
    }
  }

  /** Every statement an attempt got past the guard is sent, as the guard rewrote it, in the order of the attempts. */
  lemma {:induction false} EveryPassedIsSent(guard: string -> Guarded, rounds: seq<Round>, k: nat)
    requires k < |rounds| && rounds[k].generated.Sql?
    requires guard(rounds[k].generated.sql).Judged? && guard(rounds[k].generated.sql).verdict.ok
    ensures var before, sent := AllSent(guard, rounds[..k]), AllSent(guard, rounds);
            |before| < |sent| && sent[..|before|] == before && sent[|before|] == guard(rounds[k].generated.sql).verdict.rewrittenSQL
    decreases |rounds|
  {
    var n := |rounds| - 1;
    if k < n {
      assert rounds[..n][k] == rounds[k] && rounds[..n][..k] == rounds[..k];
      EveryPassedIsSent(guard, rounds[..n], k);
    }
  }

  /** On record, exactly the last attempt of a succeeded run has no error, and every attempt of a failed one has one. */
  lemma ErrorsOnRecord(guard: string -> Guarded, rounds: seq<Round>, runID: Uuid, k: nat)
    requires Plausible(guard, rounds) && k < Made(guard, rounds)
    ensures var made := rounds[..Made(guard, rounds)];
            AllRecorded(guard, made)[k].error == "" <==>
            Completed(guard, runID, made).CompletedSucceeded? && k == Made(guard, rounds) - 1
  {
    hide Made, TrimSpace, Plausible, Recorded, LastNonBlank;
    RecordedIsNotBlank(guard, rounds, k);
    LastAttemptDecides(guard, rounds, runID, k);
    if Succeeds(guard, rounds[k]) {
      assert EndsLoop(guard, rounds[k]);
    }
  }

  /** Every run row created gets exactly one completion call. */
  ghost predicate Accounted(created: seq<Uuid>, completions: seq<Completion>) {
    |completions| == |created| && forall k | 0 <= k < |created| :: completions[k].runID == created[k]
  }

  /** Questions asked one after the other keep the accounts: one completion for every run row, in order. */
  method AskAndAccount(c: QueryController, contextOk: bool, run: Option<Uuid>, examplesError: Option<string>,
                       guard: string -> Guarded, rounds: seq<Round>, up: bool)
    returns (err: Option<Error>)
    requires Plausible(guard, rounds) && (run.Some? ==> run.value != NIL)
    requires Accounted(c.created, c.completions)
    modifies c
    ensures Accounted(c.created, c.completions)
    ensures |c.created| == |old(c.created)| + if contextOk && run.Some? then 1 else 0
  {
    var attempts, sent;
    attempts, sent, err := c.AskQuestion(contextOk, run, examplesError, guard, rounds, up);
  }
}
