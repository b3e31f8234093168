/** The command-line entry point (`main`) and the two poll senders it
    dispatches to. */
module Cli {
  import opened Wrappers
  import opened Chats
  import opened Polls
  import opened Retry

  /** What one invocation of the program amounts to: its exit status, whether
      the client was started, and the send loop's report when it ran. */
  datatype Invocation = Invocation(exitCode: int, initializeCalled: bool, report: Option<SendReport>)

  /** `sendDinnerPoll` / `sendBreakfastPoll`: the send loop with the bot's own
      settings and the payload of the chosen kind. */
  function SendPollOfKind(t: PollType, env: seq<Attempt>): (r: SendReport)
    requires |env| >= DefaultConfig.maxRetries
    ensures r.attempts <= 3
    ensures forall i :: 0 <= i < |r.delivered| ==>
              r.delivered[i].poll == PollFor(t) && r.delivered[i].group.isGroup
              && r.delivered[i].group.name == TargetGroupName
  {
    Run(DefaultConfig, PollFor(t), env, 0)
  }

  /** `main`. `arg` is the first command-line argument (`None` when absent),
      `initOk` whether starting the client succeeds, and `env` what happens
      during each send attempt. The client is assumed to reach its ready
      state once initialised. */
  function RunMain(arg: Option<string>, initOk: bool, env: seq<Attempt>): (r: Invocation)
    requires |env| >= DefaultConfig.maxRetries
    ensures r.exitCode == 0 || r.exitCode == 1
    ensures ParsePollType(arg).None? ==> r == Invocation(1, false, None)
    ensures r.initializeCalled <==> ParsePollType(arg).Some?
    ensures r.report.Some? <==> ParsePollType(arg).Some? && initOk
    ensures r.report.Some? ==> r.report.value.attempts <= 3
    ensures r.exitCode == 0 <==>
              ParsePollType(arg).Some? && initOk
              && exists k :: 0 <= k < 3 && Succeeds(DefaultConfig, PollFor(ParsePollType(arg).value), env[k])
    ensures r.exitCode == 0 ==>
              r.report.Some? && |r.report.value.delivered| == 1
              && r.report.value.delivered[0].poll == PollFor(ParsePollType(arg).value)
              && IsTarget(r.report.value.delivered[0].group, TargetGroupName)
    ensures r.report.Some? ==> r.report.value == SendPollOfKind(ParsePollType(arg).value, env)
    ensures r.report.Some? ==> (r.exitCode == 0 <==> |r.report.value.delivered| == 1)
  {
    match ParsePollType(arg)
    case None => Invocation(1, false, None)
    case Some(t) =>
      if !initOk then Invocation(1, true, None)
      else
        var report := SendPollOfKind(t, env);
        RunSucceedsIff(DefaultConfig, PollFor(t), env, 0);
        Invocation(if report.outcome == Returned(true) then 0 else 1, true, Some(report))
  }

  /** When all three attempts fail, the program exits with status 1 after two
      pauses of 5000 ms, having delivered nothing and rethrown the third
      attempt's error. */
  lemma AllAttemptsFailExitsOne(t: PollType, env: seq<Attempt>)
    requires |env| >= DefaultConfig.maxRetries
    requires forall j :: 0 <= j < 3 ==> !Succeeds(DefaultConfig, PollFor(t), env[j])
    ensures var r, last := RunMain(Some(PollTypeName(t)), true, env), AttemptOnce(DefaultConfig, PollFor(t), env[2]);
            last.Failure? && r.exitCode == 1 && r.report.Some?
            && r.report.value == SendReport(Threw(last.error), 3, [5000, 5000], [])
  {
  }

  /** An unknown poll kind ends the program with status 1 before the client
      is started, so no chat is looked up and nothing is sent. */
  lemma UnknownKindExitsEarly(env: seq<Attempt>, initOk: bool)
    requires |env| >= DefaultConfig.maxRetries
    ensures RunMain(Some("lunch"), initOk, env) == Invocation(1, false, None)
    ensures RunMain(None, initOk, env) == Invocation(1, false, None)
  {
  }
}
