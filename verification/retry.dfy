/** The bounded send loop of the bot (`sendPoll`): up to `maxRetries`
    attempts, each of which resolves the group afresh and then delivers the
    poll, with one fixed pause after every failed attempt but the last. */
module Retry {
  import opened Wrappers
  import opened Errors
  import opened Chats
  import opened Polls

  /** The bot's tunables, fixed when it is constructed. */
  datatype Config = Config(targetGroupName: string, maxRetries: nat, retryDelay: nat)

  /** The values the bot is constructed with: three attempts, 5000 ms apart. */
  const DefaultConfig: Config := Config(TargetGroupName, 3, 5000)

  /** What the outside world does during one attempt: the chat list the
      client hands back (`None` when that request rejects) and whether the
      client accepts the poll message once the group is found. */
  datatype Attempt = Attempt(chats: Option<seq<Chat>>, sendOk: bool)

  /** A poll that reached a chat. */
  datatype Delivery = Delivery(group: Chat, poll: PollData)

  /** How `sendPoll` ends: it returns a boolean or throws an error. */
  datatype SendOutcome = Returned(ok: bool) | Threw(error: Error)

  /** Everything observable about one call of `sendPoll`: how it ended, how
      many attempts it made, the pauses it slept (in ms, in order) and the
      polls delivered. */
  datatype SendReport = SendReport(outcome: SendOutcome, attempts: nat, delays: seq<nat>,
                                   delivered: seq<Delivery>)

  /** One attempt: look the group up in this attempt's chat list, then send. */
  function AttemptOnce(cfg: Config, poll: PollData, a: Attempt): (r: Result<Delivery, Error>)
    ensures r.Success? <==> FindTargetGroup(a.chats, cfg.targetGroupName).Success? && a.sendOk
    ensures r.Success? ==> r.value.poll == poll
    ensures r.Failure? && FindTargetGroup(a.chats, cfg.targetGroupName).Success? ==> r.error == SendFailed
    ensures FindTargetGroup(a.chats, cfg.targetGroupName).Failure? ==>
              r == Failure(FindTargetGroup(a.chats, cfg.targetGroupName).error)
    ensures r.Success? ==> r.value.group == FindTargetGroup(a.chats, cfg.targetGroupName).value
  {
    match FindTargetGroup(a.chats, cfg.targetGroupName)
    case Failure(e) => Failure(e)
    case Success(g) => if a.sendOk then Success(Delivery(g, poll)) else Failure(SendFailed)
  }

  predicate Succeeds(cfg: Config, poll: PollData, a: Attempt) {
    AttemptOnce(cfg, poll, a).Success?
  }

  /** `n` pauses of `ms` milliseconds each. */
  function Pauses(ms: nat, n: nat): (r: seq<nat>)
    ensures |r| == n
    ensures forall i :: 0 <= i < n ==> r[i] == ms
  {
    if n == 0 then [] else [ms] + Pauses(ms, n - 1)
  }

  /** The send loop as a state machine. `made` attempts have already failed
      (the state Attempting(made + 1) when `made < maxRetries`); `env[k]` is
      what happens during attempt k + 1. Each step either delivers (Sent),
      fails and pauses before the next attempt, or fails for the last time
      and throws that attempt's error (Failed). */
  function Run(cfg: Config, poll: PollData, env: seq<Attempt>, made: nat): (r: SendReport)
    requires made <= cfg.maxRetries <= |env|
    ensures made <= r.attempts <= cfg.maxRetries
    ensures |r.delays| == (if r.attempts == made then 0 else r.attempts - made - 1)
    ensures forall i :: 0 <= i < |r.delays| ==> r.delays[i] == cfg.retryDelay
    ensures |r.delivered| <= 1
    ensures |r.delivered| == 1 <==> r.outcome == Returned(true)
    ensures forall i :: 0 <= i < |r.delivered| ==>
              r.delivered[i].poll == poll && IsTarget(r.delivered[i].group, cfg.targetGroupName)
    decreases cfg.maxRetries - made
  {
    if made < cfg.maxRetries then
      var n := made + 1;
      match AttemptOnce(cfg, poll, env[made])
      case Success(d) => SendReport(Returned(true), n, [], [d])
      case Failure(e) =>
        if n < cfg.maxRetries then
          var rest := Run(cfg, poll, env, n);
          SendReport(rest.outcome, rest.attempts, [cfg.retryDelay] + rest.delays, rest.delivered)
        else
          SendReport(Threw(e), n, [], [])
    else
      SendReport(Returned(false), made, [], [])
  }

  /** `sendPoll` itself, the loop as the bot writes it. */
  method SendPoll(cfg: Config, poll: PollData, env: seq<Attempt>) returns (r: SendReport)
    requires cfg.maxRetries <= |env|
    ensures r == Run(cfg, poll, env, 0)
  {
    var attempts := 0;
    var delays: seq<nat> := [];
    while attempts < cfg.maxRetries
      invariant attempts <= cfg.maxRetries
      invariant var rest := Run(cfg, poll, env, attempts);
                Run(cfg, poll, env, 0) == rest.(delays := delays + rest.delays)
    {
      attempts := attempts + 1;
      var outcome := AttemptOnce(cfg, poll, env[attempts - 1]);
      if outcome.Success? {
        return SendReport(Returned(true), attempts, delays, [outcome.value]);
      }
      if attempts < cfg.maxRetries {
        ghost var rest := Run(cfg, poll, env, attempts);
        assert Run(cfg, poll, env, attempts - 1) == rest.(delays := [cfg.retryDelay] + rest.delays);
        assert delays + ([cfg.retryDelay] + rest.delays) == (delays + [cfg.retryDelay]) + rest.delays;
        delays := delays + [cfg.retryDelay];
      } else {
        return SendReport(Threw(outcome.error), attempts, delays, []);
      }
    }
    return SendReport(Returned(false), attempts, delays, []);
  }

  /** Stop at the first success: when attempt k + 1 is the first to succeed,
      the loop returns true after exactly k + 1 attempts, having paused once
      after each earlier failure, and delivers that attempt's poll only. */
  lemma {:induction false} RunFirstSuccess(cfg: Config, poll: PollData, env: seq<Attempt>, made: nat, k: nat)
    requires made <= k < cfg.maxRetries <= |env|
    requires Succeeds(cfg, poll, env[k])
    requires forall j :: made <= j < k ==> !Succeeds(cfg, poll, env[j])
    ensures Run(cfg, poll, env, made)
            == SendReport(Returned(true), k + 1, Pauses(cfg.retryDelay, k - made),
                          [AttemptOnce(cfg, poll, env[k]).value])
    decreases k - made
  {
    if made < k {
      RunFirstSuccess(cfg, poll, env, made + 1, k);
    }
  }

  /** Exhaustion: when every remaining attempt fails, all of them are made,
      with a pause between consecutive ones, and the last attempt's error is
      thrown; nothing is delivered. */
  lemma {:induction false} RunAllFail(cfg: Config, poll: PollData, env: seq<Attempt>, made: nat)
    requires made < cfg.maxRetries <= |env|
    requires forall j :: made <= j < cfg.maxRetries ==> !Succeeds(cfg, poll, env[j])
    ensures var last := AttemptOnce(cfg, poll, env[cfg.maxRetries - 1]);
            last.Failure? &&
            Run(cfg, poll, env, made)
            == SendReport(Threw(last.error), cfg.maxRetries, Pauses(cfg.retryDelay, cfg.maxRetries - 1 - made), [])
    decreases cfg.maxRetries - made
  {
    if made + 1 < cfg.maxRetries {
      RunAllFail(cfg, poll, env, made + 1);
    }
  }

  /** The loop returns true exactly when some attempt still allowed succeeds. */
  lemma {:induction false} RunSucceedsIff(cfg: Config, poll: PollData, env: seq<Attempt>, made: nat)
    requires made <= cfg.maxRetries <= |env|
    ensures Run(cfg, poll, env, made).outcome == Returned(true)
            <==> exists k :: made <= k < cfg.maxRetries && Succeeds(cfg, poll, env[k])
    decreases cfg.maxRetries - made
  {
    if made < cfg.maxRetries && !Succeeds(cfg, poll, env[made]) {
      RunSucceedsIff(cfg, poll, env, made + 1);
    }
  }

  /** The trailing `return false` is reached only when no attempt is allowed
      at all: with maxRetries >= 1 the loop always returns true or throws. */
  lemma {:induction false} RunReturnsFalseIff(cfg: Config, poll: PollData, env: seq<Attempt>, made: nat)
    requires made <= cfg.maxRetries <= |env|
    ensures Run(cfg, poll, env, made).outcome == Returned(false) <==> made == cfg.maxRetries
    decreases cfg.maxRetries - made
  {
    if made + 1 < cfg.maxRetries && !Succeeds(cfg, poll, env[made]) {
      RunReturnsFalseIff(cfg, poll, env, made + 1);
    }
  }

  /** No attempt is made past the point where the loop stops: two worlds that
      agree on the attempts actually made give the same report, whatever
      they would have done afterwards. */
  lemma {:induction false} RunIgnoresUnmadeAttempts(cfg: Config, poll: PollData, env1: seq<Attempt>,
                                                    env2: seq<Attempt>, made: nat)
    requires made <= cfg.maxRetries <= |env1| && cfg.maxRetries <= |env2|
    requires env1[..Run(cfg, poll, env1, made).attempts] == env2[..Run(cfg, poll, env1, made).attempts]
    ensures Run(cfg, poll, env1, made) == Run(cfg, poll, env2, made)
    decreases cfg.maxRetries - made
  {
    var n := Run(cfg, poll, env1, made).attempts;
    if made < cfg.maxRetries {
      assert env1[made] == env1[..n][made] == env2[..n][made] == env2[made];
      if !Succeeds(cfg, poll, env1[made]) && made + 1 < cfg.maxRetries {
        RunIgnoresUnmadeAttempts(cfg, poll, env1, env2, made + 1);
      }
    }
  }

  /** With the bot's own settings: two failures and then a success return
      true after three attempts and two pauses of 5000 ms. */
  lemma FailFailSucceed(poll: PollData, env: seq<Attempt>)
    requires |env| >= 3
    requires !Succeeds(DefaultConfig, poll, env[0]) && !Succeeds(DefaultConfig, poll, env[1])
    requires Succeeds(DefaultConfig, poll, env[2])
    ensures var r := Run(DefaultConfig, poll, env, 0);
            r.outcome == Returned(true) && r.attempts == 3 && r.delays == [5000, 5000]
            && |r.delivered| == 1
  {
  }

  /** With the bot's own settings: three failures throw the third attempt's
      error after two pauses of 5000 ms. */
  lemma ThreeFailures(poll: PollData, env: seq<Attempt>)
    requires |env| >= 3
    requires forall j :: 0 <= j < 3 ==> !Succeeds(DefaultConfig, poll, env[j])
    ensures var r, last := Run(DefaultConfig, poll, env, 0), AttemptOnce(DefaultConfig, poll, env[2]);
            last.Failure? && r.outcome == Threw(last.error)
            && r.attempts == 3 && r.delays == [5000, 5000] && r.delivered == []
  {
  }
}
