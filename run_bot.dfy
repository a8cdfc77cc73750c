/**
 * run_bot.py: UltimateBotRunner. Before the bot starts it checks the bot with
 * getMe; on a Conflict it runs an aggressive clean-up and checks once more;
 * every successful path ends with a small preventive clean-up. The bot only
 * starts when that check passed.
 */
module RunBot {
  import opened Common
  import opened Feed

  // ---------------------------------------------------------------------------
  // aggressive_cleanup

  /** What the calls of aggressive_cleanup answered. */
  datatype AggressiveRun = AggressiveRun(delete: Response, rounds: seq<Round>)

  /** Three attempts of up to 100 updates, with a 2 s wait after every attempt
      that did not end the loop, the third included. */
  const AggressiveAttempts := 3
  const AggressiveLimit := 100

  function AggressiveTrace(run: AggressiveRun): seq<Entry>
  {
    var delete := [Call(DeleteWebhook(true), run.delete)];
    if run.delete.Failed? then delete
    else delete + [Sleep(3)] + Traces(run.rounds, AggressiveAttempts, AggressiveLimit, true) + [Sleep(2)]
  }

  /** aggressive_cleanup: drop the webhook and the backlog, then drain up to
      three batches acknowledging each update; any error is reported and
      swallowed. */
  method AggressiveCleanup(api: Api) returns (out: Api, run: AggressiveRun, cleaned: nat)
    requires Wf(api)
    ensures Wf(out)
    // exactly the calls of AggressiveTrace(run) were made, with those answers
    ensures Replay(api, AggressiveTrace(run)) == Some(out)
    ensures run.delete.Failed? ==> run.rounds == []
    // once deleteWebhook went through, the webhook is gone
    ensures !run.delete.Failed? ==> !out.webhook
    ensures |run.rounds| <= AggressiveAttempts
    ensures cleaned == Cleaned(run.rounds) && cleaned <= Seen(run.rounds)
    ensures AllConfirmed(AckedIds(run.rounds), out)
  {
    var d := Invoke(api, DeleteWebhook(true));
    InvokeWf(api, DeleteWebhook(true));
    InvokeDeleteWebhook(api);
    ReplayCall(api, [], api, DeleteWebhook(true));
    ghost var tail := [Call(DeleteWebhook(true), d.1)];
    assert [] + tail == tail;
    out := d.0;
    run := AggressiveRun(d.1, []);
    cleaned := 0;
    if d.1.Failed? {
      return;
    }
    ReplaySleep(api, tail, out, 3);
    out := Pause(out, 3);
    tail := tail + [Sleep(3)];
    var rounds: seq<Round>;
    var drained: Api;
    drained, rounds, cleaned := DrainRounds(out, AggressiveAttempts, AggressiveLimit, true);
    ReplayThen(api, tail, out, Traces(rounds, AggressiveAttempts, AggressiveLimit, true), drained);
    tail := tail + Traces(rounds, AggressiveAttempts, AggressiveLimit, true);
    ReplaySleep(api, tail, drained, 2);
    out := Pause(drained, 2);
    run := run.(rounds := rounds);
  }

  // ---------------------------------------------------------------------------
  // preventive_cleanup

  /** What the calls of preventive_cleanup answered; `acks` are the
      follow-ups of the one batch. */
  datatype PreventiveRun = PreventiveRun(delete: Response, batch: Response, acks: seq<Ack>)

  const PreventiveLimit := 10

  function PreventiveTrace(run: PreventiveRun): seq<Entry>
  {
    var delete := [Call(DeleteWebhook(true), run.delete)];
    var fetch := delete + [Call(GetUpdates(None, PreventiveLimit), run.batch)];
    if run.delete.Failed? then delete
    else if run.batch.Failed? then fetch
    else fetch + FollowUps(run.acks) + [Sleep(1)]
  }

  /** preventive_cleanup: drop the webhook and the backlog, fetch one batch
      of at most 10 and acknowledge each of its updates; errors are
      swallowed. */
  method PreventiveCleanup(api: Api) returns (out: Api, run: PreventiveRun)
    requires Wf(api)
    ensures Wf(out)
    // exactly the calls of PreventiveTrace(run) were made, with those answers
    ensures Replay(api, PreventiveTrace(run)) == Some(out)
    ensures !run.batch.Failed? ==> run.batch == Updates(AckIds(run.acks)) && |run.acks| <= PreventiveLimit
    ensures run.delete.Failed? || run.batch.Failed? ==> run.acks == []
    // once deleteWebhook went through, the webhook is gone
    ensures !run.delete.Failed? ==> !out.webhook
    ensures forall k :: 0 <= k < |run.acks| && !run.acks[k].resp.Failed? ==> Confirmed(out, run.acks[k].id)
  {
    var d := Invoke(api, DeleteWebhook(true));
    InvokeWf(api, DeleteWebhook(true));
    InvokeDeleteWebhook(api);
    ReplayCall(api, [], api, DeleteWebhook(true));
    ghost var tail := [Call(DeleteWebhook(true), d.1)];
    assert [] + tail == tail;
    out := d.0;
    run := PreventiveRun(d.1, Updates([]), []);
    if d.1.Failed? {
      return;
    }
    var b := Invoke(out, GetUpdates(None, PreventiveLimit));
    FetchedBelowNext(out, PreventiveLimit);
    InvokeProgress(out, GetUpdates(None, PreventiveLimit));
    ReplayCall(api, tail, out, GetUpdates(None, PreventiveLimit));
    out := b.0;
    tail := tail + [Call(GetUpdates(None, PreventiveLimit), b.1)];
    run := run.(batch := b.1);
    if b.1.Failed? {
      return;
    }
    var acks: seq<Ack>;
    var acked: nat;
    var acknowledged: Api;
    acknowledged, acks, acked := Acknowledge(out, b.1.ids);
    ReplayThen(api, tail, out, FollowUps(acks), acknowledged);
    tail := tail + FollowUps(acks);
    ReplaySleep(api, tail, acknowledged, 1);
    out := Pause(acknowledged, 1);
    run := run.(acks := acks);
  }

  // ---------------------------------------------------------------------------
  // pre_startup_cleanup

  /** What pre_startup_cleanup's calls answered: the first getMe, the
      aggressive clean-up and the second getMe (after a Conflict only), and
      the preventive clean-up (on the paths that reach it). */
  datatype PreRun = PreRun(first: Response, aggressive: AggressiveRun, second: Response, preventive: PreventiveRun)

  /** The paths of pre_startup_cleanup that reach `return True`. */
  predicate Passes(run: PreRun)
  {
    !run.first.Failed? || (run.first == Failed(Conflict) && !run.second.Failed?)
  }

  function PreTrace(run: PreRun): seq<Entry>
  {
    var first := [Call(GetMe, run.first)];
    var second := first + AggressiveTrace(run.aggressive) + [Call(GetMe, run.second)];
    if !run.first.Failed? then first + PreventiveTrace(run.preventive)
    else if run.first.fault != Conflict then first
    else if run.second.Failed? then second
    else second + PreventiveTrace(run.preventive)
  }

  /** pre_startup_cleanup. False without a token, with no call. Otherwise
      getMe; a Conflict there runs the aggressive clean-up and a second
      getMe, and a second failure gives False; any other error gives False;
      every path that gives True has run the preventive clean-up last. */
  method PreStartupCleanup(hasToken: bool, api: Api) returns (out: Api, ok: bool, run: PreRun)
    requires Wf(api)
    ensures Wf(out)
    ensures !hasToken ==> out == api && !ok
    // with a token, exactly the calls of PreTrace(run) were made, with those answers
    ensures hasToken ==> Replay(api, PreTrace(run)) == Some(out)
    ensures ok <==> hasToken && Passes(run)
    // a start-up check that passed leaves no webhook behind
    ensures ok ==> !run.preventive.delete.Failed? ==> !out.webhook
  {
    out := api;
    ok := false;
    run := PreRun(Me, AggressiveRun(Done, []), Me, PreventiveRun(Done, Updates([]), []));
    if !hasToken {
      return;
    }
    var m := Invoke(out, GetMe);
    InvokeWf(out, GetMe);
    ReplayCall(api, [], api, GetMe);
    ghost var tail := [Call(GetMe, m.1)];
    assert [] + tail == tail;
    out := m.0;
    run := run.(first := m.1);
    if m.1.Failed? {
      if m.1.fault != Conflict {
        return;
      }
      var aggressive: AggressiveRun;
      var cleaned: nat;
      var cleanedUp: Api;
      cleanedUp, aggressive, cleaned := AggressiveCleanup(out);
      ReplayThen(api, tail, out, AggressiveTrace(aggressive), cleanedUp);
      tail := tail + AggressiveTrace(aggressive);
      out := cleanedUp;
      run := run.(aggressive := aggressive);
      var m2 := Invoke(out, GetMe);
      InvokeWf(out, GetMe);
      ReplayCall(api, tail, out, GetMe);
      out := m2.0;
      tail := tail + [Call(GetMe, m2.1)];
      run := run.(second := m2.1);
      if m2.1.Failed? {
        return;
      }
    }
    var preventive: PreventiveRun;
    var prevented: Api;
    prevented, preventive := PreventiveCleanup(out);
    ReplayThen(api, tail, out, PreventiveTrace(preventive), prevented);
    out := prevented;
    run := run.(preventive := preventive);
    ok := true;
  }

  /** Every path that passes ends with the preventive clean-up. */
  lemma PassesEndsWithPreventive(run: PreRun)
    requires Passes(run)
    ensures var t := PreTrace(run);
      var p := PreventiveTrace(run.preventive);
      |p| <= |t| && t[|t| - |p|..] == p
  {
  }

  // ---------------------------------------------------------------------------
  // start_bot and run

  /** How the main bot's `main()` ended. It is a plain function, not a
      coroutine, and its own handlers catch KeyboardInterrupt and every
      Exception that run_polling raises, so it normally returns None; an
      Interrupted or Crashed outcome is an exception that escaped main()
      itself. */
  datatype MainOutcome = Returned | Interrupted | Crashed

  /** start_bot: `await main()` runs main() first and then awaits what it
      returned. After a normal return that is None, and awaiting None raises
      TypeError, which the `except Exception` handler turns into False; an
      exception escaping main() also gives False; only a KeyboardInterrupt
      escaping main() reaches the handler that answers True. */
  function StartBot(outcome: MainOutcome): (success: bool)
    ensures success <==> outcome == Interrupted
  {
    match outcome
    case Returned => false
    case Interrupted => true
    case Crashed => false
  }

  /** run: the bot is started only when pre_startup_cleanup passed, and the
      result is then start_bot's. */
  method Run(hasToken: bool, api: Api, outcome: MainOutcome) returns (out: Api, pre: PreRun, started: bool, success: bool)
    requires Wf(api)
    ensures Wf(out)
    ensures !hasToken ==> out == api
    ensures hasToken ==> Replay(api, PreTrace(pre)) == Some(out)
    ensures started <==> hasToken && Passes(pre)
    ensures success <==> started && outcome == Interrupted
  {
    var ok: bool;
    out, ok, pre := PreStartupCleanup(hasToken, api);
    started := ok;
    success := ok && StartBot(outcome);
  }
}
