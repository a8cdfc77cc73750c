/**
 * start_bot.py: a start-up script that checks the bot with getMe, repairs a
 * Conflict once by dropping the webhook and the backlog, and only then runs
 * the main bot; the process exit status says whether it all worked.
 */
module StartBot {
  import opened Common
  import opened Feed

  /** What check_and_fix_conflicts's calls answered: the first getMe, and
      after a Conflict the deleteWebhook and the second getMe. */
  datatype CheckRun = CheckRun(first: Response, delete: Response, second: Response)

  /** The server after the calls, the answer, and what the calls answered. */
  datatype Checked = Checked(api: Api, ok: bool, run: CheckRun)

  function CheckTrace(run: CheckRun): seq<Entry>
  {
    var first := [Call(GetMe, run.first)];
    var deleted := first + [Call(DeleteWebhook(true), run.delete)];
    if !run.first.Failed? || run.first.fault != Conflict then first
    else if run.delete.Failed? then deleted
    else deleted + [Sleep(2)] + [Call(GetMe, run.second)]
  }

  /** The paths of check_and_fix_conflicts that reach `return True`: getMe
      answered at once, or it hit a Conflict, the repair went through and the
      second getMe answered. A second error of any kind gives False: a
      Conflict through the inner handler, anything else through the outer
      one. */
  predicate Resolved(run: CheckRun)
  {
    !run.first.Failed?
    || (run.first == Failed(Conflict) && !run.delete.Failed? && !run.second.Failed?)
  }

  /** check_and_fix_conflicts. */
  function CheckAndFixConflicts(hasToken: bool, api: Api): Checked
  {
    if !hasToken then Checked(api, false, CheckRun(Me, Done, Me))
    else
      var m := Invoke(api, GetMe);
      if !m.1.Failed? then Checked(m.0, true, CheckRun(m.1, Done, Me))
      else if m.1.fault != Conflict then Checked(m.0, false, CheckRun(m.1, Done, Me))
      else
        var d := Invoke(m.0, DeleteWebhook(true));
        if d.1.Failed? then Checked(d.0, false, CheckRun(m.1, d.1, Me))
        else
          var m2 := Invoke(Pause(d.0, 2), GetMe);
          Checked(m2.0, !m2.1.Failed?, CheckRun(m.1, d.1, m2.1))
  }

  /** Without a token nothing is called and the answer is False; with one,
      exactly the calls of CheckTrace were made, with those answers, the
      answer is True exactly on the resolved paths, and a first getMe that
      answers is the only call. */
  lemma CheckAndFixConflictsFacts(hasToken: bool, api: Api)
    requires Wf(api)
    ensures var c := CheckAndFixConflicts(hasToken, api);
      && Wf(c.api)
      && (!hasToken ==> c.api == api && !c.ok)
      && (hasToken ==> Replay(api, CheckTrace(c.run)) == Some(c.api))
      && (c.ok <==> hasToken && Resolved(c.run))
      && (hasToken && !c.run.first.Failed? ==> c.api.log == api.log + [Call(GetMe, c.run.first)])
  {
    if hasToken {
      var m := Invoke(api, GetMe);
      InvokeWf(api, GetMe);
      ReplayCall(api, [], api, GetMe);
      var first := [Call(GetMe, m.1)];
      assert [] + first == first;
      if m.1.Failed? && m.1.fault == Conflict {
        var d := Invoke(m.0, DeleteWebhook(true));
        InvokeWf(m.0, DeleteWebhook(true));
        ReplayCall(api, first, m.0, DeleteWebhook(true));
        var deleted := first + [Call(DeleteWebhook(true), d.1)];
        if !d.1.Failed? {
          InvokeWf(Pause(d.0, 2), GetMe);
          ReplaySleep(api, deleted, d.0, 2);
          ReplayCall(api, deleted + [Sleep(2)], Pause(d.0, 2), GetMe);
        }
      }
    }
  }

  /** When a repair was needed and went through, the backlog was dropped
      before the second check. */
  lemma RepairDropsBacklog(api: Api)
    requires NextEvent(api).outcome == Raise(Conflict)
    ensures var m := Invoke(api, GetMe);
      var d := Invoke(m.0, DeleteWebhook(true));
      !d.1.Failed? ==> d.0.pending == [] && !d.0.webhook
  {
    var m := Invoke(api, GetMe);
    InvokeDeleteWebhook(m.0);
  }

  /** How the main bot's `main()` ended. It is a plain function, not a
      coroutine, and its own handlers catch KeyboardInterrupt and every
      Exception that run_polling raises, so it normally returns None; an
      Interrupted or Crashed outcome is an exception that escaped main()
      itself. */
  datatype MainOutcome = Returned | Interrupted | Crashed

  /** How start_bot_safely ended: with a value, or with the KeyboardInterrupt
      it does not catch (it is not an `Exception`). */
  datatype Ending = Finished(success: bool) | Interrupt

  /** start_bot_safely: without a token or without a resolved conflict check
      the bot is not started and the answer is False. Otherwise `await
      main()` runs main() and then awaits what it returned: after a normal
      return that is None, awaiting it raises TypeError and the `except
      Exception` handler answers False; an exception escaping main() also
      gives False; a KeyboardInterrupt leaves the coroutine. */
  function StartBotSafely(hasToken: bool, api: Api, outcome: MainOutcome): (r: (Checked, Ending))
    ensures r.0 == CheckAndFixConflicts(hasToken, api)
    ensures !r.0.ok ==> r.1 == Finished(false)
    ensures r.0.ok ==> r.1 == (if outcome == Interrupted then Interrupt else Finished(false))
    // the coroutine never answers True
    ensures r.1 != Finished(true)
  {
    var checked := CheckAndFixConflicts(hasToken, api);
    if !checked.ok then (checked, Finished(false))
    else
      match outcome
      case Returned => (checked, Finished(false))
      case Interrupted => (checked, Interrupt)
      case Crashed => (checked, Finished(false))
  }

  /** main's exit status: 1 when start_bot_safely answered False, 0 after
      Ctrl+C, and a normal exit (0) after True. */
  function ExitCode(ending: Ending): (code: int)
    ensures code == 0 || code == 1
    ensures code == 0 <==> ending != Finished(false)
  {
    match ending
    case Finished(success) => if success then 0 else 1
    case Interrupt => 0
  }

  /** The script exits with 0 exactly when the conflict check passed and a
      KeyboardInterrupt escaped main(); after a normal return of main() it
      exits with 1. The main bot never runs after a failed check. */
  lemma ExitCodeMeaning(hasToken: bool, api: Api, outcome: MainOutcome)
    requires Wf(api)
    ensures var r := StartBotSafely(hasToken, api, outcome);
      ExitCode(r.1) == 0 <==> hasToken && Resolved(r.0.run) && outcome == Interrupted
  {
    CheckAndFixConflictsFacts(hasToken, api);
  }
}
