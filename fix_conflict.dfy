/**
 * fix_conflict.py: the manual conflict resolver. It drops the webhook and the
 * backlog, drains whatever arrives meanwhile in up to three batches, checks
 * the bot and looks once more for pending updates; a small text menu runs it
 * or a status check on demand.
 */
module FixConflict {
  import opened Common
  import opened PyText
  import opened Feed

  /** What the calls of one fix_bot_conflict run answered. */
  datatype FixRun = FixRun(delete: Response, rounds: seq<Round>, me: Response, final: Response)

  /** The drain loop of fix_bot_conflict: three attempts of up to 100 updates,
      no wait after the third. */
  const Attempts := 3
  const BatchLimit := 100

  /** The log of a run with a token: deleteWebhook first; when it raises,
      nothing else; otherwise a 3 s wait, the drain, a 2 s wait, getMe and,
      when getMe answers, the final one-update check. */
  function FixTrace(run: FixRun): seq<Entry>
  {
    var delete := [Call(DeleteWebhook(true), run.delete)];
    var checked := delete + [Sleep(3)] + Traces(run.rounds, Attempts, BatchLimit, false)
      + [Sleep(2)] + [Call(GetMe, run.me)];
    if run.delete.Failed? then delete
    else if run.me.Failed? then checked
    else checked + [Call(GetUpdates(None, 1), run.final)]
  }

  /** fix_bot_conflict. Without a token nothing is called and the answer is
      False. With one, the first call is deleteWebhook(drop_pending_updates=
      True), and the answer is True exactly when deleteWebhook, getMe and
      the final check all succeeded; errors inside the drain are reported
      and do not change the answer. `cleaned` is `total_cleaned`. */
  method FixBotConflict(hasToken: bool, api: Api) returns (out: Api, ok: bool, run: FixRun, cleaned: nat)
    requires Wf(api)
    ensures Wf(out)
    ensures !hasToken ==> out == api && !ok
    // with a token, exactly the calls of FixTrace(run) were made, with those answers
    ensures hasToken ==> Replay(api, FixTrace(run)) == Some(out)
    ensures hasToken ==> out.log[|api.log|] == Call(DeleteWebhook(true), run.delete)
    ensures ok <==> hasToken && !run.delete.Failed? && !run.me.Failed? && !run.final.Failed?
    // once deleteWebhook went through, the webhook is gone and stays gone
    ensures hasToken && !run.delete.Failed? ==> !out.webhook
    ensures |run.rounds| <= Attempts
    ensures cleaned == Cleaned(run.rounds) && cleaned <= Seen(run.rounds)
    // every update the drain acknowledged is still confirmed at the end
    ensures AllConfirmed(AckedIds(run.rounds), out)
  {
    out := api;
    ok := false;
    cleaned := 0;
    run := FixRun(Done, [], Done, Done);
    if !hasToken {
      return;
    }
    var d := Invoke(out, DeleteWebhook(true));
    InvokeWf(out, DeleteWebhook(true));
    InvokeDeleteWebhook(out);
    ReplayCall(api, [], api, DeleteWebhook(true));
    ghost var tail := [Call(DeleteWebhook(true), d.1)];
    assert [] + tail == tail;
    out := d.0;
    run := run.(delete := d.1);
    if d.1.Failed? {
      return;
    }
    ReplaySleep(api, tail, out, 3);
    out := Pause(out, 3);
    tail := tail + [Sleep(3)];
    var rounds: seq<Round>;
    var drained: Api;
    drained, rounds, cleaned := DrainRounds(out, Attempts, BatchLimit, false);
    ReplayThen(api, tail, out, Traces(rounds, Attempts, BatchLimit, false), drained);
    out := drained;
    tail := tail + Traces(rounds, Attempts, BatchLimit, false);
    run := run.(rounds := rounds);
    ReplaySleep(api, tail, out, 2);
    out := Pause(out, 2);
    tail := tail + [Sleep(2)];
    var m := Invoke(out, GetMe);
    InvokeProgress(out, GetMe);
    AllConfirmedKeep(AckedIds(rounds), out, m.0);
    ReplayCall(api, tail, out, GetMe);
    out := m.0;
    tail := tail + [Call(GetMe, m.1)];
    run := run.(me := m.1);
    if m.1.Failed? {
      return;
    }
    var f := Invoke(out, GetUpdates(None, 1));
    InvokeProgress(out, GetUpdates(None, 1));
    AllConfirmedKeep(AckedIds(rounds), out, f.0);
    ReplayCall(api, tail, out, GetUpdates(None, 1));
    out := f.0;
    run := run.(final := f.1);
    ok := !f.1.Failed?;
  }

  /** What the calls of one check_bot_status run answered. */
  datatype StatusRun = StatusRun(me: Response, webhook: Response, updates: Response)

  /** The log of check_bot_status with a token: getMe, getWebhookInfo,
      getUpdates(limit=1), stopping at the first call that raises. */
  function StatusTrace(run: StatusRun): seq<Entry>
  {
    var me := [Call(GetMe, run.me)];
    var info := me + [Call(GetWebhookInfo, run.webhook)];
    if run.me.Failed? then me
    else if run.webhook.Failed? then info
    else info + [Call(GetUpdates(None, 1), run.updates)]
  }

  /** check_bot_status: False without a token (and no call), otherwise True
      exactly when all three queries answered. */
  method CheckBotStatus(hasToken: bool, api: Api) returns (out: Api, ok: bool, run: StatusRun)
    requires Wf(api)
    ensures Wf(out)
    ensures !hasToken ==> out == api && !ok
    // with a token, exactly the calls of StatusTrace(run) were made, with those answers
    ensures hasToken ==> Replay(api, StatusTrace(run)) == Some(out)
    ensures ok <==> hasToken && !run.me.Failed? && !run.webhook.Failed? && !run.updates.Failed?
    // the queries change neither the webhook nor the queue's confirmations
    ensures Progress(api, out)
  {
    out := api;
    ok := false;
    run := StatusRun(Me, Webhook(false), Updates([]));
    if !hasToken {
      return;
    }
    var m := Invoke(out, GetMe);
    InvokeProgress(out, GetMe);
    ReplayCall(api, [], api, GetMe);
    ghost var tail := [Call(GetMe, m.1)];
    assert [] + tail == tail;
    out := m.0;
    run := run.(me := m.1);
    if m.1.Failed? {
      return;
    }
    var w := Invoke(out, GetWebhookInfo);
    InvokeProgress(out, GetWebhookInfo);
    ProgressTransitive(api, out, w.0);
    ReplayCall(api, tail, out, GetWebhookInfo);
    out := w.0;
    tail := tail + [Call(GetWebhookInfo, w.1)];
    run := run.(webhook := w.1);
    if w.1.Failed? {
      return;
    }
    var u := Invoke(out, GetUpdates(None, 1));
    InvokeProgress(out, GetUpdates(None, 1));
    ProgressTransitive(api, out, u.0);
    ReplayCall(api, tail, out, GetUpdates(None, 1));
    out := u.0;
    run := run.(updates := u.1);
    ok := !u.1.Failed?;
  }

  /** The menu options. */
  datatype Choice = RunFix | ShowStatus | Quit | Invalid

  /** How the menu reads one input line: stripped, then "1", "2" or "3". */
  function Dispatch(line: string): Choice
  {
    var choice := Strip(line);
    if |choice| != 1 then Invalid
    else if choice[0] == '1' then RunFix
    else if choice[0] == '2' then ShowStatus
    else if choice[0] == '3' then Quit
    else Invalid
  }

  /** Only "3" leaves, and anything but "1", "2" and "3" is rejected;
      surrounding whitespace never changes the option chosen. */
  lemma DispatchCases(line: string)
    ensures Dispatch(line) == RunFix <==> Strip(line) == "1"
    ensures Dispatch(line) == ShowStatus <==> Strip(line) == "2"
    ensures Dispatch(line) == Quit <==> Strip(line) == "3"
    ensures Dispatch(line) == Invalid <==> Strip(line) !in {"1", "2", "3"}
    ensures Dispatch(Strip(line)) == Dispatch(line)
  {
    StripIdempotent(line);
    var c := Strip(line);
    if |c| == 1 {
      assert c == [c[0]];
    }
  }

  /** What one pass of the menu loop did; an option that ran carries the
      answers its calls got. */
  datatype Action = Fixed(ok: bool, fix: FixRun) | Checked(ok: bool, status: StatusRun) | Left | Rejected

  function ChoiceOf(a: Action): Choice
  {
    match a
    case Fixed(_, _) => RunFix
    case Checked(_, _) => ShowStatus
    case Left => Quit
    case Rejected => Invalid
  }

  /** The calls one pass makes: those of the option it ran, none without a
      token, none for "3" or an unknown option. */
  function OptionTrace(hasToken: bool, a: Action): seq<Entry>
  {
    if !hasToken then []
    else match a
      case Fixed(_, fix) => FixTrace(fix)
      case Checked(_, status) => StatusTrace(status)
      case Left => []
      case Rejected => []
  }

  /** What the option's procedure returned is what its calls' answers give
      (the menu prints the fix's verdict and discards the status check's). */
  predicate Reported(hasToken: bool, a: Action)
  {
    match a
    case Fixed(ok, fix) =>
      ok <==> hasToken && !fix.delete.Failed? && !fix.me.Failed? && !fix.final.Failed?
    case Checked(ok, status) =>
      ok <==> hasToken && !status.me.Failed? && !status.webhook.Failed? && !status.updates.Failed?
    case Left => true
    case Rejected => true
  }

  /** One pass of the menu loop for one input line. */
  method RunOption(hasToken: bool, api: Api, line: string) returns (out: Api, action: Action)
    requires Wf(api)
    ensures Wf(out)
    ensures ChoiceOf(action) == Dispatch(line)
    ensures Reported(hasToken, action)
    // exactly the calls of the option chosen were made, with those answers
    ensures Replay(api, OptionTrace(hasToken, action)) == Some(out)
  {
    out := api;
    match Dispatch(line) {
      case RunFix =>
        var ok: bool;
        var run: FixRun;
        var cleaned: nat;
        out, ok, run, cleaned := FixBotConflict(hasToken, out);
        action := Fixed(ok, run);
      case ShowStatus =>
        var ok: bool;
        var run: StatusRun;
        out, ok, run := CheckBotStatus(hasToken, out);
        action := Checked(ok, run);
      case Quit =>
        action := Left;
      case Invalid =>
        action := Rejected;
    }
  }

  /** The calls of the passes in order. */
  function MenuTrace(hasToken: bool, actions: seq<Action>): seq<Entry>
  {
    if actions == [] then []
    else MenuTrace(hasToken, actions[..|actions| - 1]) + OptionTrace(hasToken, actions[|actions| - 1])
  }

  /** The menu after the passes `actions` over the first lines, passing
      through the server states `states`: each pass ran the option its line
      names, printed the verdict its calls' answers give, and took the
      server from one state to the next by exactly its option's calls. */
  ghost predicate MenuSoFar(hasToken: bool, lines: seq<string>, actions: seq<Action>, states: seq<Api>)
  {
    && |actions| <= |lines|
    && |states| == |actions| + 1
    && Wf(states[|actions|])
    && (forall k :: 0 <= k < |actions| ==> ChoiceOf(actions[k]) == Dispatch(lines[k]) && Reported(hasToken, actions[k]))
    && (forall k :: 0 <= k < |actions| ==> Replay(states[k], OptionTrace(hasToken, actions[k])) == Some(states[k + 1]))
  }

  /** Passes that each replay their own calls replay MenuTrace together. */
  lemma {:induction false} MenuChain(hasToken: bool, actions: seq<Action>, states: seq<Api>)
    requires |states| == |actions| + 1
    requires forall k :: 0 <= k < |actions| ==> Replay(states[k], OptionTrace(hasToken, actions[k])) == Some(states[k + 1])
    ensures Replay(states[0], MenuTrace(hasToken, actions)) == Some(states[|actions|])
    decreases |actions|
  {
    if actions != [] {
      var n := |actions| - 1;
      var before := actions[..n];
      MenuChain(hasToken, before, states[..n + 1]);
      ReplayThen(states[0], MenuTrace(hasToken, before), states[n], OptionTrace(hasToken, actions[n]), states[n + 1]);
    }
  }

  /** One more pass that ran the option its line names and reported its
      calls' verdict. */
  lemma ChoicesStep(hasToken: bool, lines: seq<string>, actions: seq<Action>, action: Action)
    requires |actions| < |lines|
    requires forall k :: 0 <= k < |actions| ==> ChoiceOf(actions[k]) == Dispatch(lines[k]) && Reported(hasToken, actions[k])
    requires ChoiceOf(action) == Dispatch(lines[|actions|]) && Reported(hasToken, action)
    ensures var a := actions + [action];
      forall k :: 0 <= k < |a| ==> ChoiceOf(a[k]) == Dispatch(lines[k]) && Reported(hasToken, a[k])
  {
    var a := actions + [action];
    forall k | 0 <= k < |a| ensures ChoiceOf(a[k]) == Dispatch(lines[k]) && Reported(hasToken, a[k]) {
      assert a[k] == if k < |actions| then actions[k] else action;
    }
  }

  /** One more pass whose calls took the server from the last state to
      `next`. */
  lemma StatesStep(hasToken: bool, actions: seq<Action>, states: seq<Api>, action: Action, next: Api)
    requires |states| == |actions| + 1
    requires forall k :: 0 <= k < |actions| ==> Replay(states[k], OptionTrace(hasToken, actions[k])) == Some(states[k + 1])
    requires Replay(states[|actions|], OptionTrace(hasToken, action)) == Some(next)
    ensures var a, st := actions + [action], states + [next];
      forall k :: 0 <= k < |a| ==> Replay(st[k], OptionTrace(hasToken, a[k])) == Some(st[k + 1])
  {
    var a, st := actions + [action], states + [next];
    forall k | 0 <= k < |a| ensures Replay(st[k], OptionTrace(hasToken, a[k])) == Some(st[k + 1]) {
      assert a[k] == if k < |actions| then actions[k] else action;
      assert st[k] == states[k];
      assert st[k + 1] == if k < |actions| then states[k + 1] else next;
    }
  }

  /** What one more pass adds to the menu's invariant. */
  lemma MenuStep(hasToken: bool, lines: seq<string>, actions: seq<Action>, states: seq<Api>, action: Action, next: Api)
    requires MenuSoFar(hasToken, lines, actions, states) && |actions| < |lines|
    requires ChoiceOf(action) == Dispatch(lines[|actions|]) && Reported(hasToken, action)
    requires Wf(next) && Replay(states[|actions|], OptionTrace(hasToken, action)) == Some(next)
    ensures MenuSoFar(hasToken, lines, actions + [action], states + [next])
  {
    ChoicesStep(hasToken, lines, actions, action);
    StatesStep(hasToken, actions, states, action, next);
  }

  /** One pass of the menu loop on the next line, keeping its invariant. */
  method MenuPass(hasToken: bool, lines: seq<string>, ghost actions: seq<Action>, ghost states: seq<Api>, i: nat, out: Api)
    returns (next: Api, action: Action)
    requires MenuSoFar(hasToken, lines, actions, states) && i == |actions| < |lines|
    requires out == states[i]
    ensures MenuSoFar(hasToken, lines, actions + [action], states + [next])
  {
    next, action := RunOption(hasToken, out, lines[i]);
    MenuStep(hasToken, lines, actions, states, action, next);
  }

  /** The `while True` menu of main over the lines typed in: each line runs
      the option it names, an unknown one is rejected and the menu asks
      again, and "3" leaves the loop. */
  method Menu(hasToken: bool, api: Api, lines: seq<string>) returns (out: Api, actions: seq<Action>)
    requires Wf(api)
    ensures Wf(out)
    ensures |actions| <= |lines|
    ensures forall k :: 0 <= k < |actions| ==> ChoiceOf(actions[k]) == Dispatch(lines[k])
    ensures forall k :: 0 <= k < |actions| ==> Reported(hasToken, actions[k])
    // exactly the calls of the options chosen were made, pass after pass
    ensures Replay(api, MenuTrace(hasToken, actions)) == Some(out)
    // the loop ends at the first "3" and only there
    ensures forall k :: 0 <= k < |actions| - 1 ==> !actions[k].Left?
    ensures |actions| < |lines| ==> actions != [] && actions[|actions| - 1].Left?
  {
    out := api;
    actions := [];
    ghost var states := [api];
    for i := 0 to |lines|
      invariant |actions| == i && MenuSoFar(hasToken, lines, actions, states)
      invariant states[0] == api && out == states[i]
      invariant forall k :: 0 <= k < i ==> !actions[k].Left?
    {
      var action: Action;
      var next: Api;
      next, action := MenuPass(hasToken, lines, actions, states, i, out);
      out := next;
      actions := actions + [action];
      states := states + [next];
      if action.Left? {
        break;
      }
    }
    MenuChain(hasToken, actions, states);
  }
}
