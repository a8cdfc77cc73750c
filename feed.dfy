/**
 * An abstract Telegram Bot API as the clean-up scripts see it (getUpdates,
 * deleteWebhook, getMe, getWebhookInfo, close).
 *
 * The server holds a strictly increasing queue of pending update ids, the next
 * id it will hand out and a webhook flag. Whatever the network and the other
 * bot instances do is an oracle: every call consumes one `Event` saying how
 * many new updates arrived meanwhile and whether the call raised (Conflict,
 * NetworkError, TimedOut or anything else). Every call and every sleep is
 * appended to a log, so the order of the calls a script makes is observable.
 *
 * getUpdates confirms (drops) every pending update whose id is below its
 * offset and returns up to `limit` of the remaining ones without confirming
 * them; deleteWebhook(drop_pending_updates=True) removes the webhook and the
 * whole backlog.
 */
module Feed {
  import opened Common

  datatype Fault = Conflict | NetworkError | TimedOut | OtherError

  datatype Outcome = Ok | Raise(fault: Fault)

  /** What happens around one call: `arrivals` new updates reach the server
      before it is served, and the call succeeds or raises. */
  datatype Event = Event(arrivals: nat, outcome: Outcome)

  datatype Request =
    | DeleteWebhook(dropPending: bool)
    | GetUpdates(offset: Option<int>, limit: nat)
    | GetMe
    | GetWebhookInfo
    | Close

  datatype Response =
    | Done
    | Updates(ids: seq<int>)
    | Me
    | Webhook(active: bool)
    | Failed(fault: Fault)

  /** One line of the observable history: a call with its answer, or a sleep. */
  datatype Entry = Call(req: Request, resp: Response) | Sleep(seconds: nat)

  datatype Api = Api(pending: seq<int>, nextId: int, webhook: bool, events: seq<Event>, log: seq<Entry>)

  /** The server's own invariant: the queue holds only ids it has already
      handed out. */
  predicate Wf(api: Api)
  {
    forall p :: p in api.pending ==> p < api.nextId
  }

  /** Every update still pending comes after `id`: the update is confirmed. */
  predicate Confirmed(api: Api, id: int)
  {
    forall p :: p in api.pending ==> id < p
  }

  /** The ids `from`, `from + 1`, ... of `n` newly arrived updates. */
  function Arrived(from: int, n: nat): (r: seq<int>)
    ensures |r| == n
    ensures forall k :: 0 <= k < n ==> r[k] == from + k
    ensures forall p :: p in r ==> from <= p < from + n
  {
    seq(n, k requires 0 <= k < n => from + k)
  }

  /** The queue after confirming every update whose id is below `offset`. */
  function KeepFrom(s: seq<int>, offset: int): (r: seq<int>)
    ensures |r| <= |s|
    ensures forall p :: p in r <==> p in s && offset <= p
  {
    if s == [] then []
    else (if offset <= s[0] then [s[0]] else []) + KeepFrom(s[1..], offset)
  }

  function Min(a: int, b: int): int
  {
    if a <= b then a else b
  }

  /** The event of the next call; with no event left, nothing arrives and the
      call succeeds. */
  function NextEvent(api: Api): Event
  {
    if api.events == [] then Event(0, Ok) else api.events[0]
  }

  /** The queue once the updates that arrived before the call are added. */
  function Queued(api: Api): (q: seq<int>)
    ensures api.pending <= q
    ensures forall p :: p in q ==> p in api.pending || api.nextId <= p < api.nextId + NextEvent(api).arrivals
  {
    api.pending + Arrived(api.nextId, NextEvent(api).arrivals)
  }

  /** What a call that does not raise does to the queue and the webhook, and
      what it answers. */
  function Serve(queued: seq<int>, webhook: bool, req: Request): (r: (seq<int>, bool, Response))
    ensures forall p :: p in r.0 ==> p in queued
  {
    match req
    case DeleteWebhook(drop) => (if drop then [] else queued, false, Done)
    case GetUpdates(offset, limit) =>
      var kept := if offset.Some? then KeepFrom(queued, offset.value) else queued;
      (kept, webhook, Updates(kept[..Min(limit, |kept|)]))
    case GetMe => (queued, webhook, Me)
    case GetWebhookInfo => (queued, webhook, Webhook(webhook))
    case Close => (queued, webhook, Done)
  }

  /** One call to the server: the new state and the call's answer. */
  function Invoke(api: Api, req: Request): (r: (Api, Response))
    ensures r.0.log == api.log + [Call(req, r.1)]
    ensures r.0.events == (if api.events == [] then [] else api.events[1..])
    ensures r.0.nextId == api.nextId + NextEvent(api).arrivals
    ensures r.1.Failed? <==> NextEvent(api).outcome.Raise?
    // no confirmed update comes back: every pending id was pending before or is new
    ensures forall p :: p in r.0.pending ==> p in api.pending || api.nextId <= p < r.0.nextId
  {
    var ev := NextEvent(api);
    var rest := if api.events == [] then [] else api.events[1..];
    var next := api.nextId + ev.arrivals;
    match ev.outcome
    case Raise(f) =>
      (Api(Queued(api), next, api.webhook, rest, api.log + [Call(req, Failed(f))]), Failed(f))
    case Ok =>
      var (pending, webhook, resp) := Serve(Queued(api), api.webhook, req);
      (Api(pending, next, webhook, rest, api.log + [Call(req, resp)]), resp)
  }

  /** A call keeps the server's invariant. */
  lemma InvokeWf(api: Api, req: Request)
    requires Wf(api)
    ensures Wf(Invoke(api, req).0)
  {
  }

  predicate Increasing(s: seq<int>)
  {
    forall i, j :: 0 <= i < j < |s| ==> s[i] < s[j]
  }

  lemma {:induction false} KeepFromIncreasing(s: seq<int>, offset: int)
    requires Increasing(s)
    ensures Increasing(KeepFrom(s, offset))
  {
    if s != [] {
      KeepFromIncreasing(s[1..], offset);
      var rest := KeepFrom(s[1..], offset);
      forall k | 0 <= k < |rest| ensures s[0] < rest[k] {
        assert rest[k] in s[1..];
      }
    }
  }

  /** The queue stays in arrival order, which is id order: a batch fetch
      returns the oldest pending updates first. */
  lemma InvokeIncreasing(api: Api, req: Request)
    requires Wf(api) && Increasing(api.pending)
    ensures Increasing(Invoke(api, req).0.pending)
  {
    var q := Queued(api);
    assert Increasing(q) by {
      forall i, j | 0 <= i < j < |q| ensures q[i] < q[j] {
        if i < |api.pending| {
          assert q[i] in api.pending;
        }
      }
    }
    if req.GetUpdates? && req.offset.Some? {
      KeepFromIncreasing(q, req.offset.value);
    }
  }

  /** A call that raises confirms nothing and leaves the webhook alone. */
  lemma InvokeFailed(api: Api, req: Request)
    requires NextEvent(api).outcome.Raise?
    ensures var r := Invoke(api, req);
      && r.1 == Failed(NextEvent(api).outcome.fault)
      && api.pending <= r.0.pending
      && r.0.webhook == api.webhook
  {
  }

  /** Only deleteWebhook touches the webhook. */
  lemma InvokeWebhook(api: Api, req: Request)
    requires !req.DeleteWebhook?
    ensures Invoke(api, req).0.webhook == api.webhook
  {
  }

  /** deleteWebhook(drop_pending_updates=True) that succeeds empties the
      backlog and removes the webhook. */
  lemma InvokeDeleteWebhook(api: Api)
    ensures var r := Invoke(api, DeleteWebhook(true));
      !r.1.Failed? ==> r.1 == Done && r.0.pending == [] && !r.0.webhook
  {
  }

  /** getUpdates that succeeds answers with at most `limit` pending updates,
      oldest first, without confirming them; with an offset, every update
      below it is confirmed. */
  lemma InvokeGetUpdates(api: Api, offset: Option<int>, limit: nat)
    ensures var r := Invoke(api, GetUpdates(offset, limit));
      !r.1.Failed? ==>
        && r.1.Updates?
        && |r.1.ids| <= limit
        && r.1.ids <= r.0.pending
        && (offset.Some? ==> forall p :: p in r.0.pending ==> offset.value <= p)
        // without an offset the batch is empty exactly when the queue is
        && (offset.None? && limit > 0 ==> (r.1.ids == [] <==> r.0.pending == []))
  {
  }

  /** getWebhookInfo answers with the webhook flag; getMe with the bot. */
  lemma InvokeQueries(api: Api)
    ensures var r := Invoke(api, GetWebhookInfo);
      !r.1.Failed? ==> r.1 == Webhook(api.webhook)
    ensures var r := Invoke(api, GetMe);
      !r.1.Failed? ==> r.1 == Me
  {
  }

  /** `asyncio.sleep(seconds)`: logged, no call made. */
  function Pause(api: Api, seconds: nat): (r: Api)
    ensures r.log == api.log + [Sleep(seconds)]
    ensures r.pending == api.pending && r.nextId == api.nextId && r.webhook == api.webhook
    ensures r.events == api.events
  {
    api.(log := api.log + [Sleep(seconds)])
  }

  // ---------------------------------------------------------------------------
  // Replaying a history against the server

  /** One entry of a history made against the server: a call has to get the
      recorded answer, a sleep only waits. */
  function Apply(api: Api, e: Entry): Option<Api>
  {
    match e
    case Sleep(s) => Some(Pause(api, s))
    case Call(req, resp) =>
      var r := Invoke(api, req);
      if r.1 == resp then Some(r.0) else None
  }

  /** The server after the history `es`, made entry by entry from `api`, or
      None when some recorded answer is not the one the server gives. A
      procedure whose result is `Replay(api, trace)` made exactly the calls
      of `trace`, in order, and got exactly the answers it records. */
  function Replay(api: Api, es: seq<Entry>): (r: Option<Api>)
    ensures r.Some? ==> r.value.log == api.log + es
    decreases |es|
  {
    if es == [] then Some(api)
    else match Apply(api, es[0])
      case None => None
      case Some(next) =>
        assert api.log + es == (api.log + [es[0]]) + es[1..];
        Replay(next, es[1..])
  }

  /** A history made of two parts is replayed part after part. */
  lemma {:induction false} ReplayAppend(api: Api, a: seq<Entry>, b: seq<Entry>)
    ensures Replay(api, a + b) == match Replay(api, a) case None => None case Some(mid) => Replay(mid, b)
    decreases |a|
  {
    if a == [] {
      assert a + b == b;
    } else {
      assert (a + b)[0] == a[0];
      assert (a + b)[1..] == a[1..] + b;
      match Apply(api, a[0]) {
        case None =>
        case Some(next) => ReplayAppend(next, a[1..], b);
      }
    }
  }

  lemma ReplayThen(api: Api, a: seq<Entry>, mid: Api, b: seq<Entry>, out: Api)
    requires Replay(api, a) == Some(mid) && Replay(mid, b) == Some(out)
    ensures Replay(api, a + b) == Some(out)
  {
    ReplayAppend(api, a, b);
  }

  /** One more call, answered as the server answers it. */
  lemma ReplayCall(api: Api, es: seq<Entry>, mid: Api, req: Request)
    requires Replay(api, es) == Some(mid)
    ensures Replay(api, es + [Call(req, Invoke(mid, req).1)]) == Some(Invoke(mid, req).0)
  {
    var one := [Call(req, Invoke(mid, req).1)];
    assert Replay(Invoke(mid, req).0, one[1..]) == Some(Invoke(mid, req).0);
    ReplayThen(api, es, mid, one, Invoke(mid, req).0);
  }

  /** One more wait. */
  lemma ReplaySleep(api: Api, es: seq<Entry>, mid: Api, seconds: nat)
    requires Replay(api, es) == Some(mid)
    ensures Replay(api, es + [Sleep(seconds)]) == Some(Pause(mid, seconds))
  {
    var one := [Sleep(seconds)];
    assert Replay(Pause(mid, seconds), one[1..]) == Some(Pause(mid, seconds));
    ReplayThen(api, es, mid, one, Pause(mid, seconds));
  }

  /** A confirmed update stays confirmed whatever the server does next. */
  lemma StaysConfirmed(api: Api, req: Request, id: int)
    requires Confirmed(api, id) && id < api.nextId
    ensures Confirmed(Invoke(api, req).0, id) && id < Invoke(api, req).0.nextId
  {
  }

  /** A successful getUpdates with offset `id + 1` confirms update `id`. */
  lemma AcknowledgeConfirms(api: Api, id: int, limit: nat)
    ensures var r := Invoke(api, GetUpdates(Some(id + 1), limit));
      !r.1.Failed? ==> Confirmed(r.0, id)
  {
    InvokeGetUpdates(api, Some(id + 1), limit);
  }

  /** Dropping the backlog twice is the same as dropping it once: the second
      drop empties the queue again, whatever arrived in between. */
  lemma DeleteWebhookIdempotent(api: Api)
    requires NextEvent(api).outcome == Ok
    requires NextEvent(Invoke(api, DeleteWebhook(true)).0).outcome == Ok
    ensures var once := Invoke(api, DeleteWebhook(true)).0;
      var twice := Invoke(once, DeleteWebhook(true)).0;
      twice.pending == once.pending == [] && twice.webhook == once.webhook == false
  {
  }

  /** What a sequence of calls that never deletes the webhook preserves: the
      server's invariant, the webhook, and every confirmation. */
  ghost predicate Progress(a: Api, b: Api)
  {
    && Wf(b)
    && a.nextId <= b.nextId
    && b.webhook == a.webhook
    && forall x :: Confirmed(a, x) && x < a.nextId ==> Confirmed(b, x)
  }

  lemma InvokeProgress(api: Api, req: Request)
    requires Wf(api) && !req.DeleteWebhook?
    ensures Progress(api, Invoke(api, req).0)
  {
    InvokeWf(api, req);
    InvokeWebhook(api, req);
    forall x | Confirmed(api, x) && x < api.nextId ensures Confirmed(Invoke(api, req).0, x) {
      StaysConfirmed(api, req, x);
    }
  }

  lemma ProgressTransitive(a: Api, b: Api, c: Api)
    requires Progress(a, b) && Progress(b, c)
    ensures Progress(a, c)
  {
  }

  // ---------------------------------------------------------------------------
  // Acknowledging a batch one update at a time

  /** A follow-up fetch for one update and its answer. */
  datatype Ack = Ack(id: int, resp: Response)

  function AckIds(acks: seq<Ack>): (r: seq<int>)
    ensures |r| == |acks| && forall k :: 0 <= k < |acks| ==> r[k] == acks[k].id
  {
    seq(|acks|, k requires 0 <= k < |acks| => acks[k].id)
  }

  /** The calls `get_updates(offset=update.update_id + 1, limit=1)` made for
      the updates of a batch, in order. */
  function FollowUps(acks: seq<Ack>): (r: seq<Entry>)
    ensures |r| == |acks|
    ensures forall k :: 0 <= k < |acks| ==>
      r[k] == Call(GetUpdates(Some(acks[k].id + 1), 1), acks[k].resp)
  {
    seq(|acks|, k requires 0 <= k < |acks| => Call(GetUpdates(Some(acks[k].id + 1), 1), acks[k].resp))
  }

  /** How many follow-ups did not raise. */
  function Successes(acks: seq<Ack>): (n: nat)
    ensures n <= |acks|
  {
    if acks == [] then 0
    else Successes(acks[..|acks| - 1]) + (if acks[|acks| - 1].resp.Failed? then 0 else 1)
  }

  /** One more follow-up appended to the acknowledgements so far. */
  lemma AckSnoc(acks: seq<Ack>, a: Ack)
    ensures AckIds(acks + [a]) == AckIds(acks) + [a.id]
    ensures FollowUps(acks + [a]) == FollowUps(acks) + [Call(GetUpdates(Some(a.id + 1), 1), a.resp)]
    ensures Successes(acks + [a]) == Successes(acks) + (if a.resp.Failed? then 0 else 1)
  {
    assert (acks + [a])[..|acks|] == acks;
  }

  /** The loop invariant of Acknowledge after `i` updates. */
  ghost predicate AckInvariant(api: Api, batch: seq<int>, i: nat, out: Api, acks: seq<Ack>)
    requires i <= |batch|
  {
    && Progress(api, out)
    && AckIds(acks) == batch[..i]
    && out.log == api.log + FollowUps(acks)
    && Replay(api, FollowUps(acks)) == Some(out)
    && forall k :: 0 <= k < |acks| && !acks[k].resp.Failed? ==> Confirmed(out, acks[k].id)
  }

  /** One follow-up keeps the loop invariant of Acknowledge. */
  lemma AcknowledgeStep(api: Api, batch: seq<int>, i: nat, out: Api, acks: seq<Ack>)
    requires i < |batch|
    requires forall k :: 0 <= k < |batch| ==> batch[k] < api.nextId
    requires AckInvariant(api, batch, i, out, acks)
    ensures var r := Invoke(out, GetUpdates(Some(batch[i] + 1), 1));
      AckInvariant(api, batch, i + 1, r.0, acks + [Ack(batch[i], r.1)])
  {
    var req := GetUpdates(Some(batch[i] + 1), 1);
    var r := Invoke(out, req);
    var acks' := acks + [Ack(batch[i], r.1)];
    InvokeProgress(out, req);
    ProgressTransitive(api, out, r.0);
    AcknowledgeConfirms(out, batch[i], 1);
    AckSnoc(acks, Ack(batch[i], r.1));
    Assoc(api.log, FollowUps(acks), [Call(req, r.1)]);
    ReplayCall(api, FollowUps(acks), out, req);
    assert batch[..i + 1] == batch[..i] + [batch[i]];
    forall k | 0 <= k < |acks'| && !acks'[k].resp.Failed? ensures Confirmed(r.0, acks'[k].id) {
      if k < |acks| {
        assert acks'[k] == acks[k];
        assert AckIds(acks)[k] == batch[k];
      }
    }
  }

  /** `for update in updates: try: get_updates(offset=update_id + 1, limit=1)`:
      one follow-up per update, in order; `acked` counts those that did not
      raise (the others are swallowed), and each of those confirms its update
      for good. */
  method Acknowledge(api: Api, batch: seq<int>) returns (out: Api, acks: seq<Ack>, acked: nat)
    requires Wf(api)
    requires forall k :: 0 <= k < |batch| ==> batch[k] < api.nextId
    ensures Progress(api, out)
    ensures AckIds(acks) == batch
    ensures out.log == api.log + FollowUps(acks)
    ensures Replay(api, FollowUps(acks)) == Some(out)
    ensures acked == Successes(acks) && acked <= |batch|
    ensures forall k :: 0 <= k < |acks| && !acks[k].resp.Failed? ==> Confirmed(out, acks[k].id)
  {
    out := api;
    acks := [];
    acked := 0;
    for i := 0 to |batch|
      invariant |acks| == i && AckInvariant(api, batch, i, out, acks)
      invariant acked == Successes(acks)
    {
      var r := Invoke(out, GetUpdates(Some(batch[i] + 1), 1));
      AcknowledgeStep(api, batch, i, out, acks);
      AckSnoc(acks, Ack(batch[i], r.1));
      out := r.0;
      acks := acks + [Ack(batch[i], r.1)];
      if !r.1.Failed? {
        acked := acked + 1;
      }
    }
    assert batch[..|batch|] == batch;
  }

  // ---------------------------------------------------------------------------
  // Repeated batches: `for attempt in range(attempts)`

  /** One attempt: the batch fetch raised, or it returned a batch that was
      then acknowledged update by update. */
  datatype Round = Raised(fault: Fault) | Got(acks: seq<Ack>)

  /** The wait after an attempt that did not end the loop: always, except
      after the last attempt when `pauseAfterLast` is false. */
  function PauseAfter(attempt: nat, attempts: nat, pauseAfterLast: bool): seq<Entry>
  {
    if attempt + 1 < attempts || pauseAfterLast then [Sleep(2)] else []
  }

  /** The log of attempt number `attempt`. */
  function RoundTrace(attempt: nat, attempts: nat, limit: nat, pauseAfterLast: bool, round: Round): seq<Entry>
  {
    match round
    case Raised(f) =>
      [Call(GetUpdates(None, limit), Failed(f))] + PauseAfter(attempt, attempts, pauseAfterLast)
    case Got(acks) =>
      [Call(GetUpdates(None, limit), Updates(AckIds(acks)))]
        + (if acks == [] then [] else FollowUps(acks) + PauseAfter(attempt, attempts, pauseAfterLast))
  }

  /** The log of a sequence of attempts. */
  function Traces(rounds: seq<Round>, attempts: nat, limit: nat, pauseAfterLast: bool): seq<Entry>
  {
    if rounds == [] then []
    else
      Traces(rounds[..|rounds| - 1], attempts, limit, pauseAfterLast)
        + RoundTrace(|rounds| - 1, attempts, limit, pauseAfterLast, rounds[|rounds| - 1])
  }

  /** Follow-ups of one attempt that did not raise. */
  function RoundCleaned(round: Round): nat
  {
    match round
    case Raised(_) => 0
    case Got(acks) => Successes(acks)
  }

  /** Follow-ups that did not raise, over all attempts (`total_cleaned`). */
  function Cleaned(rounds: seq<Round>): nat
  {
    if rounds == [] then 0
    else
      Cleaned(rounds[..|rounds| - 1])
        + RoundCleaned(rounds[|rounds| - 1])
  }

  /** Updates returned by the batch fetches, over all attempts. */
  function Seen(rounds: seq<Round>): nat
  {
    if rounds == [] then 0
    else
      Seen(rounds[..|rounds| - 1])
        + (match rounds[|rounds| - 1] case Raised(_) => 0 case Got(acks) => |acks|)
  }

  lemma {:induction false} CleanedAtMostSeen(rounds: seq<Round>)
    ensures Cleaned(rounds) <= Seen(rounds)
  {
    if rounds != [] {
      CleanedAtMostSeen(rounds[..|rounds| - 1]);
    }
  }

  /** The updates of a batch whose follow-up did not raise. */
  function OkIds(acks: seq<Ack>): set<int>
  {
    set j | 0 <= j < |acks| && !acks[j].resp.Failed? :: acks[j].id
  }

  /** Every update some attempt acknowledged without an error. */
  function AckedIds(rounds: seq<Round>): set<int>
  {
    if rounds == [] then {}
    else
      AckedIds(rounds[..|rounds| - 1])
        + (match rounds[|rounds| - 1] case Raised(_) => {} case Got(acks) => OkIds(acks))
  }

  /** A batch fetch that succeeds returns at most `limit` updates the
      server has handed out. */
  lemma FetchedBelowNext(api: Api, limit: nat)
    requires Wf(api)
    ensures var r := Invoke(api, GetUpdates(None, limit));
      !r.1.Failed? ==>
        && r.1.Updates?
        && |r.1.ids| <= limit
        && forall k :: 0 <= k < |r.1.ids| ==> r.1.ids[k] < r.0.nextId
  {
    var r := Invoke(api, GetUpdates(None, limit));
    InvokeGetUpdates(api, None, limit);
    InvokeWf(api, GetUpdates(None, limit));
    if !r.1.Failed? {
      forall k | 0 <= k < |r.1.ids| ensures r.1.ids[k] < r.0.nextId {
        assert r.1.ids[k] == r.0.pending[k];
        assert r.0.pending[k] in r.0.pending;
      }
    }
  }

  /** One attempt of the loop body: a batch fetch, then either the error
      path, or the follow-ups and the wait, or nothing at all when the batch
      is empty. */
  method Attempt(api: Api, attempt: nat, attempts: nat, limit: nat, pauseAfterLast: bool)
    returns (out: Api, round: Round)
    requires Wf(api)
    ensures Progress(api, out)
    ensures Replay(api, RoundTrace(attempt, attempts, limit, pauseAfterLast, round)) == Some(out)
    ensures round.Got? ==> |round.acks| <= limit
    // an empty batch means the queue was empty, and the attempt ends there
    ensures round == Got([]) && limit > 0 ==> out.pending == []
    ensures AllConfirmed(AckedIds([round]), out)
  {
    var fetch := GetUpdates(None, limit);
    var r := Invoke(api, fetch);
    InvokeProgress(api, fetch);
    InvokeGetUpdates(api, None, limit);
    ReplayCall(api, [], api, fetch);
    var call := [Call(fetch, r.1)];
    assert [] + call == call;
    if r.1.Failed? {
      round := Raised(r.1.fault);
      ReplayRest(api, call, r.0, attempt, attempts, pauseAfterLast);
      out := Rest(r.0, attempt, attempts, pauseAfterLast);
      AckedIdsOne(round);
    } else {
      FetchedBelowNext(api, limit);
      var acks: seq<Ack>;
      var acked: nat;
      out, acks, acked := Acknowledge(r.0, r.1.ids);
      ProgressTransitive(api, r.0, out);
      round := Got(acks);
      ReplayGot(api, limit, r.0, acks, out, attempt, attempts, pauseAfterLast);
      GotConfirmed(r.1.ids, acks, out);
      if acks != [] {
        out := Rest(out, attempt, attempts, pauseAfterLast);
      }
    }
  }

  /** The wait after an attempt, as it leaves the server: only the log
      grows. */
  function Rest(api: Api, attempt: nat, attempts: nat, pauseAfterLast: bool): Api
  {
    if attempt + 1 < attempts || pauseAfterLast then Pause(api, 2) else api
  }

  lemma ReplayRest(api: Api, es: seq<Entry>, mid: Api, attempt: nat, attempts: nat, pauseAfterLast: bool)
    requires Replay(api, es) == Some(mid)
    ensures Replay(api, es + PauseAfter(attempt, attempts, pauseAfterLast))
         == Some(Rest(mid, attempt, attempts, pauseAfterLast))
  {
    if attempt + 1 < attempts || pauseAfterLast {
      ReplaySleep(api, es, mid, 2);
    } else {
      assert es + PauseAfter(attempt, attempts, pauseAfterLast) == es;
    }
  }

  /** The calls of an attempt whose batch came back: the fetch, the
      follow-ups, and the wait when there were any. */
  lemma ReplayGot(api: Api, limit: nat, mid: Api, acks: seq<Ack>, out: Api, attempt: nat, attempts: nat, pauseAfterLast: bool)
    requires Replay(api, [Call(GetUpdates(None, limit), Updates(AckIds(acks)))]) == Some(mid)
    requires Replay(mid, FollowUps(acks)) == Some(out)
    ensures Replay(api, RoundTrace(attempt, attempts, limit, pauseAfterLast, Got(acks)))
         == Some(if acks == [] then out else Rest(out, attempt, attempts, pauseAfterLast))
  {
    var call := [Call(GetUpdates(None, limit), Updates(AckIds(acks)))];
    ReplayThen(api, call, mid, FollowUps(acks), out);
    if acks == [] {
      assert call + FollowUps(acks) == call;
    } else {
      ReplayRest(api, call + FollowUps(acks), out, attempt, attempts, pauseAfterLast);
      Assoc(call, FollowUps(acks), PauseAfter(attempt, attempts, pauseAfterLast));
    }
  }

  /** The updates a batch's follow-ups acknowledged stay confirmed. */
  lemma GotConfirmed(ids: seq<int>, acks: seq<Ack>, out: Api)
    requires AckIds(acks) == ids
    requires forall k :: 0 <= k < |ids| ==> ids[k] < out.nextId
    requires forall k :: 0 <= k < |acks| && !acks[k].resp.Failed? ==> Confirmed(out, acks[k].id)
    ensures AllConfirmed(AckedIds([Got(acks)]), out)
  {
    forall k | 0 <= k < |acks| ensures acks[k].id < out.nextId {
      assert AckIds(acks)[k] == ids[k];
    }
    OkIdsConfirmed(acks, out);
    AckedIdsOne(Got(acks));
  }

  lemma AckedIdsOne(round: Round)
    ensures AckedIds([round]) == match round case Raised(_) => {} case Got(acks) => OkIds(acks)
  {
    assert [round][..0] == [];
  }

  lemma OkIdsConfirmed(acks: seq<Ack>, out: Api)
    requires forall k :: 0 <= k < |acks| ==> acks[k].id < out.nextId
    requires forall k :: 0 <= k < |acks| && !acks[k].resp.Failed? ==> Confirmed(out, acks[k].id)
    ensures AllConfirmed(OkIds(acks), out)
  {
  }

  /** Every update of `ids` is confirmed on the server `api`. */
  ghost predicate AllConfirmed(ids: set<int>, api: Api)
  {
    forall id :: id in ids ==> Confirmed(api, id) && id < api.nextId
  }

  lemma AllConfirmedKeep(ids: set<int>, a: Api, b: Api)
    requires AllConfirmed(ids, a) && Progress(a, b)
    ensures AllConfirmed(ids, b)
  {
  }

  lemma AllConfirmedStep(a: set<int>, b: set<int>, out: Api, next: Api)
    requires AllConfirmed(a, out) && Progress(out, next) && AllConfirmed(b, next)
    ensures AllConfirmed(a + b, next)
  {
  }

  /** No attempt so far returned an empty batch, and no batch exceeded
      `limit`. */
  predicate Busy(rounds: seq<Round>, limit: nat)
  {
    forall k :: 0 <= k < |rounds| ==> rounds[k] != Got([]) && (rounds[k].Got? ==> |rounds[k].acks| <= limit)
  }

  /** Up to `attempts` batch fetches of at most `limit` updates; a fetch that
      returns nothing ends the loop, a fetch that raises is reported and the
      loop goes on. The fetch itself uses no offset, so it confirms nothing;
      only the follow-ups do, and every update they acknowledged is still
      confirmed at the end. */
  method DrainRounds(api: Api, attempts: nat, limit: nat, pauseAfterLast: bool)
    returns (out: Api, rounds: seq<Round>, cleaned: nat)
    requires Wf(api)
    ensures Progress(api, out)
    ensures |rounds| <= attempts && (attempts > 0 ==> |rounds| >= 1)
    // only the last attempt can return an empty batch, and one that does ends the loop
    ensures rounds == [] || Busy(rounds[..|rounds| - 1], limit)
    ensures |rounds| < attempts ==> rounds[|rounds| - 1] == Got([])
    ensures forall k :: 0 <= k < |rounds| && rounds[k].Got? ==> |rounds[k].acks| <= limit
    ensures Replay(api, Traces(rounds, attempts, limit, pauseAfterLast)) == Some(out)
    // a drain that ended on an empty batch left the queue empty
    ensures limit > 0 && rounds != [] && rounds[|rounds| - 1] == Got([]) ==> out.pending == []
    ensures cleaned == Cleaned(rounds) && cleaned <= Seen(rounds)
    ensures AllConfirmed(AckedIds(rounds), out)
  {
    out := api;
    rounds := [];
    cleaned := 0;
    for attempt := 0 to attempts
      invariant |rounds| == attempt && Busy(rounds, limit)
      invariant Progress(api, out)
      invariant Replay(api, Traces(rounds, attempts, limit, pauseAfterLast)) == Some(out)
      invariant cleaned == Cleaned(rounds)
      invariant AllConfirmed(AckedIds(rounds), out)
    {
      var next, round := Attempt(out, attempt, attempts, limit, pauseAfterLast);
      DrainStep(api, attempts, limit, pauseAfterLast, out, rounds, cleaned, next, round);
      out := next;
      cleaned := cleaned + RoundCleaned(round);
      if round == Got([]) {
        BusyStop(rounds, limit);
        rounds := rounds + [round];
        break;
      }
      rounds := rounds + [round];
    }
    BusyPrefix(rounds, limit);
    CleanedAtMostSeen(rounds);
  }

  /** A run of busy attempts: its batches keep to the limit, and so does
      every shorter run. */
  lemma BusyPrefix(rounds: seq<Round>, limit: nat)
    ensures Busy(rounds, limit) ==>
      && (rounds == [] || Busy(rounds[..|rounds| - 1], limit))
      && forall k :: 0 <= k < |rounds| && rounds[k].Got? ==> |rounds[k].acks| <= limit
  {
  }

  /** Busy attempts followed by one that found the queue empty. */
  lemma BusyStop(rounds: seq<Round>, limit: nat)
    requires Busy(rounds, limit)
    ensures var more := rounds + [Got([])];
      && Busy(more[..|more| - 1], limit)
      && forall k :: 0 <= k < |more| && more[k].Got? ==> |more[k].acks| <= limit
  {
    var more := rounds + [Got([])];
    assert more[..|more| - 1] == rounds;
  }

  /** One more attempt keeps the loop invariant of DrainRounds. */
  lemma DrainStep(api: Api, attempts: nat, limit: nat, pauseAfterLast: bool,
                  out: Api, rounds: seq<Round>, cleaned: nat, next: Api, round: Round)
    requires Progress(api, out)
    requires Replay(api, Traces(rounds, attempts, limit, pauseAfterLast)) == Some(out)
    requires cleaned == Cleaned(rounds)
    requires AllConfirmed(AckedIds(rounds), out)
    requires Progress(out, next)
    requires Replay(out, RoundTrace(|rounds|, attempts, limit, pauseAfterLast, round)) == Some(next)
    requires AllConfirmed(AckedIds([round]), next)
    requires Busy(rounds, limit) && (round.Got? ==> |round.acks| <= limit)
    ensures var more := rounds + [round];
      && Progress(api, next)
      && Replay(api, Traces(more, attempts, limit, pauseAfterLast)) == Some(next)
      && cleaned + RoundCleaned(round) == Cleaned(more)
      && AllConfirmed(AckedIds(more), next)
    ensures round != Got([]) ==> Busy(rounds + [round], limit)
  {
    ProgressTransitive(api, out, next);
    RoundsStep(rounds, round, attempts, limit, pauseAfterLast);
    AllConfirmedStep(AckedIds(rounds), AckedIds([round]), out, next);
    ReplayThen(api, Traces(rounds, attempts, limit, pauseAfterLast), out,
      RoundTrace(|rounds|, attempts, limit, pauseAfterLast, round), next);
    var more := rounds + [round];
    if round != Got([]) {
      forall k | 0 <= k < |more| ensures more[k] != Got([]) && (more[k].Got? ==> |more[k].acks| <= limit) {
        if k < |rounds| {
          assert more[k] == rounds[k];
        }
      }
    }
  }

  /** How the summaries grow when one attempt is added. */
  lemma RoundsStep(rounds: seq<Round>, round: Round, attempts: nat, limit: nat, pauseAfterLast: bool)
    ensures var more := rounds + [round];
      && more[..|rounds|] == rounds
      && Traces(more, attempts, limit, pauseAfterLast)
         == Traces(rounds, attempts, limit, pauseAfterLast) + RoundTrace(|rounds|, attempts, limit, pauseAfterLast, round)
      && Cleaned(more) == Cleaned(rounds) + RoundCleaned(round)
      && AckedIds(more) == AckedIds(rounds) + AckedIds([round])
  {
    assert (rounds + [round])[..|rounds|] == rounds;
    assert [round][..0] == [];
  }
}
