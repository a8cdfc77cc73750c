/**
 * limpar_updates.py: a one-shot script that fetches the pending updates and,
 * when there are any, confirms all of them at once with an offset one past
 * the last id; the client is closed whatever happened.
 */
module LimparUpdates {
  import opened Common
  import opened Feed

  /** `get_updates()` without arguments asks for at most 100 updates. */
  const DefaultLimit := 100

  /** What the script's calls answered: the batch, the confirming call (made
      only after a non-empty batch) and close. */
  datatype LimparRun = LimparRun(batch: Response, clear: Response, close: Response)

  /** Whether the script goes on to the confirming call. */
  predicate Clears(run: LimparRun)
  {
    run.batch.Updates? && run.batch.ids != []
  }

  function LastId(run: LimparRun): int
    requires Clears(run)
  {
    run.batch.ids[|run.batch.ids| - 1]
  }

  function LimparTrace(run: LimparRun): seq<Entry>
  {
    var fetch := [Call(GetUpdates(None, DefaultLimit), run.batch)];
    var clear := if Clears(run) then [Call(GetUpdates(Some(LastId(run) + 1), DefaultLimit), run.clear)] else [];
    fetch + clear + [Call(Close, run.close)]
  }

  /** With the queue in id order, a batch fetched without offset is in id
      order too, so its last id is its largest. */
  lemma BatchOrdered(a: Api)
    requires Wf(a) && Increasing(a.pending)
    ensures var b := Invoke(a, GetUpdates(None, DefaultLimit));
      b.1.Updates? && b.1.ids != [] ==>
        forall k :: 0 <= k < |b.1.ids| ==> b.1.ids[k] <= b.1.ids[|b.1.ids| - 1]
  {
    var b := Invoke(a, GetUpdates(None, DefaultLimit));
    InvokeIncreasing(a, GetUpdates(None, DefaultLimit));
    InvokeGetUpdates(a, None, DefaultLimit);
    if b.1.Updates? && b.1.ids != [] {
      var ids := b.1.ids;
      forall k | 0 <= k < |ids| ensures ids[k] <= ids[|ids| - 1] {
        assert ids[k] == b.0.pending[k] && ids[|ids| - 1] == b.0.pending[|ids| - 1];
      }
    }
  }

  /** The confirming call with offset `last + 1` followed by close: when the
      confirming call succeeds, every update up to `last` stays confirmed. */
  lemma ClearConfirms(a: Api, ids: seq<int>, last: int)
    requires Wf(a) && last < a.nextId
    requires forall k :: 0 <= k < |ids| ==> ids[k] <= last
    ensures var c := Invoke(a, GetUpdates(Some(last + 1), DefaultLimit));
      var z := Invoke(c.0, Close);
      !c.1.Failed? ==> forall k :: 0 <= k < |ids| ==> Confirmed(z.0, ids[k])
  {
    var c := Invoke(a, GetUpdates(Some(last + 1), DefaultLimit));
    if !c.1.Failed? {
      AcknowledgeConfirms(a, last, DefaultLimit);
      forall k | 0 <= k < |ids| ensures Confirmed(Invoke(c.0, Close).0, ids[k]) {
        assert Confirmed(c.0, ids[k]);
        StaysConfirmed(c.0, Close, ids[k]);
      }
    }
  }

  /** The server after the script and what its calls answered. */
  datatype Cleared = Cleared(api: Api, run: LimparRun)

  /** limpar_updates: one batch fetch; after a non-empty batch one more fetch
      with offset last id + 1; close in `finally`. Without a token there is
      no client and no call. */
  function Limpar(hasToken: bool, api: Api): Cleared
  {
    if !hasToken then Cleared(api, LimparRun(Updates([]), Done, Done))
    else
      var b := Invoke(api, GetUpdates(None, DefaultLimit));
      var c :=
        if b.1.Updates? && b.1.ids != []
        then Invoke(b.0, GetUpdates(Some(b.1.ids[|b.1.ids| - 1] + 1), DefaultLimit))
        else (b.0, Done);
      var z := Invoke(c.0, Close);
      Cleared(z.0, LimparRun(b.1, c.1, z.1))
  }

  /** Exactly the calls of LimparTrace were made, with those answers:
      one confirming fetch after a non-empty batch, none after an empty or
      failed one, and close last on every path; without a token, none at
      all. */
  lemma LimparCalls(hasToken: bool, api: Api)
    requires Wf(api)
    ensures var r := Limpar(hasToken, api);
      && Wf(r.api)
      && (!hasToken ==> r.api == api)
      && (hasToken ==> Replay(api, LimparTrace(r.run)) == Some(r.api))
      && (hasToken && !r.run.batch.Failed? ==> r.run.batch.Updates? && |r.run.batch.ids| <= DefaultLimit)
  {
    if hasToken {
      var b := Invoke(api, GetUpdates(None, DefaultLimit));
      InvokeGetUpdates(api, None, DefaultLimit);
      InvokeWf(api, GetUpdates(None, DefaultLimit));
      var c :=
        if b.1.Updates? && b.1.ids != []
        then Invoke(b.0, GetUpdates(Some(b.1.ids[|b.1.ids| - 1] + 1), DefaultLimit))
        else (b.0, Done);
      if b.1.Updates? && b.1.ids != [] {
        InvokeWf(b.0, GetUpdates(Some(b.1.ids[|b.1.ids| - 1] + 1), DefaultLimit));
      }
      InvokeWf(c.0, Close);
      LimparReplay(api);
    }
  }

  /** The calls of one run with a token replay as LimparTrace. */
  lemma LimparReplay(api: Api)
    ensures var r := Limpar(true, api);
      Replay(api, LimparTrace(r.run)) == Some(r.api)
  {
    var b := Invoke(api, GetUpdates(None, DefaultLimit));
    ReplayCall(api, [], api, GetUpdates(None, DefaultLimit));
    var fetch := [Call(GetUpdates(None, DefaultLimit), b.1)];
    assert [] + fetch == fetch;
    if b.1.Updates? && b.1.ids != [] {
      var last := b.1.ids[|b.1.ids| - 1];
      var c := Invoke(b.0, GetUpdates(Some(last + 1), DefaultLimit));
      var z := Invoke(c.0, Close);
      assert Limpar(true, api) == Cleared(z.0, LimparRun(b.1, c.1, z.1));
      ReplayCall(api, fetch, b.0, GetUpdates(Some(last + 1), DefaultLimit));
      ReplayCall(api, fetch + [Call(GetUpdates(Some(last + 1), DefaultLimit), c.1)], c.0, Close);
    } else {
      var z := Invoke(b.0, Close);
      var run := LimparRun(b.1, Done, z.1);
      assert Limpar(true, api) == Cleared(z.0, run);
      ReplayCall(api, fetch, b.0, Close);
      assert LimparTrace(run) == fetch + [Call(Close, z.1)];
    }
  }

  /** A confirming fetch that succeeds confirms the last update of the batch
      and, with the queue in id order, every update of the batch. */
  lemma LimparConfirms(api: Api)
    requires Wf(api)
    ensures var r := Limpar(true, api);
      Clears(r.run) && !r.run.clear.Failed? ==>
        && Confirmed(r.api, LastId(r.run))
        && (Increasing(api.pending) ==> forall k :: 0 <= k < |r.run.batch.ids| ==> Confirmed(r.api, r.run.batch.ids[k]))
  {
    var b := Invoke(api, GetUpdates(None, DefaultLimit));
    FetchedBelowNext(api, DefaultLimit);
    InvokeWf(api, GetUpdates(None, DefaultLimit));
    if b.1.Updates? && b.1.ids != [] {
      var last := b.1.ids[|b.1.ids| - 1];
      if Increasing(api.pending) {
        BatchOrdered(api);
        ClearConfirms(b.0, b.1.ids, last);
      }
      ClearConfirms(b.0, [last], last);
    }
  }
}
