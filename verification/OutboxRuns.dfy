/**
 * Any number of dispatchers on one outbox: claims, publications, marks, crashes and stale
 * requeues in every interleaving.
 */
module OutboxRuns {
  import opened Common
  import opened Outbox

  /** One claimed event in some dispatcher's hands; deliveries are never forgotten, only done. */
  datatype Delivery = Delivery(id: Id, attempts: nat, called: bool, ok: bool, done: bool)

  datatype Sys = Sys(events: map<Id, Event>, deliveries: seq<Delivery>, now: int)

  datatype Step =
    | Tick(seconds: nat)
    | Enqueue(id: Id)
    | Claim(size: nat, locked: set<Id>, batch: seq<Id>)
    | Publish(k: nat, ok: bool)
    | Mark(k: nat)
    | Crash(k: nat)
    | Requeue(age: nat)

  function Claimed(es: map<Id, Event>, batch: seq<Id>): seq<Delivery>
    requires forall id :: id in batch ==> id in es
  {
    seq(|batch|, i requires 0 <= i < |batch| => (assert batch[i] in batch; Delivery(batch[i], es[batch[i]].attempts + 1, false, false, false)))
  }

  ghost predicate Answers(s: Sys, maxAttempts: nat, size: nat, locked: set<Id>, batch: seq<Id>) {
    FirstRows(s.events, Eligible(s.events, s.now, maxAttempts, locked), size, batch)
  }

  ghost function Apply(maxAttempts: nat, s: Sys, step: Step): Sys {
    match step
    case Tick(seconds) => s.(now := s.now + seconds)
    case Enqueue(id) => if id in s.events then s else s.(events := s.events[id := Event(Pending, 0, s.now, s.now)])
    case Claim(size, locked, batch) =>
      if Answers(s, maxAttempts, size, locked, batch)
      then s.(events := ClaimRows(s.events, batch, s.now), deliveries := s.deliveries + Claimed(s.events, batch))
      else s
    case Publish(k, ok) =>
      if k < |s.deliveries| && !s.deliveries[k].called && !s.deliveries[k].done
      then s.(deliveries := s.deliveries[k := s.deliveries[k].(called := true, ok := ok)])
      else s
    case Mark(k) =>
      if k < |s.deliveries| && s.deliveries[k].called && !s.deliveries[k].done then
        var d := s.deliveries[k];
        s.(events := if d.ok then MarkPublishedRow(s.events, d.id) else MarkFailedRow(s.events, d.id, d.attempts, s.now),
           deliveries := s.deliveries[k := d.(done := true)])
      else s
    case Crash(k) =>
      if k < |s.deliveries| then s.(deliveries := s.deliveries[k := s.deliveries[k].(done := true)]) else s
    case Requeue(age) => s.(events := RequeueRows(s.events, s.now - age, s.now))
  }

  ghost function Run(maxAttempts: nat, s: Sys, steps: seq<Step>): Sys {
    Fold((t: Sys, step: Step) => Apply(maxAttempts, t, step), s, steps)
  }

  const EMPTY := Sys(map[], [], 0)

  /** How often an event was claimed. */
  function Claims(ds: seq<Delivery>, id: Id): nat {
    if ds == [] then 0 else Claims(ds[..|ds| - 1], id) + (if ds[|ds| - 1].id == id then 1 else 0)
  }

  /** How often an event was handed to the broker. */
  function Calls(ds: seq<Delivery>, id: Id): nat {
    if ds == [] then 0
    else Calls(ds[..|ds| - 1], id) + (if ds[|ds| - 1].id == id && ds[|ds| - 1].called then 1 else 0)
  }

  ghost predicate Delivered(ds: seq<Delivery>, id: Id) {
    exists k :: 0 <= k < |ds| && ds[k].id == id && ds[k].called && ds[k].ok
  }

  lemma {:induction false} CallsWithinClaims(ds: seq<Delivery>, id: Id)
    ensures Calls(ds, id) <= Claims(ds, id)
  {
    if ds != [] {
      CallsWithinClaims(ds[..|ds| - 1], id);
    }
  }

  lemma {:induction false} ClaimsUpdate(ds: seq<Delivery>, k: nat, d: Delivery, id: Id)
    requires k < |ds| && d.id == ds[k].id
    ensures Claims(ds[k := d], id) == Claims(ds, id)
  {
    var n := |ds| - 1;
    if k < n {
      ClaimsUpdate(ds[..n], k, d, id);
      assert ds[k := d][..n] == ds[..n][k := d];
    } else {
      assert ds[k := d][..n] == ds[..n];
    }
  }

  lemma {:induction false} ClaimsConcat(a: seq<Delivery>, b: seq<Delivery>, id: Id)
    ensures Claims(a + b, id) == Claims(a, id) + Claims(b, id)
  {
    if b == [] {
      assert a + b == a;
    } else {
      ClaimsConcat(a, b[..|b| - 1], id);
      assert (a + b)[..|a + b| - 1] == a + b[..|b| - 1];
    }
  }

  lemma {:induction false} ClaimsOfBatch(es: map<Id, Event>, batch: seq<Id>, id: Id)
    requires Distinct(batch) && forall x :: x in batch ==> x in es
    ensures Claims(Claimed(es, batch), id) == if id in batch then 1 else 0
  {
    if batch != [] {
      var init := batch[..|batch| - 1];
      assert forall x :: x in init ==> x in batch;
      ClaimsOfBatch(es, init, id);
      assert Claimed(es, batch)[..|batch| - 1] == Claimed(es, init);
      assert batch == init + [batch[|batch| - 1]];
      if id == batch[|batch| - 1] {
        assert id !in init;
      }
    }
  }

  // ---- what every run keeps ----

  /** The attempts column counts claims and never passes the limit; a published event was delivered. */
  ghost predicate EventOk(maxAttempts: nat, s: Sys, id: Id)
    requires id in s.events
  {
    && s.events[id].attempts == Claims(s.deliveries, id) <= maxAttempts
    && (s.events[id].status == Published ==> Delivered(s.deliveries, id))
  }

  ghost predicate SysOk(maxAttempts: nat, s: Sys) {
    && (forall id :: id in s.events ==> EventOk(maxAttempts, s, id))
    && (forall k :: 0 <= k < |s.deliveries| ==> s.deliveries[k].id in s.events)
  }

  lemma {:induction false} NoDeliveries(ds: seq<Delivery>, id: Id)
    requires forall k :: 0 <= k < |ds| ==> ds[k].id != id
    ensures Claims(ds, id) == 0
  {
    if ds != [] {
      NoDeliveries(ds[..|ds| - 1], id);
    }
  }

  lemma BatchDistinct(es: map<Id, Event>, rows: set<Id>, size: nat, batch: seq<Id>)
    requires (forall id :: id in rows ==> id in es) && FirstRows(es, rows, size, batch)
    ensures Distinct(batch)
  {
  }

  lemma DeliveredStays(ds: seq<Delivery>, more: seq<Delivery>, id: Id)
    requires Delivered(ds, id)
    ensures Delivered(ds + more, id)
  {
    var k :| 0 <= k < |ds| && ds[k].id == id && ds[k].called && ds[k].ok;
    assert (ds + more)[k] == ds[k];
  }

  lemma ClaimOk(maxAttempts: nat, s: Sys, size: nat, locked: set<Id>, batch: seq<Id>, id: Id)
    requires SysOk(maxAttempts, s) && Answers(s, maxAttempts, size, locked, batch) && id in s.events
    ensures EventOk(maxAttempts, Apply(maxAttempts, s, Claim(size, locked, batch)), id)
  {
    var rows := Eligible(s.events, s.now, maxAttempts, locked);
    BatchDistinct(s.events, rows, size, batch);
    ClaimsConcat(s.deliveries, Claimed(s.events, batch), id);
    ClaimsOfBatch(s.events, batch, id);
    if s.events[id].status == Published {
      DeliveredStays(s.deliveries, Claimed(s.events, batch), id);
    }
  }

  /** Changing what a delivery has done so far, never its event nor a success already had. */
  predicate Advances(d: Delivery, d': Delivery) {
    d'.id == d.id && (d.called && d.ok ==> d'.called && d'.ok)
  }

  lemma UpdateOk(ds: seq<Delivery>, k: nat, d: Delivery, id: Id)
    requires k < |ds| && Advances(ds[k], d)
    ensures Claims(ds[k := d], id) == Claims(ds, id)
    ensures Delivered(ds, id) ==> Delivered(ds[k := d], id)
  {
    ClaimsUpdate(ds, k, d, id);
    if Delivered(ds, id) {
      var i :| 0 <= i < |ds| && ds[i].id == id && ds[i].called && ds[i].ok;
      assert ds[k := d][i] == if i == k then d else ds[i];
    }
  }

  lemma DeliveryStepOk(maxAttempts: nat, s: Sys, step: Step)
    requires SysOk(maxAttempts, s) && (step.Publish? || step.Mark? || step.Crash?) && step.k < |s.deliveries|
    ensures SysOk(maxAttempts, Apply(maxAttempts, s, step))
  {
    var s' := Apply(maxAttempts, s, step);
    assert Advances(s.deliveries[step.k], s'.deliveries[step.k]);
    assert s'.deliveries == s.deliveries[step.k := s'.deliveries[step.k]];
    forall id | id in s'.events
      ensures EventOk(maxAttempts, s', id)
    {
      UpdateOk(s.deliveries, step.k, s'.deliveries[step.k], id);
      if s'.events[id].status == Published && s.events[id].status != Published {
        assert s'.deliveries[step.k].id == id;
      }
    }
  }

  lemma StepOk(maxAttempts: nat, s: Sys, step: Step)
    requires SysOk(maxAttempts, s)
    ensures SysOk(maxAttempts, Apply(maxAttempts, s, step))
  {
    var s' := Apply(maxAttempts, s, step);
    match step
    case Claim(size, locked, batch) =>
      if Answers(s, maxAttempts, size, locked, batch) {
        forall id | id in s'.events
          ensures EventOk(maxAttempts, s', id)
        {
          ClaimOk(maxAttempts, s, size, locked, batch, id);
        }
        forall k | 0 <= k < |s'.deliveries|
          ensures s'.deliveries[k].id in s'.events
        {
          if k >= |s.deliveries| {
            assert s'.deliveries[k].id == batch[k - |s.deliveries|] && batch[k - |s.deliveries|] in batch;
          }
        }
      }
    case Publish(k, _) =>
      if k < |s.deliveries| {
        DeliveryStepOk(maxAttempts, s, step);
      }
    case Mark(k) =>
      if k < |s.deliveries| {
        DeliveryStepOk(maxAttempts, s, step);
      }
    case Crash(k) =>
      if k < |s.deliveries| {
        DeliveryStepOk(maxAttempts, s, step);
      }
    case Enqueue(id) =>
      if id !in s.events {
        NoDeliveries(s.deliveries, id);
        assert forall x :: x in s.events ==> EventOk(maxAttempts, s, x);
      }
    case Tick(_) =>
      assert forall x :: x in s.events ==> EventOk(maxAttempts, s, x);
    case Requeue(_) =>
      assert forall x :: x in s.events ==> EventOk(maxAttempts, s, x);
  }

  lemma {:induction false} RunOk(maxAttempts: nat, s: Sys, steps: seq<Step>)
    requires SysOk(maxAttempts, s)
    ensures SysOk(maxAttempts, Run(maxAttempts, s, steps))
  {
    if steps != [] {
      RunOk(maxAttempts, s, steps[..|steps| - 1]);
      StepOk(maxAttempts, Run(maxAttempts, s, steps[..|steps| - 1]), steps[|steps| - 1]);
    }
  }

  /** Over every run, an event is handed to the broker at most once per claim, and claims never pass the limit. */
  lemma PublicationsAreBounded(maxAttempts: nat, steps: seq<Step>, id: Id)
    requires id in Run(maxAttempts, EMPTY, steps).events
    ensures var s := Run(maxAttempts, EMPTY, steps);
      Calls(s.deliveries, id) <= Claims(s.deliveries, id) == s.events[id].attempts <= maxAttempts
  {
    RunOk(maxAttempts, EMPTY, steps);
    assert EventOk(maxAttempts, Run(maxAttempts, EMPTY, steps), id);
    CallsWithinClaims(Run(maxAttempts, EMPTY, steps).deliveries, id);
  }

  // ---- rows over time ----

  /** Rows are never removed, attempts never fall, a published row never changes. */
  ghost predicate Evolves(s: Sys, t: Sys) {
    forall id :: id in s.events ==>
      && id in t.events && s.events[id].attempts <= t.events[id].attempts
      && (s.events[id].status == Published ==> t.events[id] == s.events[id])
  }

  lemma StepEvolves(maxAttempts: nat, s: Sys, step: Step)
    ensures Evolves(s, Apply(maxAttempts, s, step))
  {
  }

  lemma {:induction false} RunEvolves(maxAttempts: nat, s: Sys, steps: seq<Step>)
    ensures Evolves(s, Run(maxAttempts, s, steps))
  {
    if steps != [] {
      var t := Run(maxAttempts, s, steps[..|steps| - 1]);
      RunEvolves(maxAttempts, s, steps[..|steps| - 1]);
      StepEvolves(maxAttempts, t, steps[|steps| - 1]);
    }
  }

  lemma RunConcat(maxAttempts: nat, s: Sys, a: seq<Step>, b: seq<Step>)
    ensures Run(maxAttempts, Run(maxAttempts, s, a), b) == Run(maxAttempts, s, a + b)
  {
    FoldConcat((t: Sys, step: Step) => Apply(maxAttempts, t, step), s, a, b);
  }

  lemma RunOne(maxAttempts: nat, s: Sys, step: Step)
    ensures Run(maxAttempts, s, [step]) == Apply(maxAttempts, s, step)
  {
    var f := (t: Sys, e: Step) => Apply(maxAttempts, t, e);
    FoldStep(f, s, [], step);
    assert [] + [step] == [step];
  }

  /** A published event was delivered at least once, and its row is the same in every later state. */
  lemma PublishedIsFinal(maxAttempts: nat, steps: seq<Step>, more: seq<Step>, id: Id)
    requires id in Run(maxAttempts, EMPTY, steps).events
    requires Run(maxAttempts, EMPTY, steps).events[id].status == Published
    ensures Delivered(Run(maxAttempts, EMPTY, steps).deliveries, id)
    ensures var t := Run(maxAttempts, EMPTY, steps + more);
      id in t.events && t.events[id] == Run(maxAttempts, EMPTY, steps).events[id]
  {
    var s := Run(maxAttempts, EMPTY, steps);
    RunOk(maxAttempts, EMPTY, steps);
    assert EventOk(maxAttempts, s, id);
    RunEvolves(maxAttempts, s, more);
    RunConcat(maxAttempts, EMPTY, steps, more);
  }

  // ---- when a row changes hands ----

  /** The step settles the event: a delivery that published it reports so while it is publishing. */
  ghost predicate Settles(s: Sys, step: Step, id: Id) {
    && step.Mark? && step.k < |s.deliveries|
    && var d := s.deliveries[step.k];
       d.id == id && d.called && d.ok && !d.done && id in s.events && s.events[id].status == Publishing
  }

  lemma StepPublishes(maxAttempts: nat, s: Sys, step: Step, id: Id)
    requires id in Apply(maxAttempts, s, step).events
    ensures Apply(maxAttempts, s, step).events[id].status == Published
       <==> (id in s.events && s.events[id].status == Published) || Settles(s, step, id)
  {
  }

  /** Some step of the run settled the event. */
  ghost predicate Reported(maxAttempts: nat, steps: seq<Step>, id: Id) {
    steps != [] && (Settles(Run(maxAttempts, EMPTY, steps[..|steps| - 1]), steps[|steps| - 1], id)
                    || Reported(maxAttempts, steps[..|steps| - 1], id))
  }

  lemma {:induction false} SettledIsThere(maxAttempts: nat, steps: seq<Step>, id: Id)
    requires Reported(maxAttempts, steps, id)
    ensures id in Run(maxAttempts, EMPTY, steps).events
  {
    var init := steps[..|steps| - 1];
    StepEvolves(maxAttempts, Run(maxAttempts, EMPTY, init), steps[|steps| - 1]);
    if !Settles(Run(maxAttempts, EMPTY, init), steps[|steps| - 1], id) {
      SettledIsThere(maxAttempts, init, id);
    }
  }

  /**
   * In every run an event is published if and only if some dispatcher that had published it
   * reported so while the row was publishing: no report is lost, and nothing else publishes.
   */
  lemma {:induction false} PublishedExactlyWhenReported(maxAttempts: nat, steps: seq<Step>, id: Id)
    requires id in Run(maxAttempts, EMPTY, steps).events
    ensures Run(maxAttempts, EMPTY, steps).events[id].status == Published <==> Reported(maxAttempts, steps, id)
  {
    if steps != [] {
      var init, last := steps[..|steps| - 1], steps[|steps| - 1];
      var s := Run(maxAttempts, EMPTY, init);
      StepPublishes(maxAttempts, s, last, id);
      if id in s.events {
        PublishedExactlyWhenReported(maxAttempts, init, id);
      } else if Reported(maxAttempts, init, id) {
        SettledIsThere(maxAttempts, init, id);
      }
    }
  }

  lemma TimeMoves(maxAttempts: nat, s: Sys, step: Step)
    ensures s.now <= Apply(maxAttempts, s, step).now
  {
  }

  /** A failed event is left alone by everyone until its back-off is over. */
  lemma {:induction false} BackoffIsKept(maxAttempts: nat, s: Sys, more: seq<Step>, id: Id)
    requires id in s.events && s.events[id].status == Failed
    requires Run(maxAttempts, s, more).now < s.events[id].available
    ensures id in Run(maxAttempts, s, more).events && Run(maxAttempts, s, more).events[id] == s.events[id]
  {
    if more != [] {
      var t := Run(maxAttempts, s, more[..|more| - 1]);
      TimeMoves(maxAttempts, t, more[|more| - 1]);
      BackoffIsKept(maxAttempts, s, more[..|more| - 1], id);
    }
  }

  /** No delivery of the event reports, and nobody requeues claims younger than `age`. */
  ghost predicate Undisturbed(maxAttempts: nat, s: Sys, more: seq<Step>, id: Id, age: nat) {
    more == [] ||
    (&& Undisturbed(maxAttempts, s, more[..|more| - 1], id, age)
     && var t, step := Run(maxAttempts, s, more[..|more| - 1]), more[|more| - 1];
        && (step.Requeue? ==> step.age >= age)
        && (step.Mark? && step.k < |t.deliveries| ==> t.deliveries[step.k].id != id))
  }

  /**
   * A claim lasts: until it is older than the age at which claims are requeued, only reports
   * of the event's own deliveries can change its row, so no other dispatcher gets it.
   */
  lemma {:induction false} ClaimsLastUntilStale(maxAttempts: nat, s: Sys, more: seq<Step>, id: Id, age: nat)
    requires id in s.events && s.events[id].status == Publishing && Undisturbed(maxAttempts, s, more, id, age)
    requires Run(maxAttempts, s, more).now <= s.events[id].available + age
    ensures id in Run(maxAttempts, s, more).events && Run(maxAttempts, s, more).events[id] == s.events[id]
  {
    if more != [] {
      var t := Run(maxAttempts, s, more[..|more| - 1]);
      TimeMoves(maxAttempts, t, more[|more| - 1]);
      ClaimsLastUntilStale(maxAttempts, s, more[..|more| - 1], id, age);
    }
  }

  /** Some continuation makes the event claimable. */
  ghost predicate CanReturn(maxAttempts: nat, s: Sys, id: Id) {
    exists more :: Returns(maxAttempts, s, more, id)
  }

  ghost predicate Returns(maxAttempts: nat, s: Sys, more: seq<Step>, id: Id) {
    var t := Run(maxAttempts, s, more);
    id in t.events && Claimable(t.events[id], t.now, maxAttempts)
  }

  lemma WaitAndRequeue(maxAttempts: nat, s: Sys, id: Id, age: nat)
    requires id in s.events && s.events[id].status != Published && s.events[id].attempts < maxAttempts
    ensures CanReturn(maxAttempts, s, id)
  {
    var late := s.events[id].available - s.now;
    var wait: nat := age + 1 + (if late > 0 then late else 0);
    var s1 := Apply(maxAttempts, s, Tick(wait));
    var s2 := Apply(maxAttempts, s1, Requeue(age));
    RunConcat(maxAttempts, s, [Tick(wait)], [Requeue(age)]);
    RunOne(maxAttempts, s, Tick(wait));
    RunOne(maxAttempts, s1, Requeue(age));
    assert Claimable(s2.events[id], s2.now, maxAttempts);
    assert Returns(maxAttempts, s, [Tick(wait)] + [Requeue(age)], id);
  }

  /** No event is lost: it can become claimable again exactly while it is not published and has attempts left. */
  lemma NoEventIsLost(maxAttempts: nat, s: Sys, id: Id)
    requires id in s.events
    ensures CanReturn(maxAttempts, s, id) <==> s.events[id].status != Published && s.events[id].attempts < maxAttempts
  {
    if s.events[id].status != Published && s.events[id].attempts < maxAttempts {
      WaitAndRequeue(maxAttempts, s, id, 900);
    }
    forall more
      ensures Returns(maxAttempts, s, more, id) ==> s.events[id].status != Published && s.events[id].attempts < maxAttempts
    {
      RunEvolves(maxAttempts, s, more);
    }
  }

  // ---- one dispatcher on its own ----

  /** The row a claimed event ends as when nobody interferes. */
  function Outcome(e: Event, ok: bool, now: int): Event {
    if ok then Event(Published, e.attempts + 1, now, e.created)
    else Event(Failed, e.attempts + 1, now + Delay(e.attempts + 1), e.created)
  }

  function Successes(batch: seq<Id>, broker: Id -> bool): nat {
    if batch == [] then 0
    else Successes(batch[..|batch| - 1], broker) + (if broker(batch[|batch| - 1]) then 1 else 0)
  }

  /** `es` is `before` with the first `done` rows of the batch settled and the rest leased. */
  ghost predicate Settled(before: map<Id, Event>, es: map<Id, Event>, batch: seq<Id>, done: nat, broker: Id -> bool, now: int)
    requires done <= |batch| && forall id :: id in batch ==> id in before
  {
    && es.Keys == before.Keys
    && (forall id :: id in before && id !in batch ==> es[id] == before[id])
    && (forall k :: 0 <= k < done ==> batch[k] in es && es[batch[k]] == Outcome(before[batch[k]], broker(batch[k]), now))
    && (forall k :: done <= k < |batch| ==>
          && batch[k] in es
          && es[batch[k]] == Event(Publishing, before[batch[k]].attempts + 1, now, before[batch[k]].created))
  }

  lemma ClaimSettles(before: map<Id, Event>, batch: seq<Id>, broker: Id -> bool, now: int)
    requires forall id :: id in batch ==> id in before
    ensures Settled(before, ClaimRows(before, batch, now), batch, 0, broker, now)
  {
    assert forall k :: 0 <= k < |batch| ==> batch[k] in batch;
  }

  lemma OneSettles(before: map<Id, Event>, es: map<Id, Event>, batch: seq<Id>, done: nat, broker: Id -> bool, now: int)
    requires Distinct(batch) && done < |batch| && forall id :: id in batch ==> id in before
    requires Settled(before, es, batch, done, broker, now)
    ensures var id := batch[done];
      Settled(before, if broker(id) then MarkPublishedRow(es, id) else MarkFailedRow(es, id, es[id].attempts, now),
              batch, done + 1, broker, now)
  {
    assert batch[done] in batch;
  }

  /** What the dispatcher reports about one event after handing it to the broker. */
  method Report(store: SqlOutboxStore, id: Id, ok: bool, now: int)
    requires id in store.events
    modifies store
    ensures store.events == if ok then MarkPublishedRow(old(store.events), id)
                            else MarkFailedRow(old(store.events), id, old(store.events)[id].attempts, now)
  {
    if !ok {
      store.MarkFailed(id, store.events[id].attempts, now);
    } else {
      store.MarkPublished(id);
    }
  }

  /** Publish one claimed batch; `broker` says which publications succeed. */
  method DispatchOnce(store: SqlOutboxStore, size: nat, maxAttempts: nat, now: int, locked: set<Id>, broker: Id -> bool)
    returns (published: nat, ghost batch: seq<Id>)
    modifies store
    ensures FirstRows(old(store.events), Eligible(old(store.events), now, maxAttempts, locked), size, batch)
    ensures Settled(old(store.events), store.events, batch, |batch|, broker, now)
    ensures published == Successes(batch, broker)
  {
    ghost var before := store.events;
    var claimed := store.Claim(size, maxAttempts, now, locked);
    batch := claimed;
    BatchDistinct(before, Eligible(before, now, maxAttempts, locked), size, batch);
    ClaimSettles(before, claimed, broker, now);
    published := 0;
    for i := 0 to |claimed|
      invariant Settled(before, store.events, claimed, i, broker, now)
      invariant published == Successes(claimed[..i], broker)
    {
      var id := claimed[i];
      OneSettles(before, store.events, claimed, i, broker, now);
      assert claimed[..i + 1][..i] == claimed[..i];
      Report(store, id, broker(id), now);
      if broker(id) {
        published := published + 1;
      }
    }
    assert claimed[..|claimed|] == claimed;
  }
}
