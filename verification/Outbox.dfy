/** The transactional outbox (outbox.py): rows, store statements and the dispatcher's loop. */
module Outbox {
  import opened Common

  datatype Status = Pending | Publishing | Published | Failed

  /** Times are seconds. */
  datatype Event = Event(status: Status, attempts: nat, available: int, created: int)

  /** Rows are ordered by availability, creation and id. */
  predicate Before(es: map<Id, Event>, x: Id, y: Id)
    requires x in es && y in es
  {
    var a, b := es[x], es[y];
    || a.available < b.available
    || (a.available == b.available && (a.created < b.created || (a.created == b.created && x < y)))
  }

  predicate Claimable(e: Event, now: int, limit: nat) {
    (e.status == Pending || e.status == Failed) && e.available <= now && e.attempts < limit
  }

  /** The rows a claim may take: claimable and not locked by a concurrent claim. */
  function Eligible(es: map<Id, Event>, now: int, maxAttempts: nat, locked: set<Id>): set<Id> {
    set id | id in es && Claimable(es[id], now, maxAttempts) && id !in locked
  }

  /** `batch` is what `order by … limit` returns: the first rows of `rows`, in order. */
  ghost predicate FirstRows(es: map<Id, Event>, rows: set<Id>, size: nat, batch: seq<Id>)
    requires forall id :: id in rows ==> id in es
  {
    && (forall id :: id in batch ==> id in rows)
    && |batch| == (if size < |rows| then size else |rows|)
    && (forall i, j :: 0 <= i < j < |batch| ==> Before(es, batch[i], batch[j]))
    && (forall x, y :: x in batch && y in rows && y !in batch ==> Before(es, x, y))
  }

  function ClaimRows(es: map<Id, Event>, batch: seq<Id>, now: int): map<Id, Event> {
    map id | id in es ::
      if id in batch then Event(Publishing, es[id].attempts + 1, now, es[id].created) else es[id]
  }

  function MarkPublishedRow(es: map<Id, Event>, id: Id): map<Id, Event> {
    if id in es && es[id].status == Publishing then es[id := es[id].(status := Published)] else es
  }

  function Pow2(n: nat): nat {
    if n == 0 then 1 else 2 * Pow2(n - 1)
  }

  /** Seconds until a failed event is available again: `min(300, 2 ** min(attempts, 8))`. */
  function Delay(attempts: nat): nat {
    var d := Pow2(if attempts < 8 then attempts else 8);
    if d < 300 then d else 300
  }

  function MarkFailedRow(es: map<Id, Event>, id: Id, attempts: nat, now: int): map<Id, Event> {
    if id in es && es[id].status == Publishing
    then es[id := es[id].(status := Failed, available := now + Delay(attempts))]
    else es
  }

  function RequeueRows(es: map<Id, Event>, olderThan: int, now: int): map<Id, Event> {
    map id | id in es ::
      if es[id].status == Publishing && es[id].available < olderThan
      then es[id].(status := Failed, available := now)
      else es[id]
  }

  /** Publishing rows whose claim is older than the bound. */
  function Stale(es: map<Id, Event>, olderThan: int): set<Id> {
    set id | id in es && es[id].status == Publishing && es[id].available < olderThan
  }

  // ---- back-off ----

  lemma {:induction false} Pow2Grows(m: nat, n: nat)
    requires m <= n
    ensures Pow2(m) <= Pow2(n)
    ensures m < n ==> Pow2(m) < Pow2(n)
  {
    if m < n {
      Pow2Grows(m, n - 1);
      Pow2Positive(n - 1);
    }
  }

  lemma {:induction false} Pow2Positive(n: nat)
    ensures Pow2(n) >= 1
  {
    if n > 0 {
      Pow2Positive(n - 1);
    }
  }

  /** The delay doubles with every attempt up to 256 seconds; the cap of 300 seconds is never reached. */
  lemma DelayDoubles(attempts: nat)
    ensures Delay(attempts) == Pow2(if attempts < 8 then attempts else 8) <= 256
    ensures attempts < 8 ==> Delay(attempts + 1) == 2 * Delay(attempts)
  {
    Pow2Grows(if attempts < 8 then attempts else 8, 8);
    Pow2Grows(if attempts < 7 then attempts + 1 else 8, 8);
    assert Pow2(4) == 16;
    assert Pow2(8) == 256;
  }

  // ---- the order of a claim ----

  lemma {:induction false} Earliest(es: map<Id, Event>, rows: set<Id>) returns (first: Id)
    requires rows != {} && forall id :: id in rows ==> id in es
    ensures first in rows && forall y :: y in rows && y != first ==> Before(es, first, y)
    decreases |rows|
  {
    var some :| some in rows;
    first := some;
    var rest := rows - {some};
    if rest != {} {
      var other := Earliest(es, rest);
      first := if Before(es, some, other) then some else other;
    }
    forall y | y in rows && y != first
      ensures Before(es, first, y)
    {
      assert y == some || y in rest;
    }
  }

  /** At most one list of rows is the answer to the claim query. */
  lemma {:induction false} FirstRowsUnique(es: map<Id, Event>, rows: set<Id>, size: nat, a: seq<Id>, b: seq<Id>, k: nat)
    requires forall id :: id in rows ==> id in es
    requires FirstRows(es, rows, size, a) && FirstRows(es, rows, size, b) && k <= |a|
    ensures |a| == |b| && a[..k] == b[..k]
  {
    if k > 0 {
      FirstRowsUnique(es, rows, size, a, b, k - 1);
      NextRowSame(es, rows, size, a, b, k - 1);
      assert a[..k] == a[..k - 1] + [a[k - 1]] && b[..k] == b[..k - 1] + [b[k - 1]];
    }
  }

  lemma NotEarlier(es: map<Id, Event>, rows: set<Id>, size: nat, a: seq<Id>, k: nat, y: Id)
    requires forall id :: id in rows ==> id in es
    requires FirstRows(es, rows, size, a) && k < |a| && y in rows && y !in a[..k]
    ensures y == a[k] || Before(es, a[k], y)
  {
    if y in a {
      var i :| 0 <= i < |a| && a[i] == y;
      assert forall j :: 0 <= j < k ==> a[..k][j] == a[j];
    }
  }

  lemma NotRepeated(es: map<Id, Event>, rows: set<Id>, size: nat, a: seq<Id>, k: nat)
    requires forall id :: id in rows ==> id in es
    requires FirstRows(es, rows, size, a) && k < |a|
    ensures a[k] !in a[..k]
  {
    assert forall i :: 0 <= i < k ==> a[..k][i] == a[i] && Before(es, a[i], a[k]);
  }

  lemma {:induction false} NextRowSame(es: map<Id, Event>, rows: set<Id>, size: nat, a: seq<Id>, b: seq<Id>, k: nat)
    requires forall id :: id in rows ==> id in es
    requires FirstRows(es, rows, size, a) && FirstRows(es, rows, size, b)
    requires k < |a| == |b| && a[..k] == b[..k]
    ensures a[k] == b[k]
  {
    NotRepeated(es, rows, size, a, k);
    NotRepeated(es, rows, size, b, k);
    NotEarlier(es, rows, size, a, k, b[k]);
    NotEarlier(es, rows, size, b, k, a[k]);
  }

  lemma ClaimIsDetermined(es: map<Id, Event>, rows: set<Id>, size: nat, a: seq<Id>, b: seq<Id>)
    requires forall id :: id in rows ==> id in es
    requires FirstRows(es, rows, size, a) && FirstRows(es, rows, size, b)
    ensures a == b
  {
    FirstRowsUnique(es, rows, size, a, b, |a|);
    assert a[..|a|] == a && b[..|b|] == b;
  }

  /**
   * The claim takes the oldest rows: no row taken became available later than one left behind,
   * and of two available since the same time the one created later was not taken first.
   */
  lemma {:induction false} OldestFirst(es: map<Id, Event>, rows: set<Id>, size: nat, batch: seq<Id>)
    requires forall id :: id in rows ==> id in es
    requires FirstRows(es, rows, size, batch)
    ensures forall x, y :: x in batch && y in rows && y !in batch ==>
      && es[x].available <= es[y].available
      && (es[x].available == es[y].available ==> es[x].created <= es[y].created)
    ensures forall i, j :: 0 <= i < j < |batch| ==>
      && es[batch[i]].available <= es[batch[j]].available
      && (es[batch[i]].available == es[batch[j]].available ==> es[batch[i]].created <= es[batch[j]].created)
    ensures |batch| <= size && (|batch| < size ==> forall y :: y in rows ==> y in batch)
  {
    forall i | 0 <= i < |batch|
      ensures batch[i] in rows
    {
      assert batch[i] in batch;
    }
    if |batch| < size {
      BatchIsAll(es, rows, batch);
    }
  }

  /**
   * A row may be taken exactly when it waits or has failed, is due, has attempts left, and no concurrent
   * claim has locked it.
   */
  lemma {:induction false} EligibleExactly(es: map<Id, Event>, now: int, maxAttempts: nat, locked: set<Id>, id: Id)
    ensures id in Eligible(es, now, maxAttempts, locked) <==>
      && id in es && es[id].status !in {Publishing, Published} && es[id].available <= now
      && es[id].attempts < maxAttempts && id !in locked
  {
  }

  /**
   * A requeue makes every claim older than the bound due at once, as far as it has attempts left, and
   * touches no other row.
   */
  lemma {:induction false} RequeuedExactly(es: map<Id, Event>, olderThan: int, now: int, maxAttempts: nat, id: Id)
    requires id in es
    ensures var t := RequeueRows(es, olderThan, now);
      && t.Keys == es.Keys
      && (if es[id].status == Publishing && es[id].available < olderThan
          then t[id].status == Failed && t[id].attempts == es[id].attempts && t[id].created == es[id].created
               && (id in Eligible(t, now, maxAttempts, {}) <==> es[id].attempts < maxAttempts)
          else t[id] == es[id])
  {
  }

  lemma {:induction false} BatchIsAll(es: map<Id, Event>, rows: set<Id>, batch: seq<Id>)
    requires forall id :: id in rows ==> id in es
    requires forall id :: id in batch ==> id in rows
    requires |batch| == |rows|
    requires forall i, j :: 0 <= i < j < |batch| ==> batch[i] in es && batch[j] in es && Before(es, batch[i], batch[j])
    ensures forall y :: y in rows ==> y in batch
    decreases |batch|
  {
    if batch != [] {
      var init, last := batch[..|batch| - 1], batch[|batch| - 1];
      assert batch == init + [last];
      assert last !in init;
      forall id | id in init
        ensures id in rows - {last}
      {
        assert id in batch;
      }
      assert last in batch;
      BatchIsAll(es, rows - {last}, init);
    }
  }

  // ---- the store and the dispatcher ----

  class SqlOutboxStore {
    var events: map<Id, Event>

    constructor (es: map<Id, Event>)
      ensures events == es
    {
      events := es;
    }

    /** Select the first claimable rows and lease them, in one transaction. */
    method Claim(size: nat, maxAttempts: nat, now: int, locked: set<Id>) returns (batch: seq<Id>)
      modifies this
      ensures FirstRows(old(events), Eligible(old(events), now, maxAttempts, locked), size, batch)
      ensures events == ClaimRows(old(events), batch, now)
    {
      var rows := Eligible(events, now, maxAttempts, locked);
      var left := rows;
      batch := [];
      while |batch| < size && left != {}
        invariant events == old(events) && forall id :: id in rows ==> id in events
        invariant left == rows - (set id | id in batch) && forall id :: id in batch ==> id in rows
        invariant |left| + |batch| == |rows| && |batch| <= size
        invariant forall i, j :: 0 <= i < j < |batch| ==> Before(events, batch[i], batch[j])
        invariant forall x, y :: x in batch && y in left ==> Before(events, x, y)
        decreases |left|
      {
        ghost var earliest := Earliest(events, left);
        var first :| first in left && forall y :: y in left && y != first ==> Before(events, first, y);
        batch := batch + [first];
        left := left - {first};
      }
      events := ClaimRows(events, batch, now);
    }

    /** A publishing row is settled for good; a row someone else has settled or requeued is left alone. */
    method MarkPublished(id: Id)
      modifies this
      ensures events.Keys == old(events).Keys
      ensures forall x :: x in events && x != id ==> events[x] == old(events)[x]
      ensures id in events ==>
        && events[id] == old(events)[id].(status := events[id].status)
        && events[id].status == (if old(events)[id].status == Publishing then Published else old(events)[id].status)
    {
      if id in events && events[id].status == Publishing {
        events := events[id := events[id].(status := Published)];
      }
    }

    /** A publishing row fails and stays out of every claim until its back-off is over; other rows stay. */
    method MarkFailed(id: Id, attempts: nat, now: int)
      modifies this
      ensures events.Keys == old(events).Keys
      ensures forall x :: x in events && (x != id || old(events)[x].status != Publishing) ==> events[x] == old(events)[x]
      ensures id in events && old(events)[id].status == Publishing ==>
        && events[id].status == Failed
        && events[id].attempts == old(events)[id].attempts && events[id].created == old(events)[id].created
        && events[id].available == now + Delay(attempts)
    {
      var delay := Delay(attempts);
      if id in events && events[id].status == Publishing {
        events := events[id := events[id].(status := Failed, available := now + delay)];
      }
    }

    /** Every publishing row older than the bound may be claimed again at once; the result counts them. */
    method RequeueStale(olderThan: int, now: int) returns (count: nat)
      modifies this
      ensures events.Keys == old(events).Keys
      ensures count == |Stale(old(events), olderThan)|
      ensures forall x :: x in events && x !in Stale(old(events), olderThan) ==> events[x] == old(events)[x]
      ensures forall x :: x in Stale(old(events), olderThan) ==>
        && events[x].attempts == old(events)[x].attempts && events[x].created == old(events)[x].created
        && forall limit :: Claimable(events[x], now, limit) <==> events[x].attempts < limit
    {
      var stale := Stale(events, olderThan);
      events := map id | id in events ::
        if id in stale then events[id].(status := Failed, available := now) else events[id];
      return |stale|;
    }
  }
}
