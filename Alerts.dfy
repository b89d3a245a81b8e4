/**
 * Price alerts: when an alert fires, how firing changes the alert list, and the
 * bounded notification queue of triggered alerts. `AlertStore` holds the two
 * lists the application keeps as state and updates in place.
 */
module Alerts {
  import opened Wrappers
  import opened Types
  import opened Seqs

  /** The notification queue never holds more alerts than this. */
  const QUEUE_LIMIT := 5

  function AlertId(a: CryptoAlert): string { a.id }

  /** No two alerts of `s` share an id. */
  predicate UniqueIds(s: seq<CryptoAlert>) {
    DistinctBy(s, AlertId)
  }

  /** The notification queue's invariant: at most five entries, no id twice. */
  predicate QueueOk(q: seq<CryptoAlert>) {
    |q| <= QUEUE_LIMIT && UniqueIds(q)
  }

  function IdsOf(s: seq<CryptoAlert>): set<string> {
    set a | a in s :: a.id
  }

  /** The alert's price condition holds at `price`. */
  predicate Fires(a: CryptoAlert, price: real) {
    match a.condition
    case PriceDropsTo => price <= a.targetPrice
    case PriceRisesTo => price >= a.targetPrice
  }

  /** An evaluation of asset `cryptoId` at `price` fires `a`. */
  predicate Triggers(a: CryptoAlert, cryptoId: string, price: real) {
    a.cryptoId == cryptoId && a.isActive && Fires(a, price)
  }

  /** The filter test "an active alert of asset `cryptoId`". */
  function ActiveFor(cryptoId: string): CryptoAlert -> bool {
    (a: CryptoAlert) => a.cryptoId == cryptoId && a.isActive
  }

  function FiresAt(price: real): CryptoAlert -> bool {
    (a: CryptoAlert) => Fires(a, price)
  }

  function IdIs(id: string): CryptoAlert -> bool {
    (a: CryptoAlert) => a.id == id
  }

  function IdIsNot(id: string): CryptoAlert -> bool {
    (a: CryptoAlert) => a.id != id
  }

  /** The alerts an evaluation fires, in list order: the active alerts of the asset whose condition holds. */
  function Firing(alerts: seq<CryptoAlert>, cryptoId: string, price: real): seq<CryptoAlert> {
    Filter(Filter(alerts, ActiveFor(cryptoId)), FiresAt(price))
  }

  /** A fired alert: inactive, stamped with the time it fired, otherwise as it was. */
  function Triggered(a: CryptoAlert, now: int): CryptoAlert {
    a.(isActive := false, triggeredAt := Some(now))
  }

  /** The list update for one fired alert: every alert carrying its id is marked triggered. */
  function MarkTriggered(alerts: seq<CryptoAlert>, id: string, now: int): seq<CryptoAlert> {
    seq(|alerts|, k requires 0 <= k < |alerts| => if alerts[k].id == id then Triggered(alerts[k], now) else alerts[k])
  }

  /** The list after marking every alert whose id is in `ids`. */
  function MarkAll(alerts: seq<CryptoAlert>, ids: set<string>, now: int): seq<CryptoAlert> {
    seq(|alerts|, k requires 0 <= k < |alerts| => if alerts[k].id in ids then Triggered(alerts[k], now) else alerts[k])
  }

  /** The alert list after evaluating asset `cryptoId` at `price`. */
  function Evaluate(alerts: seq<CryptoAlert>, cryptoId: string, price: real, now: int): seq<CryptoAlert> {
    MarkAll(alerts, IdsOf(Firing(alerts, cryptoId, price)), now)
  }

  /** Marking no id changes nothing. */
  lemma MarkAllNothing(alerts: seq<CryptoAlert>, now: int)
    ensures MarkAll(alerts, IdsOf([]), now) == alerts
  {
    assert IdsOf([]) == {};
  }

  /** Marking one more id after a set of ids is marking the union. */
  lemma MarkTriggeredAfterMarkAll(alerts: seq<CryptoAlert>, ids: set<string>, id: string, now: int)
    ensures MarkTriggered(MarkAll(alerts, ids, now), id, now) == MarkAll(alerts, ids + {id}, now)
  {
    var l := MarkTriggered(MarkAll(alerts, ids, now), id, now);
    var r := MarkAll(alerts, ids + {id}, now);
    assert |l| == |r|;
    forall k | 0 <= k < |l| ensures l[k] == r[k] {
      assert MarkAll(alerts, ids, now)[k].id == alerts[k].id;
    }
  }

  /** Prepends a fired alert to the queue unless its id is already queued, keeping the newest five. */
  function PushTriggered(q: seq<CryptoAlert>, a: CryptoAlert): (r: seq<CryptoAlert>)
    ensures a.id in IdsOf(q) ==> r == q
    ensures a.id !in IdsOf(q) ==> |r| == Min(|q| + 1, QUEUE_LIMIT) && r[0] == a && r[1..] == q[..|r| - 1]
    ensures QueueOk(q) ==> QueueOk(r)
  {
    var found := FindFirst(q, IdIs(a.id));
    assert found.Some? <==> a.id in IdsOf(q) by {
      if a.id in IdsOf(q) {
        var x :| x in q && x.id == a.id;
        var j :| 0 <= j < |q| && q[j] == x;
        assert IdIs(a.id)(q[j]);
      }
    }
    if found.Some? then q
    else
      var r := ([a] + q)[..Min(|q| + 1, QUEUE_LIMIT)];
      assert QueueOk(q) ==> QueueOk(r) by {
        if QueueOk(q) {
          forall i, j | 0 <= i < j < |r| ensures r[i].id != r[j].id {
            if i == 0 {
              assert r[j] == q[j - 1];
              assert r[j] in q;
            } else {
              assert r[i] == q[i - 1] && r[j] == q[j - 1];
              assert AlertId(q[i - 1]) != AlertId(q[j - 1]);
            }
          }
        }
      }
      r
  }

  /** The queue after pushing, in order, every alert of `fired` as a triggered alert stamped `now`. */
  function EnqueueAll(q: seq<CryptoAlert>, fired: seq<CryptoAlert>, now: int): (r: seq<CryptoAlert>)
    ensures QueueOk(q) ==> QueueOk(r)
    ensures fired == [] ==> r == q
    decreases |fired|
  {
    if fired == [] then q
    else PushTriggered(EnqueueAll(q, fired[..|fired| - 1], now), Triggered(fired[|fired| - 1], now))
  }

  /** Firing one more alert marks its id on top of the ids already marked. */
  lemma MarkAllSnoc(before: seq<CryptoAlert>, done: seq<CryptoAlert>, alert: CryptoAlert, now: int)
    ensures MarkAll(before, IdsOf(done + [alert]), now) == MarkTriggered(MarkAll(before, IdsOf(done), now), alert.id, now)
  {
    MarkTriggeredAfterMarkAll(before, IdsOf(done), alert.id, now);
    assert IdsOf(done + [alert]) == IdsOf(done) + {alert.id};
  }

  /** Firing one more alert pushes it, triggered, onto the queue built so far. */
  lemma EnqueueAllSnoc(q: seq<CryptoAlert>, done: seq<CryptoAlert>, alert: CryptoAlert, now: int)
    ensures EnqueueAll(q, done + [alert], now) == PushTriggered(EnqueueAll(q, done, now), Triggered(alert, now))
  {
    assert (done + [alert])[..|done|] == done;
  }

  /** An alert belongs to `Firing` exactly when the evaluation triggers it. */
  lemma FiringMembers(alerts: seq<CryptoAlert>, cryptoId: string, price: real, x: CryptoAlert)
    ensures x in Firing(alerts, cryptoId, price) <==> x in alerts && Triggers(x, cryptoId, price)
  {
    var active := Filter(alerts, ActiveFor(cryptoId));
    var fired := Filter(active, FiresAt(price));
    if x in fired {
      var i :| 0 <= i < |fired| && fired[i] == x;
      assert x in active;
      var j :| 0 <= j < |active| && active[j] == x;
      assert ActiveFor(cryptoId)(active[j]);
    }
    if x in alerts && Triggers(x, cryptoId, price) {
      var j :| 0 <= j < |alerts| && alerts[j] == x;
      assert ActiveFor(cryptoId)(alerts[j]);
      assert x in active;
      var i :| 0 <= i < |active| && active[i] == x;
      assert FiresAt(price)(active[i]);
    }
  }

  /** One more alert examined by the evaluation loop: if it fires, it is marked and pushed; otherwise nothing changes. */
  lemma EvaluationStep(before: seq<CryptoAlert>, queued: seq<CryptoAlert>, active: seq<CryptoAlert>, i: nat, price: real, now: int)
    requires i < |active|
    ensures var done := Filter(active[..i], FiresAt(price));
      var next := Filter(active[..i + 1], FiresAt(price));
      && (Fires(active[i], price) ==>
            && MarkAll(before, IdsOf(next), now) == MarkTriggered(MarkAll(before, IdsOf(done), now), active[i].id, now)
            && EnqueueAll(queued, next, now) == PushTriggered(EnqueueAll(queued, done, now), Triggered(active[i], now)))
      && (!Fires(active[i], price) ==> next == done)
  {
    var done := Filter(active[..i], FiresAt(price));
    assert active[..i + 1] == active[..i] + [active[i]];
    FilterSnoc(active[..i], active[i], FiresAt(price));
    if Fires(active[i], price) {
      MarkAllSnoc(before, done, active[i], now);
      EnqueueAllSnoc(queued, done, active[i], now);
    } else {
      assert done + [] == done;
    }
  }

  /**
   * Evaluation fires exactly the active alerts of the evaluated asset whose
   * condition holds (a "drops to" alert iff the price is at or below its
   * target, a "rises to" alert iff it is at or above), marks each of them
   * inactive with the evaluation time and changes nothing else: the list keeps
   * its length and order, inactive alerts and other assets' alerts are untouched.
   */
  lemma {:induction false} EvaluationTouchesOnlyFiring(alerts: seq<CryptoAlert>, cryptoId: string, price: real, now: int)
    requires UniqueIds(alerts)
    ensures |Evaluate(alerts, cryptoId, price, now)| == |alerts|
    ensures forall k :: 0 <= k < |alerts| ==>
      Evaluate(alerts, cryptoId, price, now)[k] ==
        if Triggers(alerts[k], cryptoId, price) then Triggered(alerts[k], now) else alerts[k]
    ensures forall k :: 0 <= k < |alerts| && (alerts[k].cryptoId != cryptoId || !alerts[k].isActive) ==>
      Evaluate(alerts, cryptoId, price, now)[k] == alerts[k]
    ensures forall k :: 0 <= k < |alerts| && alerts[k].cryptoId == cryptoId && alerts[k].isActive ==>
      (alerts[k].condition == PriceDropsTo ==>
        (!Evaluate(alerts, cryptoId, price, now)[k].isActive <==> price <= alerts[k].targetPrice)) &&
      (alerts[k].condition == PriceRisesTo ==>
        (!Evaluate(alerts, cryptoId, price, now)[k].isActive <==> price >= alerts[k].targetPrice))
  {
    var fired := Firing(alerts, cryptoId, price);
    forall k | 0 <= k < |alerts| ensures alerts[k].id in IdsOf(fired) <==> Triggers(alerts[k], cryptoId, price) {
      if Triggers(alerts[k], cryptoId, price) {
        FiringMembers(alerts, cryptoId, price, alerts[k]);
      }
      if alerts[k].id in IdsOf(fired) {
        var x :| x in fired && x.id == alerts[k].id;
        FiringMembers(alerts, cryptoId, price, x);
        var j :| 0 <= j < |alerts| && alerts[j] == x;
        assert AlertId(alerts[j]) == AlertId(alerts[k]);
        assert j == k;
      }
    }
  }

  /** Evaluation never changes ids, so it keeps them unique. */
  lemma EvaluationKeepsIds(alerts: seq<CryptoAlert>, cryptoId: string, price: real, now: int)
    ensures |Evaluate(alerts, cryptoId, price, now)| == |alerts|
    ensures forall k :: 0 <= k < |alerts| ==> Evaluate(alerts, cryptoId, price, now)[k].id == alerts[k].id
    ensures UniqueIds(alerts) ==> UniqueIds(Evaluate(alerts, cryptoId, price, now))
  {
    var r := Evaluate(alerts, cryptoId, price, now);
    if UniqueIds(alerts) {
      forall i, j | 0 <= i < j < |r| ensures AlertId(r[i]) != AlertId(r[j]) {
        assert r[i].id == alerts[i].id && r[j].id == alerts[j].id;
        assert AlertId(alerts[i]) != AlertId(alerts[j]);
      }
    }
  }

  /**
   * An alert fires at most once: after an evaluation fires it, no later
   * evaluation (of any asset, at any price and time) fires it again or changes it.
   */
  lemma {:induction false} TriggeredAlertNeverFiresAgain(alerts: seq<CryptoAlert>, cryptoId: string, price: real, now: int,
                                                         laterId: string, laterPrice: real, laterNow: int)
    requires UniqueIds(alerts)
    ensures forall k :: 0 <= k < |alerts| && Triggers(alerts[k], cryptoId, price) ==>
      alerts[k].id !in IdsOf(Firing(Evaluate(alerts, cryptoId, price, now), laterId, laterPrice))
    ensures forall k :: 0 <= k < |alerts| && Triggers(alerts[k], cryptoId, price) ==>
      Evaluate(Evaluate(alerts, cryptoId, price, now), laterId, laterPrice, laterNow)[k] == Triggered(alerts[k], now)
  {
    var once := Evaluate(alerts, cryptoId, price, now);
    EvaluationTouchesOnlyFiring(alerts, cryptoId, price, now);
    EvaluationKeepsIds(alerts, cryptoId, price, now);
    EvaluationTouchesOnlyFiring(once, laterId, laterPrice, laterNow);
    forall k | 0 <= k < |alerts| && Triggers(alerts[k], cryptoId, price)
      ensures alerts[k].id !in IdsOf(Firing(once, laterId, laterPrice))
    {
      forall x | x in Firing(once, laterId, laterPrice) ensures x.id != alerts[k].id {
        FiringMembers(once, laterId, laterPrice, x);
        var j :| 0 <= j < |once| && once[j] == x;
        assert once[j].isActive && !once[k].isActive;
        if j < k {
          assert AlertId(once[j]) != AlertId(once[k]);
        } else {
          assert AlertId(once[k]) != AlertId(once[j]);
        }
      }
    }
  }

  /** One price sample delivered to the evaluator. */
  datatype Sample = Sample(cryptoId: string, price: real, now: int)

  /** The alert list after evaluating each sample of `samples` in turn. */
  function EvaluateSeries(alerts: seq<CryptoAlert>, samples: seq<Sample>): seq<CryptoAlert>
    decreases |samples|
  {
    if samples == [] then alerts
    else
      var last := samples[|samples| - 1];
      Evaluate(EvaluateSeries(alerts, samples[..|samples| - 1]), last.cryptoId, last.price, last.now)
  }

  /**
   * However many samples follow, an inactive alert (in particular one that has
   * already fired) stays exactly as it is, and the list keeps its length and ids.
   */
  lemma {:induction false} InactiveAlertStaysFrozen(alerts: seq<CryptoAlert>, samples: seq<Sample>)
    requires UniqueIds(alerts)
    ensures |EvaluateSeries(alerts, samples)| == |alerts|
    ensures UniqueIds(EvaluateSeries(alerts, samples))
    ensures forall k :: 0 <= k < |alerts| ==> EvaluateSeries(alerts, samples)[k].id == alerts[k].id
    ensures forall k :: 0 <= k < |alerts| && !alerts[k].isActive ==> EvaluateSeries(alerts, samples)[k] == alerts[k]
    decreases |samples|
  {
    if samples != [] {
      var prefix := samples[..|samples| - 1];
      var last := samples[|samples| - 1];
      InactiveAlertStaysFrozen(alerts, prefix);
      var before := EvaluateSeries(alerts, prefix);
      EvaluationTouchesOnlyFiring(before, last.cryptoId, last.price, last.now);
      EvaluationKeepsIds(before, last.cryptoId, last.price, last.now);
    }
  }

  /** The alert list and the triggered-alert notification queue of the application. */
  class AlertStore {
    var alerts: seq<CryptoAlert>
    var queue: seq<CryptoAlert>

    ghost predicate Valid()
      reads this
    {
      QueueOk(queue)
    }

    constructor ()
      ensures Valid() && alerts == [] && queue == []
    {
      alerts := [];
      queue := [];
    }

    /**
     * Evaluates the alerts of `updated`'s asset at its current price: every
     * active alert of that asset whose condition holds is marked triggered in
     * the list and pushed onto the notification queue.
     */
    method CheckAndTriggerAlerts(updated: CryptoCurrency, now: int)
      requires Valid()
      modifies this
      ensures Valid()
      ensures alerts == Evaluate(old(alerts), updated.id, updated.currentPrice, now)
      ensures queue == EnqueueAll(old(queue), Firing(old(alerts), updated.id, updated.currentPrice), now)
    {
      var price := updated.currentPrice;
      var active := Filter(alerts, ActiveFor(updated.id));
      ghost var before, queued := alerts, queue;
      var list, pending := alerts, queue;
      MarkAllNothing(before, now);
      assert active[..0] == [];
      var i := 0;
      while i < |active|
        invariant 0 <= i <= |active|
        invariant list == MarkAll(before, IdsOf(Filter(active[..i], FiresAt(price))), now)
        invariant pending == EnqueueAll(queued, Filter(active[..i], FiresAt(price)), now)
      {
        var alert := active[i];
        var triggered :=
          || (alert.condition == PriceDropsTo && price <= alert.targetPrice)
          || (alert.condition == PriceRisesTo && price >= alert.targetPrice);
        EvaluationStep(before, queued, active, i, price, now);
        if triggered {
          list := MarkTriggered(list, alert.id, now);
          pending := PushTriggered(pending, Triggered(alert, now));
        }
        i := i + 1;
      }
      assert active[..|active|] == active;
      alerts, queue := list, pending;
    }

    /** Appends a new alert at the end of the list. */
    method AddAlert(alert: CryptoAlert)
      requires Valid()
      modifies this
      ensures Valid()
      ensures alerts == old(alerts) + [alert] && queue == old(queue)
      ensures UniqueIds(old(alerts)) && alert.id !in IdsOf(old(alerts)) ==> UniqueIds(alerts)
    {
      alerts := alerts + [alert];
      assert UniqueIds(old(alerts)) && alert.id !in IdsOf(old(alerts)) ==> UniqueIds(alerts) by {
        if UniqueIds(old(alerts)) && alert.id !in IdsOf(old(alerts)) {
          forall i, j | 0 <= i < j < |alerts| ensures AlertId(alerts[i]) != AlertId(alerts[j]) {
            if j == |alerts| - 1 {
              assert alerts[i] in old(alerts);
            } else {
              assert alerts[i] == old(alerts)[i] && alerts[j] == old(alerts)[j];
            }
          }
        }
      }
    }

    /** Deletes every alert with id `alertId`, active or not; the queue is left as it is. */
    method RemoveAlert(alertId: string)
      requires Valid()
      modifies this
      ensures Valid()
      ensures alerts == Filter(old(alerts), IdIsNot(alertId)) && queue == old(queue)
      ensures forall x :: x in alerts <==> x in old(alerts) && x.id != alertId
    {
      alerts := Filter(alerts, IdIsNot(alertId));
    }

    /** Removes the alert with id `alertId` from the notification queue; the alert list is not touched. */
    method DismissTriggeredAlert(alertId: string)
      requires Valid()
      modifies this
      ensures Valid()
      ensures queue == Filter(old(queue), IdIsNot(alertId)) && alerts == old(alerts)
      ensures forall x :: x in queue <==> x in old(queue) && x.id != alertId
    {
      FilterKeepsDistinct(queue, IdIsNot(alertId), AlertId);
      queue := Filter(queue, IdIsNot(alertId));
    }
  }
}
