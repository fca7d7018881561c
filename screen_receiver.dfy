/** ScreenOnOffReceiver: the panic gesture. Every screen on/off broadcast
    adds its time to a queue of the last six; six broadcasts within less than
    five seconds fire the panic trigger once and empty the queue. */
module PanicGesture {
  import opened Wrappers
  import opened NotificationService

  const ClickNumber: nat := 6
  /** `timeLimit`, in milliseconds. */
  const TimeLimit: int := 5 * 1000

  /** The last `n` elements of `s` (all of them when there are fewer). */
  function Recent(s: seq<int>, n: nat): (r: seq<int>)
    ensures |r| == if |s| <= n then |s| else n
  {
    if |s| <= n then s else s[|s| - n..]
  }

  /** `LimitedQueue.offer` with capacity `limit`: append at the tail, then
      drop from the head while over capacity. */
  function Offer(queue: seq<int>, t: int, limit: nat): (r: seq<int>)
    requires 0 < limit
    ensures |r| <= limit
    ensures |r| == if |queue| < limit then |queue| + 1 else limit
    ensures r[|r| - 1] == t
  {
    Recent(queue + [t], limit)
  }

  /** What stays in the queue after an offer are the newest clicks that
      were already there, in arrival order, followed by the new one. */
  lemma OfferKeepsRecent(queue: seq<int>, t: int, limit: nat)
    requires 0 < limit
    ensures var r := Offer(queue, t, limit);
            r == Recent(queue, |r| - 1) + [t] && Recent(queue, |r| - 1) == queue[|queue| - (|r| - 1)..]
  {
  }

  /** One `onReceive` at time `t`, as a value: the new queue and whether the
      trigger fired. Stated against the queue before the event: the trigger
      needs five earlier clicks, the oldest of which lies less than
      `TimeLimit` before `t`; it then empties the queue, and otherwise the
      click is offered to it. The ensures give the same decision in the
      terms of the code: after the offer, six entries whose newest minus
      oldest is below the limit. */
  function Receive(queue: seq<int>, t: int): (r: (seq<int>, bool))
    ensures |r.0| <= ClickNumber
    ensures var offered := Offer(queue, t, ClickNumber);
            r.1 <==> |offered| == ClickNumber && offered[ClickNumber - 1] - offered[0] < TimeLimit
  {
    if |queue| >= ClickNumber - 1 && t - queue[|queue| - (ClickNumber - 1)] < TimeLimit then ([], true)
    else (Offer(queue, t, ClickNumber), false)
  }

  class ScreenOnOffReceiver {
    /** `clicksQueue`, oldest first. */
    var clicksQueue: seq<int>

    ghost predicate Valid()
      reads this
    {
      |clicksQueue| <= ClickNumber
    }

    constructor ()
      ensures Valid() && clicksQueue == []
    {
      clicksQueue := [];
    }

    /** `onReceive`, with the wall-clock reading `time` as a parameter;
        `fired` is the call to `TriggerEvent`. */
    method OnReceive(time: int) returns (fired: bool)
      requires Valid()
      modifies this
      ensures Valid()
      ensures (clicksQueue, fired) == Receive(old(clicksQueue), time)
    {
      fired := false;
      clicksQueue := Offer(clicksQueue, time, ClickNumber);
      if |clicksQueue| < ClickNumber {
        return;
      }
      var timeInterval := clicksQueue[ClickNumber - 1] - clicksQueue[0];
      if timeInterval < TimeLimit {
        fired := true;
        clicksQueue := [];
      }
    }
  }

  /** The intent `TriggerEvent` starts the service with, as written: the
      `showNotification` extra is set but no action is, so the service's
      `getAction()` is null. */
  function TriggerEventIntent(): (i: Intent)
    ensures i.action.None? && i.showNotification == Some(true)
  {
    Intent(None, Some(true))
  }

  /** The intent `TriggerEvent` evidently means to send: START with the
      cancellable banner, what `getStartIntent` plus the extra would give. */
  function IntendedTriggerEventIntent(): (i: Intent)
    ensures i.action == Some(ActionStartEmergency) && i.showNotification == Some(true)
  {
    Intent(Some(ActionStartEmergency), Some(true))
  }

  /** A run of broadcasts at the times `ts`: the final queue and the number
      of triggers. */
  function Feed(queue: seq<int>, ts: seq<int>): (r: (seq<int>, nat))
    decreases |ts|
  {
    if |ts| == 0 then (queue, 0)
    else
      var step := Receive(queue, ts[0]);
      var rest := Feed(step.0, ts[1..]);
      (rest.0, rest.1 + if step.1 then 1 else 0)
  }

  /** Fewer than six clicks in the queue and the run together never fire,
      and the queue then just accumulates them. */
  lemma {:induction false} NoTriggerBelowSix(queue: seq<int>, ts: seq<int>)
    requires |queue| + |ts| < ClickNumber
    ensures Feed(queue, ts) == (queue + ts, 0)
    decreases |ts|
  {
    if |ts| == 0 {
      assert queue + ts == queue;
    } else {
      var step := Receive(queue, ts[0]);
      assert !step.1;
      assert step.0 == queue + [ts[0]];
      NoTriggerBelowSix(queue + [ts[0]], ts[1..]);
      assert queue + [ts[0]] + ts[1..] == queue + ts;
    }
  }

  /** Without a trigger the queue holds the six most recent clicks in
      arrival order. */
  lemma {:induction false} QuietRunKeepsRecent(queue: seq<int>, ts: seq<int>)
    requires |queue| <= ClickNumber
    requires Feed(queue, ts).1 == 0
    ensures Feed(queue, ts).0 == Recent(queue + ts, ClickNumber)
    decreases |ts|
  {
    if |ts| == 0 {
      assert queue + ts == queue;
    } else {
      var step := Receive(queue, ts[0]);
      assert !step.1;
      assert queue + ts == (queue + [ts[0]]) + ts[1..];
      QuietRunKeepsRecent(step.0, ts[1..]);
      RecentAppend(queue + [ts[0]], ts[1..]);
    }
  }

  /** Keeping the last six before appending more keeps the last six overall. */
  lemma {:induction false} RecentAppend(s: seq<int>, ts: seq<int>)
    ensures Recent(Recent(s, ClickNumber) + ts, ClickNumber) == Recent(s + ts, ClickNumber)
  {
  }

  /** Every trigger uses up six clicks: a run fires at most once per six
      clicks counted from the queue it starts with. In particular at most
      one trigger per broadcast, and none in the five broadcasts after one. */
  lemma {:induction false} TriggersNeedSixClicks(queue: seq<int>, ts: seq<int>)
    requires |queue| <= ClickNumber
    ensures ClickNumber * Feed(queue, ts).1 <= |queue| + |ts|
    decreases |ts|
  {
    if |ts| > 0 {
      var step := Receive(queue, ts[0]);
      TriggersNeedSixClicks(step.0, ts[1..]);
    }
  }

  /** Six clicks less than five seconds apart, from an empty queue, fire
      exactly once and leave the queue empty. */
  lemma {:induction false} SixQuickClicksFireOnce(ts: seq<int>)
    requires |ts| == ClickNumber && ts[ClickNumber - 1] - ts[0] < TimeLimit
    ensures Feed([], ts) == ([], 1)
  {
    NoTriggerBelowSix([], ts[..5]);
    FeedSplit([], ts[..5], ts[5..]);
    assert ts[..5] + ts[5..] == ts;
    assert [] + ts[..5] == ts[..5];
  }

  /** Six clicks spanning five seconds or more fire nothing; the queue then
      holds all six. */
  lemma {:induction false} SixSlowClicksDoNotFire(ts: seq<int>)
    requires |ts| == ClickNumber && ts[ClickNumber - 1] - ts[0] >= TimeLimit
    ensures Feed([], ts) == (ts, 0)
  {
    NoTriggerBelowSix([], ts[..5]);
    FeedSplit([], ts[..5], ts[5..]);
    assert ts[..5] + ts[5..] == ts;
    assert [] + ts[..5] == ts[..5];
    assert ts[..5] + [ts[5]] == ts;
  }

  /** Feeding two runs one after the other is feeding their concatenation. */
  lemma {:induction false} FeedSplit(queue: seq<int>, a: seq<int>, b: seq<int>)
    ensures var first := Feed(queue, a);
            var second := Feed(first.0, b);
            Feed(queue, a + b) == (second.0, first.1 + second.1)
    decreases |a|
  {
    if |a| == 0 {
      assert a + b == b;
    } else {
      var step := Receive(queue, a[0]);
      var fired := if step.1 then 1 else 0;
      assert (a + b)[0] == a[0];
      assert (a + b)[1..] == a[1..] + b;
      FeedSplit(step.0, a[1..], b);
      var restA := Feed(step.0, a[1..]);
      var restB := Feed(restA.0, b);
      assert Feed(step.0, a[1..] + b) == (restB.0, restA.1 + restB.1);
      assert Feed(queue, a) == (restA.0, restA.1 + fired);
      assert Feed(queue, a + b) == (restB.0, restA.1 + restB.1 + fired);
    }
  }
}
