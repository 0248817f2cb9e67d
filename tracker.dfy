/**
 * The browser tracker `BehaviorOptTracker`: it queues events, sends them in
 * batches, and answers variant lookups from the assignments it loaded.
 *
 * A flush is split at its `await`. `BeginFlush` is the synchronous part: it
 * snapshots the queue, empties it and puts the snapshot in flight.
 * `SettleFlush` is the end of the `fetch`, whose outcome is a parameter: the
 * batch is delivered, or it goes back in front of whatever was queued
 * meanwhile. The browser's state (window size, URL, clock) is a parameter of
 * every call that reads it; the contents of `localStorage` are not modelled.
 */
module Tracker {
  import opened Wrappers
  import opened Js

  /** What `getContext` reads from the browser. */
  datatype Browser = Browser(url: string, referrer: string, userAgent: string,
                             screenWidth: int, screenHeight: int, innerWidth: int)

  datatype Context = Context(url: string, referrer: string, userAgent: string,
                             screenWidth: int, screenHeight: int, deviceType: string)

  datatype Event = Event(userId: string, eventType: string, properties: Json,
                         context: Context, sessionId: string, timestamp: string)

  /** The number of queued events that triggers a flush. */
  const BatchSize: nat := 10

  /** `getDeviceType` for the window width. */
  function DeviceType(width: int): string {
    if width < 768 then "mobile" else if width < 1024 then "tablet" else "desktop"
  }

  /** The order of the device classes, from the narrowest window up. */
  function DeviceRank(deviceType: string): nat {
    if deviceType == "mobile" then 0 else if deviceType == "tablet" then 1 else 2
  }

  /**
   * Widths below 768 are mobile, those below 1024 tablet and the rest
   * desktop; so a wider window never gives a narrower class.
   */
  lemma DeviceTypeBands(width: int, wider: int)
    requires width <= wider
    ensures DeviceType(width) == "mobile" <==> width < 768
    ensures DeviceType(width) == "tablet" <==> 768 <= width < 1024
    ensures DeviceType(width) == "desktop" <==> 1024 <= width
    ensures DeviceRank(DeviceType(width)) <= DeviceRank(DeviceType(wider))
  {
  }

  function ContextOf(b: Browser): Context {
    Context(b.url, b.referrer, b.userAgent, b.screenWidth, b.screenHeight, DeviceType(b.innerWidth))
  }

  /** The batches in flight, one after another. */
  function Flatten(batches: seq<seq<Event>>): seq<Event> {
    if batches == [] then [] else batches[0] + Flatten(batches[1..])
  }

  lemma {:induction false} FlattenAppend(a: seq<seq<Event>>, b: seq<seq<Event>>)
    ensures Flatten(a + b) == Flatten(a) + Flatten(b)
  {
    if a == [] {
      assert a + b == b;
    } else {
      assert (a + b)[1..] == a[1..] + b;
      FlattenAppend(a[1..], b);
    }
  }

  /** Taking out batch i leaves the other batches' events around it. */
  lemma FlattenRemove(batches: seq<seq<Event>>, i: nat)
    requires i < |batches|
    ensures Flatten(batches) == Flatten(batches[..i]) + batches[i] + Flatten(batches[i + 1..])
    ensures Flatten(batches[..i] + batches[i + 1..]) == Flatten(batches[..i]) + Flatten(batches[i + 1..])
  {
    var before := batches[..i];
    var rest := batches[i..];
    assert batches == before + rest;
    FlattenAppend(before, rest);
    assert rest[1..] == batches[i + 1..];
    FlattenAppend(before, batches[i + 1..]);
  }

  /**
   * Settling the batch e between the batches fb and fa: delivering it, or
   * putting it in front of the queue q, keeps every event counted; and when
   * it is the oldest batch (fb empty) a delivery keeps the order, as does a
   * failure when it is the only batch (fa empty).
   */
  lemma SettleAccounting(t: seq<Event>, d: seq<Event>, fb: seq<Event>, e: seq<Event>, fa: seq<Event>, q: seq<Event>)
    ensures multiset(t) == multiset(d) + multiset(fb + e + fa) + multiset(q) ==>
      multiset(t) == multiset(d + e) + multiset(fb + fa) + multiset(q) &&
      multiset(t) == multiset(d) + multiset(fb + fa) + multiset(e + q)
    ensures t == d + (fb + e + fa) + q && fb == [] ==> t == (d + e) + (fb + fa) + q
    ensures t == d + (fb + e + fa) + q && fb == [] && fa == [] ==> t == d + (fb + fa) + (e + q)
  {
    assert multiset(fb + e + fa) == multiset(fb) + multiset(e) + multiset(fa);
    assert multiset(fb + fa) == multiset(fb) + multiset(fa);
    if fb == [] {
      assert fb + e + fa == e + fa;
      assert fb + fa == fa;
    }
  }

  class BehaviorOptTracker {
    var trackingId: string
    var userId: string
    var sessionId: string
    var assignments: map<string, string>
    var eventQueue: seq<Event>
    /** The snapshots whose `fetch` has not settled yet, oldest first. */
    var inFlight: seq<seq<Event>>
    /** The events whose `fetch` resolved, at any HTTP status, in the order they were sent. */
    var delivered: seq<Event>
    /** Every event ever tracked, in order. */
    ghost var tracked: seq<Event>

    /** No event is lost or duplicated: each tracked event is delivered, in flight or queued. */
    ghost predicate NoLoss()
      reads this
    {
      multiset(tracked) == multiset(delivered) + multiset(Flatten(inFlight)) + multiset(eventQueue)
    }

    /** The stronger sequential picture: delivered, then in flight, then queued, in tracking order. */
    ghost predicate InOrder()
      reads this
    {
      tracked == delivered + Flatten(inFlight) + eventQueue
    }

    constructor(trackingId: string, sessionId: string, userId: string)
      ensures this.trackingId == trackingId && this.sessionId == sessionId && this.userId == userId
      ensures assignments == map[] && eventQueue == [] && inFlight == [] && delivered == [] && tracked == []
      ensures NoLoss() && InOrder()
    {
      this.trackingId := trackingId;
      this.sessionId := sessionId;
      this.userId := userId;
      assignments := map[];
      eventQueue := [];
      inFlight := [];
      delivered := [];
      tracked := [];
    }

    /** The event `track` would queue now. */
    function NewEvent(eventType: string, properties: Json, browser: Browser, timestamp: string): Event
      reads this
    {
      Event(userId, eventType, Or(properties, Obj(map[])), ContextOf(browser), sessionId, timestamp)
    }

    /** The synchronous part of `flush`: nothing on an empty queue, otherwise snapshot and clear. */
    method BeginFlush()
      modifies this
      ensures old(eventQueue) == [] ==> inFlight == old(inFlight)
      ensures old(eventQueue) != [] ==> inFlight == old(inFlight) + [old(eventQueue)]
      ensures eventQueue == [] && delivered == old(delivered) && tracked == old(tracked)
      ensures userId == old(userId) && sessionId == old(sessionId) && assignments == old(assignments)
      ensures trackingId == old(trackingId)
      ensures old(NoLoss()) ==> NoLoss()
      ensures old(InOrder()) ==> InOrder()
    {
      if |eventQueue| == 0 {
        return;
      }
      var events := eventQueue;
      FlattenAppend(inFlight, [events]);
      assert Flatten([events]) == events + Flatten([]);
      inFlight := inFlight + [events];
      eventQueue := [];
    }

    /**
     * The end of the flush of batch i: on success the batch is delivered; on
     * failure `events.concat(this.eventQueue)` puts it back in front of the
     * events queued meanwhile.
     */
    method SettleFlush(i: nat, sent: bool)
      requires i < |inFlight|
      modifies this
      ensures inFlight == old(inFlight[..i] + inFlight[i + 1..])
      ensures sent ==> delivered == old(delivered) + old(inFlight[i]) && eventQueue == old(eventQueue)
      ensures !sent ==> eventQueue == old(inFlight[i]) + old(eventQueue) && delivered == old(delivered)
      ensures tracked == old(tracked) && userId == old(userId) && sessionId == old(sessionId)
      ensures assignments == old(assignments) && trackingId == old(trackingId)
      ensures old(NoLoss()) ==> NoLoss()
      ensures old(InOrder()) && i == 0 && (sent || old(|inFlight|) == 1) ==> InOrder()
    {
      var events := inFlight[i];
      var before, after := inFlight[..i], inFlight[i + 1..];
      FlattenRemove(inFlight, i);
      ghost var fb, fa := Flatten(before), Flatten(after);
      ghost var d, q := delivered, eventQueue;
      SettleAccounting(tracked, d, fb, events, fa, q);
      if i == 0 {
        assert before == [];
      }
      if |inFlight| == 1 {
        assert after == [];
      }
      inFlight := before + after;
      if sent {
        delivered := delivered + events;
      } else {
        eventQueue := events + eventQueue;
      }
    }

    /** `track`: append one event; at 10 queued events flush, so fewer than 10 remain queued. */
    method Track(eventType: string, properties: Json, browser: Browser, timestamp: string)
      modifies this
      ensures var q := old(eventQueue) + [old(NewEvent(eventType, properties, browser, timestamp))];
        (|q| >= BatchSize ==> eventQueue == [] && inFlight == old(inFlight) + [q]) &&
        (|q| < BatchSize ==> eventQueue == q && inFlight == old(inFlight))
      ensures |eventQueue| < BatchSize
      ensures tracked == old(tracked) + [old(NewEvent(eventType, properties, browser, timestamp))]
      ensures delivered == old(delivered) && userId == old(userId) && sessionId == old(sessionId)
      ensures assignments == old(assignments) && trackingId == old(trackingId)
      ensures old(NoLoss()) ==> NoLoss()
      ensures old(InOrder()) ==> InOrder()
    {
      var event := NewEvent(eventType, properties, browser, timestamp);
      ghost var t, d, f, q := tracked, delivered, Flatten(inFlight), eventQueue;
      assert multiset(t + [event]) == multiset(t) + multiset{event};
      assert multiset(q + [event]) == multiset(q) + multiset{event};
      assert t == d + f + q ==> t + [event] == d + f + (q + [event]);
      eventQueue := eventQueue + [event];
      tracked := tracked + [event];
      if |eventQueue| >= BatchSize {
        BeginFlush();
      }
    }

    /** `identify`: switch the user, then track an `$identify` event carrying the new id. */
    method Identify(newUserId: string, properties: Json, browser: Browser, timestamp: string)
      modifies this
      ensures userId == newUserId && sessionId == old(sessionId)
      ensures var q := old(eventQueue) + [Event(newUserId, "$identify", Or(properties, Obj(map[])),
                                                ContextOf(browser), old(sessionId), timestamp)];
        (|q| >= BatchSize ==> eventQueue == [] && inFlight == old(inFlight) + [q]) &&
        (|q| < BatchSize ==> eventQueue == q && inFlight == old(inFlight))
      ensures tracked == old(tracked) + [Event(newUserId, "$identify", Or(properties, Obj(map[])),
                                               ContextOf(browser), old(sessionId), timestamp)]
      ensures |eventQueue| < BatchSize && delivered == old(delivered) && assignments == old(assignments)
      ensures trackingId == old(trackingId)
      ensures old(NoLoss()) ==> NoLoss()
      ensures old(InOrder()) ==> InOrder()
    {
      userId := newUserId;
      Track("$identify", properties, browser, timestamp);
    }

    /** `loadAssignments` after its request: `data.assignments || {}` when the response is ok. */
    method LoadAssignments(ok: bool, received: Option<map<string, string>>)
      modifies this
      ensures ok ==> assignments == (if received.Some? then received.value else map[])
      ensures !ok ==> assignments == old(assignments)
      ensures eventQueue == old(eventQueue) && inFlight == old(inFlight) && delivered == old(delivered)
      ensures tracked == old(tracked) && userId == old(userId) && sessionId == old(sessionId)
      ensures trackingId == old(trackingId)
    {
      if ok {
        assignments := if received.Some? then received.value else map[];
      }
    }

    /** `getVariant`: the stored assignment, or null when it is absent or empty. */
    function GetVariant(experimentId: string): (r: Option<string>)
      reads this
      ensures r.Some? <==> experimentId in assignments && assignments[experimentId] != ""
      ensures r.Some? ==> r.value == assignments[experimentId]
    {
      if experimentId in assignments && assignments[experimentId] != "" then Some(assignments[experimentId]) else None
    }
  }
}
