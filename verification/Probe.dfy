/** The API-readiness probe and the TTL cache that spares it the request. */
module Probe {
  import opened Options
  import opened Conditions
  import opened Text

  /** `key` names the resource, `uid` tells it from a recreated one. */
  datatype Params = Params(
    key: string, uid: string, subject: string, endpointConfigured: bool, endpoint: string, generation: int,
    conditionType: string, healthyReason: string, unhealthyReason: string, ttl: int, requeueAfter: nat)

  datatype Entry = Entry(uid: string, endpoint: string, probedAt: int)

  /** What a GET came to: a status, a transport error classified into a reason
      and a message, a cancelled parent context, or a request that could not be
      built. */
  datatype Response = Status(code: nat) | TransportError(reason: string, message: string) | Cancelled | Unbuildable

  datatype Result = Settled | Requeue(after: nat) | Aborted

  class ProbeCache {
    var entries: map<string, Entry>

    constructor ()
      ensures entries == map[]
    {
      entries := map[];
    }

    predicate Hit(key: string, uid: string, endpoint: string, ttl: int, now: int)
      reads this
    {
      key in entries && Matches(entries[key], uid, endpoint, ttl, now)
    }

    method Store(key: string, uid: string, endpoint: string, now: int)
      modifies this
      ensures entries == old(entries)[key := Entry(uid, endpoint, now)]
    {
      entries := entries[key := Entry(uid, endpoint, now)];
    }

    method Evict(key: string)
      modifies this
      ensures entries == old(entries) - {key}
    {
      entries := entries - {key};
    }
  }

  predicate Matches(e: Entry, uid: string, endpoint: string, ttl: int, now: int) {
    e.uid == uid && e.endpoint == endpoint && now - e.probedAt < ttl
  }

  /* ---- One pass ---- */

  predicate Success(r: Response) { r.Status? && 200 <= r.code < 300 }

  function Healthy(p: Params): Condition {
    Condition(p.conditionType, True, p.generation, p.healthyReason, p.subject + " is responding at " + p.endpoint, None)
  }

  function Unhealthy(p: Params, reason: string, message: string): Condition {
    Condition(p.conditionType, False, p.generation, reason, message, None)
  }

  function FailedStatus(p: Params, code: nat): Condition {
    Unhealthy(p, p.unhealthyReason, p.subject + " returned HTTP " + Decimal(code))
  }

  predicate CacheHit(entries: map<string, Entry>, p: Params, conditions: seq<Condition>, now: int) {
    var current := GetCondition(conditions, p.conditionType);
    && current.Some? && current.value.status == True
    && p.key in entries && Matches(entries[p.key], p.uid, p.endpoint, p.ttl, now)
  }

  datatype State = State(entries: map<string, Entry>, conditions: seq<Condition>)

  /** The uncached probe: a GET and what it makes of the response. */
  function ProbePass(s: State, p: Params, response: Response, now: int, stamp: nat): (State, Result) {
    match response
    case Unbuildable => (s, Aborted)
    case Cancelled => (s, Aborted)
    case TransportError(reason, message) =>
      (State(s.entries - {p.key}, SetCondition(s.conditions, Unhealthy(p, reason, message), stamp)), Requeue(p.requeueAfter))
    case Status(code) =>
      if Success(response) then
        (State(s.entries[p.key := Entry(p.uid, p.endpoint, now)], SetCondition(s.conditions, Healthy(p), stamp)), Settled)
      else
        (State(s.entries - {p.key}, SetCondition(s.conditions, FailedStatus(p, code), stamp)), Requeue(p.requeueAfter))
  }

  /** The pass as the source runs it: the endpoint gate, the cache, the probe. */
  function Pass(s: State, p: Params, response: Response, now: int, stamp: nat): (State, Result) {
    if !p.endpointConfigured then
      (s.(conditions := SetCondition(s.conditions, Unhealthy(p, "EndpointNotReady", "endpoint not yet configured"), stamp)),
       Requeue(p.requeueAfter))
    else if CacheHit(s.entries, p, s.conditions, now) then
      (s.(conditions := SetCondition(s.conditions, Healthy(p), stamp)), Settled)
    else ProbePass(s, p, response, now, stamp)
  }

  /** Whether the pass fires its GET. */
  predicate Probes(s: State, p: Params, now: int) {
    p.endpointConfigured && !CacheHit(s.entries, p, s.conditions, now)
  }

  class Reconciler {
    const cache: ProbeCache
    var conditions: seq<Condition>

    constructor (conditions: seq<Condition>)
      ensures fresh(cache) && Current() == State(map[], conditions)
    {
      cache := new ProbeCache();
      this.conditions := conditions;
    }

    function Current(): State
      reads this, cache
    {
      State(cache.entries, conditions)
    }

    method ReconcileProbe(p: Params, response: Response, now: int, stamp: nat) returns (r: Result)
      modifies this, cache
      ensures (Current(), r) == Pass(old(Current()), p, response, now, stamp)
    {
      if !p.endpointConfigured {
        conditions := SetStatusCondition(conditions, Unhealthy(p, "EndpointNotReady", "endpoint not yet configured"), stamp);
        return Requeue(p.requeueAfter);
      }
      var current := GetCondition(conditions, p.conditionType);
      if current.Some? && current.value.status == True && cache.Hit(p.key, p.uid, p.endpoint, p.ttl, now) {
        conditions := SetStatusCondition(conditions, Healthy(p), stamp);
        return Settled;
      }
      match response
      case Unbuildable => return Aborted;
      case Cancelled => return Aborted;
      case TransportError(reason, message) =>
        cache.Evict(p.key);
        conditions := SetStatusCondition(conditions, Unhealthy(p, reason, message), stamp);
        return Requeue(p.requeueAfter);
      case Status(code) =>
        if 200 <= code < 300 {
          cache.Store(p.key, p.uid, p.endpoint, now);
          conditions := SetStatusCondition(conditions, Healthy(p), stamp);
          return Settled;
        }
        cache.Evict(p.key);
        conditions := SetStatusCondition(conditions, FailedStatus(p, code), stamp);
        return Requeue(p.requeueAfter);
    }
  }

  /* ---- What a pass comes to ---- */

  ghost predicate Says(cs: seq<Condition>, p: Params, status: ConditionStatus, reason: string, message: string) {
    var c := GetCondition(cs, p.conditionType);
    && c.Some? && c.value.generation == p.generation
    && c.value.status == status && c.value.reason == reason && c.value.message == message
  }

  lemma SetSays(cs: seq<Condition>, p: Params, status: ConditionStatus, reason: string, message: string, stamp: nat)
    ensures Says(SetCondition(cs, Condition(p.conditionType, status, p.generation, reason, message, None), stamp), p, status, reason, message)
  {
    SetThenGet(cs, Condition(p.conditionType, status, p.generation, reason, message, None), stamp, p.conditionType);
  }

  /** The condition is True and rests on a success of this very resource, at this
      endpoint, younger than the TTL. */
  ghost predicate Served(s: State, p: Params, now: int) {
    && GetCondition(s.conditions, p.conditionType).Some?
    && GetCondition(s.conditions, p.conditionType).value.status == True
    && p.key in s.entries && s.entries[p.key].uid == p.uid && s.entries[p.key].endpoint == p.endpoint
    && now - s.entries[p.key].probedAt < p.ttl
  }

  /** Without an endpoint, or served from the cache, there is no GET: the one is
      not ready and requeues, the other is ready; the cache stays. */
  lemma PassWithoutProbe(s: State, p: Params, response: Response, now: int, stamp: nat)
    requires !p.endpointConfigured || Served(s, p, now)
    ensures
      var (s', r) := Pass(s, p, response, now, stamp);
      && s'.entries == s.entries
      && (!p.endpointConfigured ==>
            r == Requeue(p.requeueAfter) && Says(s'.conditions, p, False, "EndpointNotReady", "endpoint not yet configured"))
      && (p.endpointConfigured ==>
            r == Settled && Says(s'.conditions, p, True, p.healthyReason, p.subject + " is responding at " + p.endpoint))
  {
    SetSays(s.conditions, p, False, "EndpointNotReady", "endpoint not yet configured", stamp);
    SetSays(s.conditions, p, True, p.healthyReason, p.subject + " is responding at " + p.endpoint, stamp);
  }

  /** A GET that comes back with a 2xx is cached and settles; any other status and
      any transport error is reported, evicted and requeued; a cancelled or
      unbuildable one leaves no trace. */
  lemma ProbeOutcome(s: State, p: Params, response: Response, now: int, stamp: nat)
    requires p.endpointConfigured && !Served(s, p, now)
    ensures
      var (s', r) := Pass(s, p, response, now, stamp);
      match response
      case Status(code) =>
        if 200 <= code < 300 then
          && r == Settled && s'.entries == s.entries[p.key := Entry(p.uid, p.endpoint, now)]
          && Says(s'.conditions, p, True, p.healthyReason, p.subject + " is responding at " + p.endpoint)
        else
          && r == Requeue(p.requeueAfter) && s'.entries == s.entries - {p.key}
          && Says(s'.conditions, p, False, p.unhealthyReason, p.subject + " returned HTTP " + Decimal(code))
      case TransportError(reason, message) =>
        && r == Requeue(p.requeueAfter) && s'.entries == s.entries - {p.key}
        && Says(s'.conditions, p, False, reason, message)
      case _ => s' == s && r == Aborted
  {
    match response
    case Status(code) =>
      SetSays(s.conditions, p, True, p.healthyReason, p.subject + " is responding at " + p.endpoint, stamp);
      SetSays(s.conditions, p, False, p.unhealthyReason, p.subject + " returned HTTP " + Decimal(code), stamp);
    case TransportError(reason, message) => SetSays(s.conditions, p, False, reason, message, stamp);
    case _ =>
  }

  /* ---- Over whole runs ---- */

  /** A GET that was neither cancelled nor unbuildable. */
  datatype Get = Get(uid: string, endpoint: string, success: bool, at: int)

  /** Every resource's conditions, the shared cache, and the last GET per key. */
  datatype World = World(conditions: map<string, seq<Condition>>, entries: map<string, Entry>, last: map<string, Get>)

  /** A pass over one resource, or its deletion. */
  datatype Event =
    | Reconcile(p: Params, response: Response, now: int, stamp: nat)
    | Gone(key: string)
    | Edited(key: string, conditions: seq<Condition>)

  function ConditionsOf(w: World, key: string): seq<Condition> {
    if key in w.conditions then w.conditions[key] else []
  }

  function Before(w: World, key: string): State { State(w.entries, ConditionsOf(w, key)) }

  function Next(w: World, e: Event): World {
    match e
    case Gone(key) => w.(entries := w.entries - {key}, conditions := w.conditions - {key})
    case Edited(key, conditions) => w.(conditions := w.conditions[key := conditions])
    case Reconcile(p, response, now, stamp) =>
      var s := Pass(Before(w, p.key), p, response, now, stamp).0;
      World(w.conditions[p.key := s.conditions], s.entries,
            if Probes(Before(w, p.key), p, now) && (response.Status? || response.TransportError?)
            then w.last[p.key := Get(p.uid, p.endpoint, Success(response), now)] else w.last)
  }

  function After(events: seq<Event>): World {
    if events == [] then World(map[], map[], map[]) else Next(After(events[..|events| - 1]), events[|events| - 1])
  }

  /** A cached entry is the last GET of its key, and that was a success. */
  ghost predicate CacheOk(w: World) {
    forall key :: key in w.entries ==>
      key in w.last && w.last[key] == Get(w.entries[key].uid, w.entries[key].endpoint, true, w.entries[key].probedAt)
  }

  lemma NextOk(w: World, e: Event)
    requires CacheOk(w)
    ensures CacheOk(Next(w, e))
  {
  }

  lemma {:induction false} CacheIsLastSuccess(events: seq<Event>)
    ensures CacheOk(After(events))
  {
    if events != [] {
      CacheIsLastSuccess(events[..|events| - 1]);
      NextOk(After(events[..|events| - 1]), events[|events| - 1]);
    }
  }

  /** The condition this pass leaves. */
  function Written(w: World, e: Event): Option<Condition>
    requires e.Reconcile?
  {
    GetCondition(ConditionsOf(Next(w, e), e.p.key), e.p.conditionType)
  }

  /** A pass that was not cut short leaves the condition True exactly when its own
      GET succeeded, or it was served from a success of the same resource at the
      same endpoint that no later GET of that resource followed and that is
      younger than the TTL. */
  lemma TrueMeansRecentSuccess(events: seq<Event>, p: Params, response: Response, now: int, stamp: nat)
    ensures
      var w := After(events);
      var e := Reconcile(p, response, now, stamp);
      var probes := Probes(Before(w, p.key), p, now);
      !(probes && (response.Cancelled? || response.Unbuildable?)) ==>
        && Written(w, e).Some?
        && (Written(w, e).value.status == True ==>
              || (probes && Success(response))
              || (p.key in w.last && w.last[p.key].uid == p.uid && w.last[p.key].endpoint == p.endpoint
                  && w.last[p.key].success && now - w.last[p.key].at < p.ttl))
        && (probes && Success(response) ==> Written(w, e).value.status == True)
  {
    CacheIsLastSuccess(events);
    var w := After(events);
    var s := Before(w, p.key);
    forall c: Condition ensures
      GetCondition(SetCondition(s.conditions, c, stamp), c.kind) == Some(Upserted(GetCondition(s.conditions, c.kind), c, stamp))
    {
      SetThenGet(s.conditions, c, stamp, c.kind);
    }
  }

  /** The cache refines the probe: a pass served from it writes the conditions a
      probe that succeeds would write, and keeps the cache. */
  lemma CachedPassIsSuccessfulProbe(s: State, p: Params, response: Response, now: int, stamp: nat)
    requires p.endpointConfigured && !Probes(s, p, now)
    ensures
      var cached := Pass(s, p, response, now, stamp);
      var probed := ProbePass(s, p, Status(200), now, stamp);
      cached.0.conditions == probed.0.conditions && cached.1 == probed.1 && cached.0.entries == s.entries
  {
  }

  /* ---- What leaves no trace ---- */

  /** A pass whose GET was cut short. */
  predicate CutShort(w: World, e: Event) {
    e.Reconcile? && Probes(Before(w, e.p.key), e.p, e.now) && (e.response.Cancelled? || e.response.Unbuildable?)
  }

  /** The run without the passes that were cut short. */
  function Completed(events: seq<Event>): seq<Event> {
    if events == [] then []
    else
      var rest, e := events[..|events| - 1], events[|events| - 1];
      if CutShort(After(rest), e) then Completed(rest) else Completed(rest) + [e]
  }

  /** The same cache, GETs and conditions, an absent list being an empty one. */
  ghost predicate SameView(v: World, w: World) {
    v.entries == w.entries && v.last == w.last && forall key :: ConditionsOf(v, key) == ConditionsOf(w, key)
  }

  lemma SameViewNext(v: World, w: World, e: Event)
    requires SameView(v, w)
    ensures SameView(Next(v, e), Next(w, e))
  {
    if e.Reconcile? { assert Before(v, e.p.key) == Before(w, e.p.key); }
    forall key ensures ConditionsOf(Next(v, e), key) == ConditionsOf(Next(w, e), key) {
      assert ConditionsOf(v, key) == ConditionsOf(w, key);
    }
  }

  /** A pass cut short is no signal: a run ends with the conditions, the cache and
      the GETs it would end with, had such passes never happened. */
  lemma {:induction false} CancelledChangesNothing(events: seq<Event>)
    ensures SameView(After(Completed(events)), After(events))
  {
    if events != [] {
      var rest, e := events[..|events| - 1], events[|events| - 1];
      CancelledChangesNothing(rest);
      if CutShort(After(rest), e) {
        assert SameView(After(rest), Next(After(rest), e));
      } else {
        SameViewNext(After(Completed(rest)), After(rest), e);
        assert (Completed(rest) + [e])[..|Completed(rest)|] == Completed(rest);
      }
    }
  }

  /** After a failed GET the next pass over the resource probes again, however
      many cancelled passes and edits have come in between. */
  lemma FailureForcesProbe(events: seq<Event>, p: Params, now: int)
    requires p.endpointConfigured && p.key in After(events).last && !After(events).last[p.key].success
    ensures Probes(Before(After(events), p.key), p, now)
  {
    CacheIsLastSuccess(events);
  }
}
