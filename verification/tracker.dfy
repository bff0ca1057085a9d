/**
 * The pod tracker: a bounded, least-recently-used cache from
 * `namespace + "_" + name` to pod records, filled by the cluster's pod
 * events and, on a miss, by a direct look-up through the cluster client.
 */
module K8Tracker {
  import opened Wrappers
  import opened Lru

  /** The parts of a pod record the tracker reads: its identity and the node
      it is scheduled on (empty while unscheduled). The rest of the record is
      carried along untouched, here as its labels. */
  datatype Pod = Pod(namespace: string, name: string, nodeName: string, labels: map<string, string>)

  /** What reaches an event handler: a pod, the informer's tombstone for an
      object whose final state is unknown (its key and last known object), or
      anything else. */
  datatype Object =
    | PodObject(pod: Pod)
    | DeletedFinalStateUnknown(key: string, obj: Object)
    | Unrecognised

  /** One notification from the informer, routed to `OnAdd`, `OnUpdate` or `OnDelete`. */
  datatype Event =
    | Added(obj: Object)
    | Updated(oldObj: Object, newObj: Object)
    | Deleted(obj: Object)

  /** The cluster client's point look-up by namespace and name; `None` stands
      for every error it may return, "not found" included. */
  type Client = (string, string) -> Option<Pod>

  /** The cache entries: keys and pods in recency order, oldest first. */
  type Entries = seq<(string, Pod)>

  /** The cache key of a pod: its namespace, an underscore, and its name. */
  function CacheKey(namespace: string, name: string): (key: string)
    ensures |key| == |namespace| + 1 + |name|
    ensures key[..|namespace|] == namespace && key[|namespace|] == '_'
    ensures key[|namespace| + 1..] == name
  {
    namespace + "_" + name
  }

  function KeyOf(pod: Pod): (key: string) {
    CacheKey(pod.namespace, pod.name)
  }

  /** The key is not injective: an underscore in a namespace lets two
      different pods share one key. */
  lemma CacheKeyCollides()
    ensures CacheKey("a_b", "c") == CacheKey("a", "b_c")
    ensures ("a_b", "c") != ("a", "b_c")
  {
    assert "a_b" != "a";
  }

  /** A pod is trackable when it is scheduled on some node and, if the tracker
      is scoped to a node, on that node. */
  function CanTrackPod(nodeName: string, pod: Pod): (ok: bool)
    ensures pod.nodeName == "" ==> !ok
    ensures ok <==> pod.nodeName != "" && (nodeName == "" || nodeName == pod.nodeName)
  {
    if pod.nodeName == "" then false
    else if nodeName != "" && nodeName != pod.nodeName then false
    else true
  }

  /** The pod a delete notification is about: the pod itself, or the pod inside
      a tombstone; any other payload names none. */
  function DeletedPod(obj: Object): (r: Option<Pod>)
    ensures r.Some? <==> obj.PodObject? || (obj.DeletedFinalStateUnknown? && obj.obj.PodObject?)
    ensures obj.PodObject? ==> r == Some(obj.pod)
    ensures obj.DeletedFinalStateUnknown? && obj.obj.PodObject? ==> r == Some(obj.obj.pod)
  {
    match obj
    case PodObject(pod) => Some(pod)
    case DeletedFinalStateUnknown(_, PodObject(pod)) => Some(pod)
    case _ => None
  }

  /** The entries after `OnAdd(obj)`. */
  function AfterAdd(nodeName: string, capacity: nat, s: Entries, obj: Object): (r: Entries)
    ensures |s| <= capacity ==> |r| <= capacity
    ensures !obj.PodObject? || !CanTrackPod(nodeName, obj.pod) ==> r == s
    ensures 0 < capacity && obj.PodObject? && CanTrackPod(nodeName, obj.pod) ==>
              Find(r, KeyOf(obj.pod)) == Some(obj.pod)
  {
    if obj.PodObject? && CanTrackPod(nodeName, obj.pod) then Put(s, KeyOf(obj.pod), obj.pod, capacity)
    else s
  }

  /** The entries after `OnUpdate(oldObj, newObj)`. */
  function AfterUpdate(nodeName: string, capacity: nat, s: Entries, oldObj: Object, newObj: Object): (r: Entries)
    ensures |s| <= capacity ==> |r| <= capacity
    ensures !oldObj.PodObject? || !newObj.PodObject? || !CanTrackPod(nodeName, newObj.pod) ==> r == s
    ensures 0 < capacity && oldObj.PodObject? && newObj.PodObject? && CanTrackPod(nodeName, newObj.pod) ==>
              Find(r, KeyOf(newObj.pod)) == Some(newObj.pod)
  {
    if !oldObj.PodObject? || !newObj.PodObject? then s
    else if CanTrackPod(nodeName, newObj.pod) then Put(s, KeyOf(newObj.pod), newObj.pod, capacity)
    else s
  }

  /** The entries after `OnDelete(obj)`. */
  function AfterDelete(s: Entries, obj: Object): (r: Entries)
    ensures |r| <= |s|
    ensures DeletedPod(obj).None? ==> r == s
    ensures DeletedPod(obj).Some? ==> Find(r, KeyOf(DeletedPod(obj).value)) == None
    ensures forall j :: Find(r, j).Some? ==> Find(r, j) == Find(s, j)
  {
    match DeletedPod(obj)
    case Some(pod) => Without(s, KeyOf(pod))
    case None => s
  }

  /** The entries after the handler for `e` has run. */
  function Step(nodeName: string, capacity: nat, s: Entries, e: Event): (r: Entries)
    ensures |s| <= capacity ==> |r| <= capacity
    ensures e.Deleted? ==> forall j :: Find(r, j).Some? ==> Find(r, j) == Find(s, j)
  {
    match e
    case Added(obj) => AfterAdd(nodeName, capacity, s, obj)
    case Updated(oldObj, newObj) => AfterUpdate(nodeName, capacity, s, oldObj, newObj)
    case Deleted(obj) => AfterDelete(s, obj)
  }

  /** What `Get(namespace, name)` returns, and the entries afterwards. */
  function Lookup(client: Client, capacity: nat, s: Entries, namespace: string, name: string): (res: (Option<Pod>, Entries))
    ensures Find(s, CacheKey(namespace, name)).Some? ==> res.0 == Find(s, CacheKey(namespace, name))
    ensures Find(s, CacheKey(namespace, name)).None? ==> res.0 == client(namespace, name)
    ensures res.0.None? ==> res.1 == s
    ensures |s| <= capacity ==> |res.1| <= capacity
  {
    var key := CacheKey(namespace, name);
    match Find(s, key)
    case Some(pod) => (Some(pod), Touch(s, key))
    case None =>
      match client(namespace, name)
      case Some(pod) => (Some(pod), PutIfAbsent(s, key, pod, capacity))
      case None => (None, s)
  }

  /** A call into the tracker: an event from the informer, or a `Get`. */
  datatype Call = Handle(e: Event) | Fetch(namespace: string, name: string)

  /** The entries after a sequence of calls, one at a time. */
  function Replay(nodeName: string, client: Client, capacity: nat, s: Entries, calls: seq<Call>): (r: Entries)
    ensures |s| <= capacity ==> |r| <= capacity
    decreases |calls|
  {
    if calls == [] then s
    else
      var next := match calls[0]
        case Handle(e) => Step(nodeName, capacity, s, e)
        case Fetch(namespace, name) => Lookup(client, capacity, s, namespace, name).1;
      Replay(nodeName, client, capacity, next, calls[1..])
  }

  /** `OnAdd`: a trackable pod is stored under its key, overwriting an older
      record and becoming the most recently used entry, and other keys keep
      their records unless one was evicted; an untrackable pod or a payload
      that is not a pod changes nothing. */
  lemma AddEventSpec(nodeName: string, capacity: nat, s: Entries, obj: Object)
    requires 0 < capacity && WellFormed(s, capacity)
    ensures var r := AfterAdd(nodeName, capacity, s, obj);
      && WellFormed(r, capacity)
      && (obj.PodObject? && CanTrackPod(nodeName, obj.pod) ==>
            Find(r, KeyOf(obj.pod)) == Some(obj.pod) && r[|r| - 1] == (KeyOf(obj.pod), obj.pod)
            && r == Put(s, KeyOf(obj.pod), obj.pod, capacity))
      && (!obj.PodObject? || !CanTrackPod(nodeName, obj.pod) ==> r == s)
  {
    if obj.PodObject? && CanTrackPod(nodeName, obj.pod) {
      PutSpec(s, KeyOf(obj.pod), obj.pod, capacity);
    }
  }

  /** `OnUpdate`: only the new pod is written, and only when both payloads are
      pods and the new pod is trackable; otherwise nothing changes, so an entry
      whose pod has become untrackable stays in place. */
  lemma UpdateEventSpec(nodeName: string, capacity: nat, s: Entries, oldObj: Object, newObj: Object)
    requires 0 < capacity && WellFormed(s, capacity)
    ensures var r := AfterUpdate(nodeName, capacity, s, oldObj, newObj);
      && WellFormed(r, capacity)
      && (oldObj.PodObject? && newObj.PodObject? && CanTrackPod(nodeName, newObj.pod) ==>
            Find(r, KeyOf(newObj.pod)) == Some(newObj.pod)
            && r == Put(s, KeyOf(newObj.pod), newObj.pod, capacity))
      && (!oldObj.PodObject? || !newObj.PodObject? ==> r == s)
      && (newObj.PodObject? && !CanTrackPod(nodeName, newObj.pod) ==>
            r == s && Find(r, KeyOf(newObj.pod)) == Find(s, KeyOf(newObj.pod)))
  {
    if oldObj.PodObject? && newObj.PodObject? && CanTrackPod(nodeName, newObj.pod) {
      PutSpec(s, KeyOf(newObj.pod), newObj.pod, capacity);
    }
  }

  /** `OnDelete`: the key of the pod, or of the pod inside a tombstone, is
      removed whatever the pod's trackability, every other key keeps its
      record, and removing an absent key changes nothing; any other payload
      changes nothing. */
  lemma DeleteEventSpec(capacity: nat, s: Entries, obj: Object)
    requires WellFormed(s, capacity)
    ensures var r := AfterDelete(s, obj);
      && WellFormed(r, capacity)
      && (obj.PodObject? ==> r == Without(s, KeyOf(obj.pod)))
      && (obj.DeletedFinalStateUnknown? && obj.obj.PodObject? ==> r == Without(s, KeyOf(obj.obj.pod)))
      && (!obj.PodObject? && !(obj.DeletedFinalStateUnknown? && obj.obj.PodObject?) ==> r == s)
      && (DeletedPod(obj).Some? ==>
            var key := KeyOf(DeletedPod(obj).value);
            && Find(r, key) == None
            && (forall j :: j != key ==> Find(r, j) == Find(s, j))
            && (Find(s, key) == None ==> r == s))
  {
    if DeletedPod(obj).Some? {
      WithoutSpec(s, KeyOf(DeletedPod(obj).value), capacity);
    }
  }

  /** Every handler keeps the cache within its capacity with distinct keys. */
  lemma StepKeepsWellFormed(nodeName: string, capacity: nat, s: Entries, e: Event)
    requires 0 < capacity && WellFormed(s, capacity)
    ensures WellFormed(Step(nodeName, capacity, s, e), capacity)
  {
    match e
    case Added(obj) => AddEventSpec(nodeName, capacity, s, obj);
    case Updated(oldObj, newObj) => UpdateEventSpec(nodeName, capacity, s, oldObj, newObj);
    case Deleted(obj) => DeleteEventSpec(capacity, s, obj);
  }

  /** `Get` on a hit returns the cached pod, whatever the client would say
      (the client is not consulted), keeps every record and moves the key to
      the most recently used position, the other entries keeping their order. */
  lemma LookupHit(client: Client, other: Client, capacity: nat, s: Entries, namespace: string, name: string)
    requires WellFormed(s, capacity)
    requires Find(s, CacheKey(namespace, name)).Some?
    ensures var (r, s') := Lookup(client, capacity, s, namespace, name);
      && r == Find(s, CacheKey(namespace, name))
      && Lookup(other, capacity, s, namespace, name) == (r, s')
      && WellFormed(s', capacity) && |s'| == |s|
      && (forall j :: Find(s', j) == Find(s, j))
      && s'[|s'| - 1] == (CacheKey(namespace, name), r.value)
      && (forall i :: 0 <= i < |s| && s[i].0 == CacheKey(namespace, name) ==> s' == s[..i] + s[i + 1..] + [s[i]])
  {
    TouchSpec(s, CacheKey(namespace, name), capacity);
  }

  /** `Get` on a miss returns what the client returns. A pod found by the
      client is added under the key (the key was absent, so nothing is
      overwritten); a failed look-up leaves the cache as it was. */
  lemma LookupMiss(client: Client, capacity: nat, s: Entries, namespace: string, name: string)
    requires 0 < capacity && WellFormed(s, capacity)
    requires Find(s, CacheKey(namespace, name)).None?
    ensures var (r, s') := Lookup(client, capacity, s, namespace, name);
      && r == client(namespace, name)
      && WellFormed(s', capacity)
      && (r.Some? ==> Find(s', CacheKey(namespace, name)) == r
                      && s' == Put(s, CacheKey(namespace, name), r.value, capacity))
      && (r.None? ==> s' == s)
  {
    var key := CacheKey(namespace, name);
    if client(namespace, name).Some? {
      PutIfAbsentSpec(s, key, client(namespace, name).value, capacity);
    }
  }

  /** `Get` keeps the cache within its capacity with distinct keys. */
  lemma LookupKeepsWellFormed(client: Client, capacity: nat, s: Entries, namespace: string, name: string)
    requires 0 < capacity && WellFormed(s, capacity)
    ensures WellFormed(Lookup(client, capacity, s, namespace, name).1, capacity)
  {
    if Find(s, CacheKey(namespace, name)).Some? {
      LookupHit(client, client, capacity, s, namespace, name);
    } else {
      LookupMiss(client, capacity, s, namespace, name);
    }
  }

  /** After any sequence of events and look-ups the cache holds at most its
      capacity, each key once. */
  lemma {:induction false} ReplayKeepsWellFormed(nodeName: string, client: Client, capacity: nat, s: Entries, calls: seq<Call>)
    requires 0 < capacity && WellFormed(s, capacity)
    ensures WellFormed(Replay(nodeName, client, capacity, s, calls), capacity)
    decreases |calls|
  {
    if calls != [] {
      var next := match calls[0]
        case Handle(e) => Step(nodeName, capacity, s, e)
        case Fetch(namespace, name) => Lookup(client, capacity, s, namespace, name).1;
      match calls[0] {
        case Handle(e) => StepKeepsWellFormed(nodeName, capacity, s, e);
        case Fetch(namespace, name) => LookupKeepsWellFormed(client, capacity, s, namespace, name);
      }
      ReplayKeepsWellFormed(nodeName, client, capacity, next, calls[1..]);
    }
  }

  /** Read after add: once an add event has stored a trackable pod, a `Get`
      for it returns that pod, whatever the client would say. */
  lemma ReadAfterAdd(nodeName: string, client: Client, capacity: nat, s: Entries, pod: Pod)
    requires 0 < capacity && WellFormed(s, capacity)
    requires CanTrackPod(nodeName, pod)
    ensures Lookup(client, capacity, Step(nodeName, capacity, s, Added(PodObject(pod))), pod.namespace, pod.name).0
            == Some(pod)
  {
    AddEventSpec(nodeName, capacity, s, PodObject(pod));
  }

  /** After a delete event for a pod, trackable or not and present or not, a
      `Get` for it falls back to the client. */
  lemma LookupAfterDeleteFetches(nodeName: string, client: Client, capacity: nat, s: Entries, obj: Object)
    requires 0 < capacity && WellFormed(s, capacity)
    requires DeletedPod(obj).Some?
    ensures var pod := DeletedPod(obj).value;
      Lookup(client, capacity, Step(nodeName, capacity, s, Deleted(obj)), pod.namespace, pod.name).0
      == client(pod.namespace, pod.name)
  {
    DeleteEventSpec(capacity, s, obj);
    var pod := DeletedPod(obj).value;
    LookupMiss(client, capacity, Step(nodeName, capacity, s, Deleted(obj)), pod.namespace, pod.name);
  }

  /** The fallback never clobbers an event's write: when an add event for the
      key is handled between a `Get`'s miss and its insert, the event's pod
      stays cached, although the `Get` returns the client's pod. */
  lemma EventWriteSurvivesFallback(nodeName: string, capacity: nat, s: Entries, pod: Pod, fetched: Pod)
    requires 0 < capacity && WellFormed(s, capacity)
    requires CanTrackPod(nodeName, pod)
    ensures var s1 := Step(nodeName, capacity, s, Added(PodObject(pod)));
      && PutIfAbsent(s1, KeyOf(pod), fetched, capacity) == s1
      && Find(PutIfAbsent(s1, KeyOf(pod), fetched, capacity), KeyOf(pod)) == Some(pod)
  {
    AddEventSpec(nodeName, capacity, s, PodObject(pod));
    var s1 := Step(nodeName, capacity, s, Added(PodObject(pod)));
    PutIfAbsentSpec(s1, KeyOf(pod), fetched, capacity);
  }

  /** Three add events in a row, handled one at a time. */
  lemma ReplayThreeEvents(nodeName: string, client: Client, capacity: nat, s: Entries, e1: Event, e2: Event, e3: Event)
    ensures Replay(nodeName, client, capacity, s, [Handle(e1), Handle(e2), Handle(e3)])
            == Step(nodeName, capacity, Step(nodeName, capacity, Step(nodeName, capacity, s, e1), e2), e3)
  {
    var calls := [Handle(e1), Handle(e2), Handle(e3)];
    var s1 := Step(nodeName, capacity, s, e1);
    var s2 := Step(nodeName, capacity, s1, e2);
    assert calls[1..] == [Handle(e2), Handle(e3)];
    assert [Handle(e2), Handle(e3)][1..] == [Handle(e3)];
    assert [Handle(e3)][1..] == [];
    assert Replay(nodeName, client, capacity, s, calls) == Replay(nodeName, client, capacity, s1, [Handle(e2), Handle(e3)]);
    assert Replay(nodeName, client, capacity, s1, [Handle(e2), Handle(e3)]) == Replay(nodeName, client, capacity, s2, [Handle(e3)]);
  }

  /** With room for two pods and no node scope, add events for three pods
      with distinct keys leave the last two, oldest first. */
  lemma ThreeAddsEvictFirst(a: Pod, b: Pod, c: Pod)
    requires CanTrackPod("", a) && CanTrackPod("", b) && CanTrackPod("", c)
    requires KeyOf(a) != KeyOf(b) && KeyOf(b) != KeyOf(c) && KeyOf(a) != KeyOf(c)
    ensures Step("", 2, Step("", 2, Step("", 2, [], Added(PodObject(a))), Added(PodObject(b))), Added(PodObject(c)))
            == [(KeyOf(b), b), (KeyOf(c), c)]
  {
    var ka, kb, kc := KeyOf(a), KeyOf(b), KeyOf(c);
    var s1 := [(ka, a)];
    assert Step("", 2, [], Added(PodObject(a))) == s1 by {
      PutEvictsLeastRecent([], ka, a, 2);
    }
    var s2 := [(ka, a), (kb, b)];
    assert Step("", 2, s1, Added(PodObject(b))) == s2 by {
      assert Find(s1, kb) == None;
      PutEvictsLeastRecent(s1, kb, b, 2);
    }
    assert Find(s2, kc) == None;
    PutEvictsLeastRecent(s2, kc, c, 2);
    assert s2[1..] == [(kb, b)];
  }

  /** With room for two pods and no node scope, adds of A, B and C leave B and
      C cached (A, the least recently used, evicted); a `Get` of A then misses,
      returns the client's A and evicts B, leaving C and A. */
  lemma EvictThenRefetchScenario(a: Pod, b: Pod, c: Pod, client: Client)
    requires CanTrackPod("", a) && CanTrackPod("", b) && CanTrackPod("", c)
    requires KeyOf(a) != KeyOf(b) && KeyOf(b) != KeyOf(c) && KeyOf(a) != KeyOf(c)
    requires client(a.namespace, a.name) == Some(a)
    ensures var s := Replay("", client, 2, [], [Handle(Added(PodObject(a))), Handle(Added(PodObject(b))), Handle(Added(PodObject(c)))]);
      && s == [(KeyOf(b), b), (KeyOf(c), c)]
      && Lookup(client, 2, s, a.namespace, a.name) == (Some(a), [(KeyOf(c), c), (KeyOf(a), a)])
  {
    var ka, kb, kc := KeyOf(a), KeyOf(b), KeyOf(c);
    ReplayThreeEvents("", client, 2, [], Added(PodObject(a)), Added(PodObject(b)), Added(PodObject(c)));
    ThreeAddsEvictFirst(a, b, c);
    var s3 := [(kb, b), (kc, c)];
    assert Find(s3, ka) == None;
    PutEvictsLeastRecent(s3, ka, a, 2);
    assert s3[1..] == [(kc, c)];
    assert PutIfAbsent(s3, ka, a, 2) == [(kc, c), (ka, a)];
  }

  /**
   * The tracker: the node it is scoped to (empty for none), the cluster
   * client it falls back to, and its cache.
   */
  class PodTracker {
    const client: Client
    const nodeName: string
    const cache: LruCache<string, Pod>

    ghost predicate Valid()
      reads this, cache
    {
      cache.Valid()
    }

    /** `newPodTracker`: a capacity that is not positive is a fatal configuration error. */
    constructor (client: Client, nodeName: string, maxPods: int)
      requires 0 < maxPods
      ensures Valid() && fresh(cache)
      ensures this.client == client && this.nodeName == nodeName
      ensures cache.capacity == maxPods && cache.entries == []
    {
      this.client := client;
      this.nodeName := nodeName;
      cache := new LruCache(maxPods);
    }

    /** The pod `namespace/name`: from the cache on a hit, else from the client,
        whose answer is then added to the cache unless the key is present. */
    method Get(namespace: string, name: string) returns (r: Option<Pod>)
      requires Valid()
      modifies cache
      ensures Valid()
      ensures (r, cache.entries) == Lookup(client, cache.capacity, old(cache.entries), namespace, name)
    {
      var key := CacheKey(namespace, name);
      var cached := cache.Get(key);
      if cached.Some? {
        return cached;
      }
      var fetched := client(namespace, name);
      if fetched.Some? {
        var present, evicted := cache.ContainsOrAdd(key, fetched.value);
        return fetched;
      }
      return None;
    }

    method OnAdd(obj: Object)
      requires Valid()
      modifies cache
      ensures Valid()
      ensures cache.entries == AfterAdd(nodeName, cache.capacity, old(cache.entries), obj)
    {
      if obj.PodObject? {
        var pod := obj.pod;
        if CanTrackPod(nodeName, pod) {
          var evicted := cache.Add(CacheKey(pod.namespace, pod.name), pod);
        }
      }
    }

    method OnUpdate(oldObj: Object, newObj: Object)
      requires Valid()
      modifies cache
      ensures Valid()
      ensures cache.entries == AfterUpdate(nodeName, cache.capacity, old(cache.entries), oldObj, newObj)
    {
      if !oldObj.PodObject? || !newObj.PodObject? {
        return;
      }
      var newPod := newObj.pod;
      if CanTrackPod(nodeName, newPod) {
        var evicted := cache.Add(CacheKey(newPod.namespace, newPod.name), newPod);
      }
    }

    method OnDelete(obj: Object)
      requires Valid()
      modifies cache
      ensures Valid()
      ensures cache.entries == AfterDelete(old(cache.entries), obj)
    {
      var pod := DeletedPod(obj);
      if pod.None? {
        return;
      }
      cache.Remove(CacheKey(pod.value.namespace, pod.value.name));
    }

    /** The informer's routing of a notification to its handler. */
    method Handle(e: Event)
      requires Valid()
      modifies cache
      ensures Valid()
      ensures cache.entries == Step(nodeName, cache.capacity, old(cache.entries), e)
    {
      match e
      case Added(obj) => OnAdd(obj);
      case Updated(oldObj, newObj) => OnUpdate(oldObj, newObj);
      case Deleted(obj) => OnDelete(obj);
    }
  }
}
