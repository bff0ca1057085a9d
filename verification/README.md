# Pod tracker of the log aggregator's Kubernetes transform

This project models the pod-metadata tracker of `transform/k8/tracker.go` and proves its rules.
The tracker lets a log pipeline resolve a `namespace`/`name` pair to a pod record without a network round trip.
It keeps the records in a bounded least-recently-used (LRU) cache keyed by `namespace + "_" + name`.
Three things act on that cache:

- the informer's event handlers `OnAdd`, `OnUpdate` and `OnDelete`;
- the trackability filter `canTrackPod`, which the handlers apply before they write;
- the look-up `Get`, which serves hits from the cache and otherwise asks the cluster client.
  On a miss, `Get` inserts the client's answer only if the key is still absent.

Layout:

- `lru.dfy`, module `Wrappers`: the `Option` type, which stands for Go's nil pointers and `ok` flags.
- `lru.dfy`, module `Lru`: the LRU cache from `github.com/hashicorp/golang-lru`, as far as the tracker uses it.
  - Its state is a sequence of `(key, value)` pairs in recency order. Index 0 is the least recently used entry.
  - `Find`, `Without`, `Put`, `Touch` and `PutIfAbsent` say what the library's `Get`, `Remove`, `Add` and `ContainsOrAdd` do to that sequence.
  - Lemmas prove the capacity bound, overwrite against insert-if-absent, and that an add to a full cache evicts exactly the least recently used entry.
  - Class `LruCache` has a mutable `entries` field and one method per library call.
- `tracker.dfy`, module `K8Tracker`:
  - the pod record, the handler payloads and the events;
  - `CacheKey` and `CanTrackPod`;
  - one specification function per handler (`AfterAdd`, `AfterUpdate`, `AfterDelete`, dispatched by `Step`), and `Lookup` for `Get`;
  - `Replay`, a sequential run of events and look-ups;
  - class `PodTracker`, whose methods mutate the shared cache in place and are proved equal to those functions;
  - lemmas that state what each handler and `Get` promise.

The handlers receive untyped payloads in Go and sort them with type assertions.
Here a payload is the datatype `Object`, which is one of:

- a pod;
- the informer's `DeletedFinalStateUnknown` tombstone, which holds a key and an inner object;
- anything else.

The tombstone is unwrapped one level, as the code does.
Its `key` field is never used: the removed key is always computed from the inner pod's namespace and name.

The cluster client's point look-up is a parameter of the tracker, of type `Client = (string, string) -> Option<Pod>`.
`None` stands for every error it returns, "not found" included, because `Get` treats them all alike.

Points where the model follows the code's exact behaviour:

- The library's `ContainsOrAdd` returns `(ok, evicted)`. Here `ok` means the key was already present; it is not "inserted new".
- `ContainsOrAdd` checks presence without touching recency. So a present key keeps both its value and its place.
- Distinct pods are meant to have distinct cache keys. The key `namespace + "_" + name` does not guarantee this (`CacheKeyCollides`). Injectivity is therefore neither assumed nor proved.
- An update that makes a cached pod untrackable, for example by moving it to another node, leaves the old entry in place. `UpdateEventSpec` states this.
- The fallback path of `Get` caches the client's pod without applying the trackability filter. `Lookup` does not depend on the tracker's node at all.

## Model

| member | source | states |
|---|---|---|
| `Lru.Find` | transform/k8/tracker.go:77 | a found value is stored under the key; nothing is found exactly when no entry has the key |
| `Lru.Without` | transform/k8/tracker.go:125 | removal forgets the key, keeps the value of every other key, never grows the list, and leaves it unchanged when the key is absent (the order of the rest is stated by `WithoutAt`) |
| `Lru.WithoutAt` | transform/k8/tracker.go:125 | with distinct keys, removing the key of the entry at index `i` gives exactly the entries before `i` followed by those after it, in their order |
| `Lru.Put` | transform/k8/tracker.go:91 | `Add` never takes a cache within capacity beyond it, and, for a positive capacity, leaves `(k, v)` as the most recently used entry |
| `Lru.Touch` | transform/k8/tracker.go:77 | a cache `Get` never grows the list; a miss leaves it identical; a hit leaves the key, with its stored value, as the most recently used entry |
| `Lru.PutIfAbsent` | transform/k8/tracker.go:82 | `ContainsOrAdd` of a present key leaves the list identical; it never takes a cache within capacity beyond it; for an absent key and a positive capacity, `(k, v)` becomes the most recently used entry |
| `Lru.TouchSpec` | transform/k8/tracker.go:77 | a cache `Get` changes no key's value and keeps the invariant and the size; a miss leaves the list identical; a hit on the entry at index `i` moves it to the most recently used position and keeps all other entries in their order |
| `Lru.PutSpec` | transform/k8/tracker.go:91 | `Add` keeps the cache within capacity with distinct keys, maps the key to the new value (overwriting), makes it the most recently used entry, and changes no other key unless one was evicted (the resulting order is stated by `PutOverwriteKeepsOrder` and `PutEvictsLeastRecent`) |
| `Lru.PutOverwriteKeepsOrder` | transform/k8/tracker.go:91 | `Add` of a key present at index `i` removes that entry, keeps every other entry in its order and appends `(k, v)`; nothing is evicted |
| `Lru.PutEvictsLeastRecent` | transform/k8/tracker.go:49-53 | `Add` evicts if and only if the key is new and the cache holds `maxPods` entries; it then removes exactly the least recently used entry and keeps all others; otherwise it only appends or overwrites |
| `Lru.PutIfAbsentSpec` | transform/k8/tracker.go:82 | `ContainsOrAdd` never overwrites: a present key leaves the cache identical (value and recency); an absent key is added as by `Add`; the invariant holds |
| `Lru.WithoutSpec` | transform/k8/tracker.go:125 | `Remove` keeps the invariant, forgets the key, keeps every other key's value, shrinks the cache by one when the key was present, and is a no-op when it was absent; removing the entry at index `i` leaves the others in their order |
| `Lru.LruCache.constructor` | transform/k8/tracker.go:50-53 | a cache is built only for a positive size and starts empty with that capacity |
| `Lru.LruCache.Get` | transform/k8/tracker.go:77 | returns the value under the key and updates recency as `Touch` says; the invariant is preserved |
| `Lru.LruCache.Add` | transform/k8/tracker.go:91 | the new entries are `Put` of the old ones; the evicted flag is true exactly when the key was new and the cache was full |
| `Lru.LruCache.ContainsOrAdd` | transform/k8/tracker.go:82 | reports whether the key was present and changes the entries as `PutIfAbsent` says |
| `Lru.LruCache.Remove` | transform/k8/tracker.go:125 | the new entries are the old ones without the key; the invariant is preserved |
| `K8Tracker.CacheKey` | transform/k8/tracker.go:129-131 | the key is the namespace, then one underscore, then the name |
| `K8Tracker.CacheKeyCollides` | transform/k8/tracker.go:129-131 | two different namespace/name pairs can share a key, so the key is not injective |
| `K8Tracker.CanTrackPod` | transform/k8/tracker.go:133-140 | a pod with no node is never trackable; a pod is trackable exactly when it has a node and the tracker has no node scope or the same node |
| `K8Tracker.DeletedPod` | transform/k8/tracker.go:115-121 | a delete payload names a pod exactly when it is a pod or a tombstone around a pod; it is that pod, or the tombstone's inner pod |
| `K8Tracker.AfterAdd` | transform/k8/tracker.go:88-95 | `OnAdd` keeps a cache within capacity; a non-pod or untrackable payload leaves the entries identical; a trackable pod is then found under its key |
| `K8Tracker.AfterUpdate` | transform/k8/tracker.go:100-110 | `OnUpdate` keeps a cache within capacity; if either payload is not a pod or the new pod is untrackable the entries are identical; otherwise the new pod is found under its key |
| `K8Tracker.AfterDelete` | transform/k8/tracker.go:114-127 | `OnDelete` never grows the cache; a payload naming no pod leaves it identical; the named pod's key is then absent; every key still present keeps its value |
| `K8Tracker.Step` | transform/k8/tracker.go:66-70 | every handler keeps a cache within capacity; a delete event adds nothing and changes no value |
| `K8Tracker.Lookup` | transform/k8/tracker.go:76-86 | `Get` returns the cached pod on a hit and the client's answer on a miss; a `nil` result leaves the cache identical; the cache stays within capacity |
| `K8Tracker.Replay` | transform/k8/tracker.go:66-86 | any sequence of handler calls and `Get`s keeps a cache within capacity |
| `K8Tracker.AddEventSpec` | transform/k8/tracker.go:88-95 | a trackable pod ends up cached under its key, overwriting and becoming the most recently used entry; an untrackable pod or a non-pod payload leaves the cache unchanged |
| `K8Tracker.UpdateEventSpec` | transform/k8/tracker.go:100-110 | only the new pod is written, and only when both payloads are pods and the new pod is trackable; a non-pod argument changes nothing; an untrackable new pod leaves an existing entry for its key in place |
| `K8Tracker.DeleteEventSpec` | transform/k8/tracker.go:114-127 | a pod's key, or the key of the pod inside a tombstone, is removed whatever its trackability; other keys are kept; an absent key is a no-op; any other payload changes nothing |
| `K8Tracker.StepKeepsWellFormed` | transform/k8/tracker.go:66-70 | every event handler keeps the cache within `maxPods` entries with distinct keys |
| `K8Tracker.LookupHit` | transform/k8/tracker.go:76-79 | on a hit `Get` returns the cached pod, gives the same result and state for any client (the client is not consulted), keeps every record, and moves the entry at index `i` to the most recently used position, the others keeping their order |
| `K8Tracker.LookupMiss` | transform/k8/tracker.go:80-85 | on a miss `Get` returns the client's answer; a found pod is added under the key, evicting as `Add` does; a failed look-up leaves the cache unchanged |
| `K8Tracker.LookupKeepsWellFormed` | transform/k8/tracker.go:76-86 | `Get` keeps the cache within `maxPods` entries with distinct keys |
| `K8Tracker.ReplayKeepsWellFormed` | transform/k8/tracker.go:49-53 | after any sequence of handler calls and `Get`s, the cache holds at most `maxPods` entries, each key once |
| `K8Tracker.ReadAfterAdd` | transform/k8/tracker.go:88-95 | after an add event for a trackable pod, `Get` of that pod returns it, whatever the client says |
| `K8Tracker.LookupAfterDeleteFetches` | transform/k8/tracker.go:114-127 | after a delete event for a pod, present or not and trackable or not, `Get` of that pod returns the client's answer |
| `K8Tracker.EventWriteSurvivesFallback` | transform/k8/tracker.go:82 | if an add event for the key is handled between a `Get`'s miss and its insert, the insert keeps the event's pod |
| `K8Tracker.ThreeAddsEvictFirst` | transform/k8/tracker.go:88-95 | with capacity 2 and no node scope, add events for three pods with distinct keys leave exactly the second and the third, oldest first |
| `K8Tracker.EvictThenRefetchScenario` | transform/k8/tracker.go:76-95 | with capacity 2 and no node scope, adds of A, B and C leave exactly B then C; a `Get` of A returns the client's A and leaves C then A (B evicted) |
| `K8Tracker.PodTracker.constructor` | transform/k8/tracker.go:49-59 | a tracker is built only for a positive `maxPods`, with the given client and node, and an empty cache of that capacity |
| `K8Tracker.PodTracker.Get` | transform/k8/tracker.go:76-86 | the result and the new cache entries are those of `Lookup` on the old entries; the cache invariant is preserved |
| `K8Tracker.PodTracker.OnAdd` | transform/k8/tracker.go:88-95 | the new cache entries are `AfterAdd` of the old ones; the invariant is preserved |
| `K8Tracker.PodTracker.OnUpdate` | transform/k8/tracker.go:100-110 | the new cache entries are `AfterUpdate` of the old ones; the invariant is preserved |
| `K8Tracker.PodTracker.OnDelete` | transform/k8/tracker.go:114-127 | the new cache entries are `AfterDelete` of the old ones; the invariant is preserved |
| `K8Tracker.PodTracker.Handle` | transform/k8/tracker.go:66-70 | routing an event to its handler changes the cache as `Step` says; the invariant is preserved |

## Left out

- `newK8` (transform/k8/tracker.go:35-47) reads a kubeconfig file and builds a client. That is I/O and library setup; the client is a parameter here instead.
- `watchForPods` (transform/k8/tracker.go:61-74) builds the informer, its list/watch transport and the 30-minute resync, and runs it in a goroutine. That is concurrency inside a foreign library. Only the handler calls it triggers are modelled, as events (`PodTracker.Handle`, `Replay`).
- Concurrency: `Get` may race with the informer's goroutine. Only sequential interleavings are modelled. `EventWriteSurvivesFallback` covers an event handled between a miss and the insert that follows it.
- The `fmt.Printf` logging in the handlers is output only and is not modelled.
- The internals of `golang-lru` (its linked list, hash map and mutex) are replaced by the recency-ordered sequence.
- `newPodTracker` panics when `lru.New` rejects a capacity of zero or less. The model states this as the precondition `0 < maxPods`.
- `K8Tracker.PodTracker.Get` takes the client to be one fixed function. Successive look-ups of the same pod that return different answers over time are not modelled.
- The `tracker` interface (transform/k8/tracker.go:23-25) only names `Get` and is not modelled separately.
- The pod record is reduced to namespace, name, node name and labels. The rest of a `v1.Pod` is not read by the tracker.
- The Go handlers could receive a typed nil `*v1.Pod` and would then crash when reading its fields. The model has no nil pods.
- `NodeName` is an exported, mutable field in Go, but the tracker never changes it. Here it is a constant of the tracker.
