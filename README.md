# Vitess: the vtadmin discovery fake and CALL planning, in Dafny

This project models two small pieces of Vitess and proves properties of them.

1. **The in-memory VTGate discovery fake** of vtadmin (`fakediscovery.Fake`).
   It keeps gates in two maps. `byTag` maps a tag to the list of gates added under it, appended to in place. `byName` maps a hostname to the last gate added with that hostname. A flag `shouldErr` makes every discovery call fail.
   A discovery query narrows the `byName` candidates tag by tag to those in each tag's list. It answers with the surviving gates, one per hostname, in map-iteration order.
   The model is the class `FakeDiscovery.Fake`, with the two maps and the flag as fields. Each Go loop is a `while` loop. Each method is specified against a function on values (`AppendToTags`, `IndexByName`, `Narrow`, `Candidates`), and lemmas such as `CandidatesAt` state the properties of those functions.
2. **Planning of a `CALL` statement** in vtgate (`buildCallProcPlan`).
   The planner asks the vschema for the target of the procedure's keyspace qualifier. It rejects an untargeted CALL on a sharded keyspace; an untargeted CALL on an unsharded keyspace goes to any shard; a resolved destination is used as-is. It then clears the qualifier of the caller's statement in place and builds a `Send` of the rendered statement.
   The decision is the function `CallProcPlan.Route`. The method `CallProcPlan.BuildCallProcPlan` changes the statement object and returns the plan.

Files: `wrappers.dfy` (Option, Result), `fakediscovery.dfy`, `callproc.dfy`.

Foreign collaborators are parameters:
- `vschema.TargetDestination` is `targetDestination: string -> Target`.
- `TableIdent.String()` is `identString`.
- `sqlparser.String` is `render`.

Go map iteration order is unspecified. In the model, the next key is a free choice (`:|`) in `FakeDiscovery.Collect`, so every result is specified up to order. The random pick of `DiscoverVTGate` is likewise a free choice of an index in range.

## Model

| member | source | states |
|---|---|---|
| `FakeDiscovery.Fake.constructor` | go/vt/vtadmin/cluster/discovery/fakediscovery/discovery.go:43-50 | a new fake has empty `byTag` and `byName`, `shouldErr` false, and satisfies the state invariant |
| `FakeDiscovery.EmptyIndexSelectsNothing` | go/vt/vtadmin/cluster/discovery/fakediscovery/discovery.go:43-50 | with both maps empty, every tag query (with or without tags) selects no gate |
| `FakeDiscovery.NewFakeAnswersEmpty` | go/vt/vtadmin/cluster/discovery/fakediscovery/discovery.go:43-50 | a freshly built fake answers any `DiscoverVTGates` query with an empty list and no error |
| `FakeDiscovery.Fake.AddTaggedGates` | go/vt/vtadmin/cluster/discovery/fakediscovery/discovery.go:56-64 | the new `byTag` is the old one with `gates` appended to each listed tag in turn; the new `byName` is the old one with each gate stored under its hostname in turn; `shouldErr` is unchanged; the invariant is kept |
| `FakeDiscovery.AppendToTagsAt` | go/vt/vtadmin/cluster/discovery/fakediscovery/discovery.go:57-59 | after adding, a tag is present iff it was present or listed; its list is its old list (empty if it was absent) followed by `gates` once per time the tag is listed |
| `FakeDiscovery.AppendToTagsOnce` | go/vt/vtadmin/cluster/discovery/fakediscovery/discovery.go:57-59 | a tag listed once gets `gates` appended in order; a tag not listed keeps its list, or stays absent |
| `FakeDiscovery.IndexByNameAt` | go/vt/vtadmin/cluster/discovery/fakediscovery/discovery.go:61-63 | after adding, a hostname is a key iff it was one or some added gate has it; it maps to the last added gate with that hostname (last write wins); other hostnames keep their gate |
| `FakeDiscovery.IndexByNameKeyed` | go/vt/vtadmin/cluster/discovery/fakediscovery/discovery.go:61-63 | when every old entry is stored under its own hostname, so is every new one, and the key set grows by exactly the added hostnames |
| `FakeDiscovery.AddPreservesInvariant` | go/vt/vtadmin/cluster/discovery/fakediscovery/discovery.go:56-64 | adding keeps the state invariant: `byName` is keyed by hostname and every gate in any tag list has its hostname in `byName` |
| `FakeDiscovery.Fake.SetGatesError` | go/vt/vtadmin/cluster/discovery/fakediscovery/discovery.go:68-70 | sets `shouldErr` to the argument and leaves both maps unchanged |
| `FakeDiscovery.Collect` | go/vt/vtadmin/cluster/discovery/fakediscovery/discovery.go:108-112 | ranging over a hostname-keyed map yields every entry exactly once: the same number of gates as keys, no hostname twice, hostnames equal to the keys, each gate the map's entry for its hostname |
| `FakeDiscovery.Fake.DiscoverVTGates` | go/vt/vtadmin/cluster/discovery/fakediscovery/discovery.go:75-115 | with `shouldErr`, the error and no gates; otherwise a list enumerating the selected gates once each (every `byName` gate when there are no tags); an empty list and no error as soon as a requested tag is unknown |
| `FakeDiscovery.NarrowAt` | go/vt/vtadmin/cluster/discovery/fakediscovery/discovery.go:92-105 | one round keeps a hostname iff it is a current candidate and occurs in the tag's list; the kept gate is the last gate with that hostname in that list |
| `FakeDiscovery.NarrowKeyed` | go/vt/vtadmin/cluster/discovery/fakediscovery/discovery.go:99-103 | one round yields a map keyed by hostname whose keys are among the previous candidates |
| `FakeDiscovery.CandidatesAt` | go/vt/vtadmin/cluster/discovery/fakediscovery/discovery.go:89-106 | there is no candidate map (the answer is the empty list) iff some requested tag is absent from `byTag`; otherwise a hostname is selected iff it is a key of `byName` and occurs in the list of every requested tag |
| `FakeDiscovery.CandidatesKeyed` | go/vt/vtadmin/cluster/discovery/fakediscovery/discovery.go:89-106 | every round's candidate map is keyed by hostname, given a `byName` keyed by hostname |
| `FakeDiscovery.CandidateFromLastTag` | go/vt/vtadmin/cluster/discovery/fakediscovery/discovery.go:99-105 | with tags, the gate returned for a hostname is the last gate with that hostname in the last requested tag's list, not necessarily the `byName` entry |
| `FakeDiscovery.SelectedByTagsAlone` | go/vt/vtadmin/cluster/discovery/fakediscovery/discovery.go:89-106 | under the state invariant and with at least one tag, a hostname is selected iff every requested tag is known and its list contains that hostname |
| `FakeDiscovery.CandidatesShrink` | go/vt/vtadmin/cluster/discovery/fakediscovery/discovery.go:91-106 | the candidate set only shrinks: the hostnames selected for the tags are a subset of those selected for any prefix of the tags |
| `FakeDiscovery.SelectedOrderIndependent` | go/vt/vtadmin/cluster/discovery/fakediscovery/discovery.go:91-106 | two tag lists naming the same tags, in any order and with any repetition, select the same hostnames and agree on whether a tag is unknown |
| `FakeDiscovery.Fake.DiscoverVTGate` | go/vt/vtadmin/cluster/discovery/fakediscovery/discovery.go:118-129 | fails iff `shouldErr` is set or nothing is selected; otherwise returns some selected gate |
| `FakeDiscovery.Fake.DiscoverVTGateAddr` | go/vt/vtadmin/cluster/discovery/fakediscovery/discovery.go:132-139 | fails iff `DiscoverVTGate` fails, and then returns ""; otherwise returns the hostname of a selected gate |
| `CallProcPlan.Route` | go/vt/vtgate/planbuilder/call_proc.go:28-43 | TargetDestination is asked for the formatted qualifier, or for "" without one; its error is returned unchanged; no destination on a sharded keyspace is FAILED_PRECONDITION with the fixed message; no destination on an unsharded keyspace is AnyShard; a resolved destination is used as-is, with no sharded check |
| `CallProcPlan.RouteAllowedIff` | go/vt/vtgate/planbuilder/call_proc.go:38-54 | a CALL is planned iff TargetDestination succeeds and either resolves a destination or names an unsharded keyspace; a successful plan targets the returned keyspace |
| `CallProcPlan.BuildCallProcPlan` | go/vt/vtgate/planbuilder/call_proc.go:27-52 | on an error, the error of the routing decision and the statement untouched; on success, the statement's qualifier is cleared (name and arguments kept) and the plan is a `Send` to the routed keyspace and destination whose query is the statement rendered after the clearing |

## Left out

- The row-based binlog streamer (go/vt/binlog: event parsing, row images, GTID positions) is outside this model.
- Go map iteration order (discovery.go:82, :110) is not modelled: results are specified up to order.
- `rand.Intn` in `DiscoverVTGate` is an arbitrary choice of an index in range, with no probability distribution.
- `context.Context` arguments are dropped; the fake never reads them.
- `assert.AnError` is the single value `AnError`; its identity and message are not modelled.
- VTGate protobuf fields other than `Hostname` are an opaque `payload`.
- Pointer aliasing is not modelled. Gates are values, so a caller that mutates a `*VTGate` after adding it is not reflected.
- Nil pointers are not modelled: `Gate` and `Keyspace` are values and a `CallProc` reference is non-null, so what nil values would do is outside the model. A nil gate passed to `AddTaggedGates` is first appended to every listed tag (discovery.go:58); the loop at discovery.go:61-63 then stores the gates before the first nil in `byName` and panics on the nil at :62. A nil gate in a tag list would panic `DiscoverVTGates` (discovery.go:100). A nil statement panics `buildCallProcPlan` at call_proc.go:29. A nil keyspace with no resolved destination panics at call_proc.go:39; with a resolved destination it goes into the `Send` unchanged.
- `TargetDestination`, `TableIdent.String`, `sqlparser.String`, `sqlparser.NewTableIdent`, `engine.Send` and `key.DestinationAnyShard` are foreign. They appear as function parameters or as plain datatypes, with no SQL rendering or shard resolution.
- The tablet type that `TargetDestination` also returns is dropped, because the planner ignores it.
- `vterrors` formatting is reduced to an error code and the constant message.
