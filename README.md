# DigitalOcean Database Cluster controller — a Dafny model

This project models the core of the Crossplane provider's Database Cluster
controller for DigitalOcean:

- the request builder and the late-initialiser of a cluster's parameters
  (`pkg/clients/database/database.go`), in module `DatabaseClient`;
- the status-to-condition mapping and the Observe / Create / Update / Delete
  adapter (`pkg/controller/database/database.go`), in module
  `DatabaseController`.

Go's optional `*string` fields are `Option<string>` and `[]string` is
`seq<string>`. The record transformations are functions on datatypes. The
managed resource is the class `DatabaseCluster`, whose fields (`name`,
`externalName`, `forProvider`, `writeConnectionSecretTo`, `atProvider`,
`condition`) the adapter's methods update in place. The adapter is the class
`External`. Its field `calls` logs every call it issues to the remote
database API or to the Kubernetes object store. "No remote call is made" is
then stated as `calls == old(calls)`. What those services answer is passed
to each method as a value: an `Outcome` (`Ok`, `NotFound` for a 404,
`Failed`) for remote calls and an `Ack` for the object-store update.

Beyond single calls, `Reconciled` and `Writes` follow the stored spec through
a series of Observe passes that each find the cluster. Each pass starts from
the spec the previous pass left, so nothing else writes the spec between
passes. Under that assumption, the lemmas about them show three things. The
spec is written back at most three times in all. It is written at most once
while the remote record stays the same. An unset version settles on the first
non-empty engine slug fetched and then stays.

Behaviours of the code worth knowing:

- Create succeeds when the remote call returns neither a record nor an error
  (`db == nil`, `err == nil`), because `errors.Wrap(nil, …)` is nil. No
  external name is bound in that case (`Ok(None)` in the model).
- Delete addresses the cluster by `status.atProvider.id`, not by the external
  name. It requires that ID to be present, because the code dereferences it.
- Late initialisation sets the version from the observed engine slug, not
  from its version slug.
- `migrating` and `resizing` leave the condition unchanged. A Go `case` does
  not fall through, so only `forking` yields Unavailable.

## Model

| member | source | states |
|---|---|---|
| `DatabaseClient.StringValue` | pkg/clients/database/database.go:26-31 | an absent string reads as "", a present one as itself |
| `DatabaseClient.LateInitializeString` | pkg/clients/database/database.go:35-40 | a set field is kept; an unset field takes the observed value exactly when that value is non-empty |
| `DatabaseClient.GenerateDatabase` | pkg/clients/database/database.go:23-33 | the request carries the given name; node count, size and region are copied exactly; engine, version and private network are the parameters' strings or "" when absent; tags pass through unchanged |
| `DatabaseClient.ParametersOf` | pkg/clients/database/database.go:24-33 | every create request is rebuilt exactly by GenerateDatabase from the parameters it spells out (round trip from the request side) |
| `DatabaseClient.GenerateDatabaseRecoversParameters` | pkg/clients/database/database.go:24-33 | parameters without empty-but-present strings are recovered from the request built from them (round trip from the parameters side) |
| `DatabaseClient.LateInitializeSpec` | pkg/clients/database/database.go:35-46 | never overwrites a set version, private network or non-empty tag list; leaves engine, node count, size and region untouched; an unset version becomes the observed engine slug when that is non-empty; the tags become the observed tags only when the spec's are empty and the observed are not; the spec changes exactly when one of those fills happens, and each change lowers the number of unset fields |
| `DatabaseClient.LateInitializeSpecIdempotent` | pkg/clients/database/database.go:38-46 | late initialising twice against the same record gives the result of once |
| `DatabaseController.WrapIgnoringNotFound` | pkg/controller/database/database.go:186 | a success or a 404 gives no error; any other failure gives the failure wrapped with the call's message |
| `DatabaseController.ReadyCondition` | pkg/controller/database/database.go:120-131 | creating gives Creating, online gives Available, forking gives Unavailable; migrating, resizing and every other status leave the condition as it was |
| `DatabaseController.SetCrossplaneStatus` | pkg/controller/database/database.go:120-131 | the resource's condition becomes ReadyCondition of its observed status and its old condition; nothing else changes |
| `DatabaseController.ResolveName` | pkg/controller/database/database.go:143-152 | the create name is the external name when set, else the object name; it is empty exactly when both are |
| `DatabaseController.External.Observe` | pkg/controller/database/database.go:83-118 | without an external name: no call, no change, exists=false, no error; otherwise the lookup by external name is the first call; a 404 gives exists=false without error, another failure a wrapped "cannot get" error, both with the resource unchanged; a found cluster gets the late-initialised spec, which is written to the object store only if it differs from the snapshot; a rejected write returns a wrapped update error before the status is refreshed; otherwise the observation and the condition are refreshed and exists=true, up-to-date=true |
| `DatabaseController.External.Create` | pkg/controller/database/database.go:133-170 | the condition becomes Creating first; with neither external nor object name it fails with "name of Database Cluster is required" and calls nothing; otherwise it sends exactly one create request built from the resolved name and the spec; a failure is wrapped with the create message; a returned record binds the external name to its ID and yields connection details only when a connection-secret reference is set; an answer with no record and no error succeeds and binds nothing |
| `DatabaseController.External.Update` | pkg/controller/database/database.go:172-175 | returns success with no connection details and modifies nothing |
| `DatabaseController.External.Delete` | pkg/controller/database/database.go:177-187 | the condition becomes Deleting; one delete call by the observed ID is issued; a 404 or a success gives no error, any other failure a wrapped delete error |
| `DatabaseController.Reconciled` | pkg/controller/database/database.go:102-108 | the spec after any series of successful Observe passes keeps every field that was set before them and has no more unset fields |
| `DatabaseController.Writes` | pkg/controller/database/database.go:102-108 | the number of passes that write the spec back is at most the number of fields that were unset |
| `DatabaseController.WritesAtMostThree` | pkg/controller/database/database.go:102-108 | no series of Observe passes writes the spec back more than three times |
| `DatabaseController.FixedPointNeverWritten` | pkg/controller/database/database.go:102-108 | a spec that late initialisation leaves alone is never written and never changes while the remote record stays the same |
| `DatabaseController.StableRemoteWritesOnce` | pkg/controller/database/database.go:102-108 | while the remote record stays the same, the spec is written at most once, and every pass ends with the spec of the first pass |
| `DatabaseController.ReconciledVersion` | pkg/clients/database/database.go:39 | over any series of passes a set version is kept, and an unset one becomes the first non-empty engine slug fetched |

## Left out

- Controller registration (`SetupDatabase`) is framework wiring.
- `dbConnector.Connect` is left out: it does credential lookup and builds the HTTP client.
- The type assertion to a Database Cluster and its "not a Database Cluster
  resource" error are left out. The methods take a `DatabaseCluster` directly.
- The remote calls (get, create, delete) and the object-store update are not
  modelled as behaviour. Their answers are method parameters.
- `GenerateConnectionDetails` makes its own network calls. Its result is the
  `details` parameter of `Create`.
- `GenerateObservation` is not part of this model. The model assumes it
  projects the fetched record onto its ID and status, the two fields the
  controller reads, and does not model its other fields.
- The package holding the status constants and the resource types is not part
  of this model. The status strings are the remote service's lowercase status names.
- Deep copy and `cmp.Equal` are value copy and structural equality of datatypes.
- Context, cancellation, logging and event recording are infrastructure.
- A pass whose write to the object store is rejected is not part of the
  histories of `Reconciled` and `Writes`. Such a pass leaves the stored spec
  unchanged, so the next pass starts from the same spec.
- Other writers of the stored spec are not modelled. `Reconciled` and `Writes`
  assume that nothing else changes the spec between passes. A user who edits
  the spec between passes (clearing the tags, say) can make late
  initialisation fill it and write it back again, beyond the bounds proved.
