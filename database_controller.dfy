/**
 * The managed-resource adapter for DigitalOcean database clusters
 * (pkg/controller/database/database.go): the status-to-condition mapping and
 * the Observe/Create/Update/Delete decision logic.
 *
 * The remote database API and the Kubernetes object store are not modelled as
 * behaviour: every call's result is a parameter of the method that makes the
 * call, and the adapter keeps a log of the calls it issued, so that "no remote
 * call is made" is a statement about that log.
 */
module DatabaseController {
  import opened Wrappers
  import opened DatabaseClient

  // Error strings of the adapter.
  const ErrGetDB := "cannot get a Database Cluster"
  const ErrDBNameRequired := "name of Database Cluster is required"
  const ErrDBCreateFailed := "creation of Database Cluster resource has failed"
  const ErrDBDeleteFailed := "deletion of Database Cluster resource has failed"
  const ErrDBUpdate := "cannot update managed Database Cluster resource"

  // Lifecycle status strings reported by the remote service.
  const StatusCreating := "creating"
  const StatusOnline := "online"
  const StatusResizing := "resizing"
  const StatusMigrating := "migrating"
  const StatusForking := "forking"

  /** The reason of the resource's Ready condition. */
  datatype Condition = Creating | Available | Unavailable | Deleting

  /** `New` is `errors.New(message)`; `Wrapped` is `errors.Wrap` of a non-nil
      cause (wrapping a nil cause gives no error at all). */
  datatype Error = New(message: string) | Wrapped(message: string, cause: string)

  /** What a remote call returns: a value, a 404 response, or another failure. */
  datatype Outcome<T> = Ok(value: T) | NotFound(reason: string) | Failed(reason: string)

  /** What the object store answers to an update. */
  datatype Ack = Accepted | Rejected(reason: string)

  /** An outbound call issued by the adapter. */
  datatype Call =
    | GetCluster(id: string)
    | CreateCluster(request: CreateRequest)
    | DeleteCluster(id: string)
    | UpdateObject(spec: ClusterParameters)

  /** `status.atProvider`: the fields of the observation the controller reads. */
  datatype ClusterObservation = ClusterObservation(id: Option<string>, status: string)

  datatype ExternalObservation = ExternalObservation(resourceExists: bool, resourceUpToDate: bool)

  datatype SecretReference = SecretReference(name: string, namespace: string)

  type ConnectionDetails = map<string, seq<bv8>>

  /** The observation recorded for a fetched cluster record: assumed to be
      the projection onto the two fields the controller reads. */
  function GenerateObservation(db: Database): (r: ClusterObservation)
  {
    ClusterObservation(Some(db.id), db.status)
  }

  /** `errors.Wrap(do.IgnoreNotFound(err, response), message)`: a 404 and a
      success give no error, any other failure is wrapped. */
  function WrapIgnoringNotFound<T>(o: Outcome<T>, message: string): (r: Option<Error>)
    ensures r == None <==> !o.Failed?
    ensures o.Failed? ==> r == Some(Wrapped(message, o.reason))
  {
    if o.Failed? then Some(Wrapped(message, o.reason)) else None
  }

  /** The Ready condition after the remote status `status` is seen, given the
      current one. A Go `case` does not fall through, so migrating and
      resizing leave the condition as it was. */
  function ReadyCondition(status: string, current: Option<Condition>): (r: Option<Condition>)
    ensures status == StatusCreating ==> r == Some(Creating)
    ensures status == StatusOnline ==> r == Some(Available)
    ensures status == StatusForking ==> r == Some(Unavailable)
    ensures status == StatusMigrating || status == StatusResizing ==> r == current
    ensures status != StatusCreating && status != StatusOnline && status != StatusForking ==> r == current
  {
    if status == StatusCreating then Some(Creating)
    else if status == StatusOnline then Some(Available)
    else if status == StatusMigrating then current
    else if status == StatusResizing then current
    else if status == StatusForking then Some(Unavailable)
    else current
  }

  /** The name a cluster is created under: the external name if there is one,
      otherwise the object's own name; empty only when both are. */
  function ResolveName(externalName: string, name: string): (r: string)
    ensures r == "" <==> externalName == "" && name == ""
    ensures externalName != "" ==> r == externalName
    ensures externalName == "" ==> r == name
  {
    if externalName != "" then externalName else name
  }

  /** A Database Cluster managed resource. */
  class DatabaseCluster {
    /** `metadata.name` */
    var name: string
    /** The external-name annotation; "" when absent. */
    var externalName: string
    var forProvider: ClusterParameters
    var writeConnectionSecretTo: Option<SecretReference>
    var atProvider: ClusterObservation
    /** The Ready condition; None until one is set. */
    var condition: Option<Condition>

    constructor (name: string, externalName: string, forProvider: ClusterParameters,
                 writeConnectionSecretTo: Option<SecretReference>)
      ensures this.name == name && this.externalName == externalName
      ensures this.forProvider == forProvider
      ensures this.writeConnectionSecretTo == writeConnectionSecretTo
      ensures atProvider == ClusterObservation(None, "") && condition == None
    {
      this.name := name;
      this.externalName := externalName;
      this.forProvider := forProvider;
      this.writeConnectionSecretTo := writeConnectionSecretTo;
      atProvider := ClusterObservation(None, "");
      condition := None;
    }
  }

  /** Sets the Ready condition from the observed remote status. */
  method SetCrossplaneStatus(cr: DatabaseCluster)
    modifies cr`condition
    ensures cr.condition == ReadyCondition(cr.atProvider.status, old(cr.condition))
  {
    var status := cr.atProvider.status;
    if status == StatusCreating {
      cr.condition := Some(Creating);
    } else if status == StatusOnline {
      cr.condition := Some(Available);
    } else if status == StatusMigrating {
    } else if status == StatusResizing {
    } else if status == StatusForking {
      cr.condition := Some(Unavailable);
    }
  }

  /** The adapter bound to one remote-service client. */
  class External {
    /** The calls issued to the remote service and the object store, oldest first. */
    var calls: seq<Call>

    constructor ()
      ensures calls == []
    {
      calls := [];
    }

    /** Looks the cluster up by its external name. `get` is what the remote
        service answers to that lookup and `persist` what the object store
        answers to a write of the late-initialised spec. */
    method Observe(cr: DatabaseCluster, get: Outcome<Database>, persist: Ack)
      returns (obs: ExternalObservation, err: Option<Error>)
      modifies this, cr`forProvider, cr`atProvider, cr`condition
      // without an external name nothing is called and nothing changes
      ensures old(cr.externalName) == "" ==>
        && obs == ExternalObservation(false, false) && err == None
        && calls == old(calls) && unchanged(cr)
      // a failed lookup changes nothing; a 404 is not an error
      ensures old(cr.externalName) != "" && !get.Ok? ==>
        && obs == ExternalObservation(false, false)
        && err == (if get.NotFound? then None else Some(Wrapped(ErrGetDB, get.reason)))
        && calls == old(calls) + [GetCluster(old(cr.externalName))]
        && unchanged(cr)
      // a found cluster late-initialises the spec, which is written back only if it changed
      ensures old(cr.externalName) != "" && get.Ok? ==>
        var spec := LateInitializeSpec(old(cr.forProvider), get.value);
        var changed := spec != old(cr.forProvider);
        && cr.forProvider == spec
        && calls == old(calls) + [GetCluster(old(cr.externalName))] + (if changed then [UpdateObject(spec)] else [])
        && if changed && persist.Rejected? then
             && obs == ExternalObservation(false, false)
             && err == Some(Wrapped(ErrDBUpdate, persist.reason))
             && cr.atProvider == old(cr.atProvider) && cr.condition == old(cr.condition)
           else
             && obs == ExternalObservation(true, true) && err == None
             && cr.atProvider == GenerateObservation(get.value)
             && cr.condition == ReadyCondition(get.value.status, old(cr.condition))
    {
      var en := cr.externalName;
      if en == "" {
        return ExternalObservation(false, false), None;
      }
      calls := calls + [GetCluster(en)];
      if !get.Ok? {
        return ExternalObservation(false, false), WrapIgnoringNotFound(get, ErrGetDB);
      }
      var observed := get.value;
      var currentSpec := cr.forProvider;
      cr.forProvider := LateInitializeSpec(cr.forProvider, observed);
      if cr.forProvider != currentSpec {
        calls := calls + [UpdateObject(cr.forProvider)];
        if persist.Rejected? {
          return ExternalObservation(false, false), Some(Wrapped(ErrDBUpdate, persist.reason));
        }
      }
      cr.atProvider := GenerateObservation(observed);
      SetCrossplaneStatus(cr);
      return ExternalObservation(true, true), None;
    }

    /** Creates the cluster. `create` is what the remote service answers to the
        create request (`Ok(None)`: neither a record nor an error) and `details`
        what the connection-details helper would return for the new cluster. */
    method Create(cr: DatabaseCluster, create: Outcome<Option<Database>>, details: ConnectionDetails)
      returns (connection: ConnectionDetails, err: Option<Error>)
      modifies this, cr`condition, cr`externalName
      ensures cr.condition == Some(Creating)
      ensures
        var name := ResolveName(old(cr.externalName), old(cr.name));
        if name == "" then
          // validation fails before any remote call
          && err == Some(New(ErrDBNameRequired)) && connection == map[]
          && calls == old(calls) && cr.externalName == old(cr.externalName)
        else
          && calls == old(calls) + [CreateCluster(GenerateDatabase(name, old(cr.forProvider)))]
          && match create
             case Ok(Some(db)) =>
               && err == None && cr.externalName == db.id
               && connection == (if cr.writeConnectionSecretTo.Some? then details else map[])
             case Ok(None) =>
               err == None && connection == map[] && cr.externalName == old(cr.externalName)
             case NotFound(reason) =>
               err == Some(Wrapped(ErrDBCreateFailed, reason)) && connection == map[]
               && cr.externalName == old(cr.externalName)
             case Failed(reason) =>
               err == Some(Wrapped(ErrDBCreateFailed, reason)) && connection == map[]
               && cr.externalName == old(cr.externalName)
    {
      cr.condition := Some(Creating);
      var name := ResolveName(cr.externalName, cr.name);
      if name == "" {
        return map[], Some(New(ErrDBNameRequired));
      }
      var request := GenerateDatabase(name, cr.forProvider);
      calls := calls + [CreateCluster(request)];
      match create {
        case NotFound(reason) =>
          return map[], Some(Wrapped(ErrDBCreateFailed, reason));
        case Failed(reason) =>
          return map[], Some(Wrapped(ErrDBCreateFailed, reason));
        case Ok(None) =>
          // errors.Wrap of a nil error is nil: success, and no external name
          return map[], None;
        case Ok(Some(db)) =>
          cr.externalName := db.id;
          connection := map[];
          if cr.writeConnectionSecretTo.Some? {
            connection := details;
          }
          return connection, None;
      }
    }

    /** Updating a cluster is not supported: nothing is called or changed. */
    method Update(cr: DatabaseCluster) returns (connection: ConnectionDetails, err: Option<Error>)
      ensures connection == map[] && err == None
    {
      return map[], None;
    }

    /** Deletes the cluster by the ID recorded in its observation; `delete` is
        what the remote service answers. */
    method Delete(cr: DatabaseCluster, delete: Outcome<()>) returns (err: Option<Error>)
      requires cr.atProvider.id.Some?
      modifies this, cr`condition
      ensures cr.condition == Some(Deleting)
      ensures calls == old(calls) + [DeleteCluster(cr.atProvider.id.value)]
      ensures delete.Failed? ==> err == Some(Wrapped(ErrDBDeleteFailed, delete.reason))
      ensures !delete.Failed? ==> err == None
    {
      cr.condition := Some(Deleting);
      calls := calls + [DeleteCluster(cr.atProvider.id.value)];
      err := WrapIgnoringNotFound(delete, ErrDBDeleteFailed);
    }
  }

  /*
   * Successive Observe passes. The reconciler calls Observe again and again;
   * each pass that finds the cluster late-initialises the stored spec from
   * the record it fetched and writes the spec back when it changed.
   */

  /** The spec after successful passes that fetched `history`, in order. */
  function Reconciled(p: ClusterParameters, history: seq<Database>): (r: ClusterParameters)
    ensures Extends(p, r)
    ensures Unset(r) <= Unset(p)
    decreases |history|
  {
    if history == [] then p
    else
      var q := LateInitializeSpec(p, history[0]);
      ExtendsTransitive(p, q, Reconciled(q, history[1..]));
      Reconciled(q, history[1..])
  }

  /** How many of those passes write the spec back to the object store. */
  function Writes(p: ClusterParameters, history: seq<Database>): (n: nat)
    ensures n <= Unset(p)
    decreases |history|
  {
    if history == [] then 0
    else
      var q := LateInitializeSpec(p, history[0]);
      (if q == p then 0 else 1) + Writes(q, history[1..])
  }

  /** The first non-empty engine slug among the fetched records. */
  function FirstEngineSlug(history: seq<Database>): (r: Option<string>)
    decreases |history|
  {
    if history == [] then None
    else if history[0].engineSlug != "" then Some(history[0].engineSlug)
    else FirstEngineSlug(history[1..])
  }

  /** No sequence of passes writes the spec back more than three times. */
  lemma WritesAtMostThree(p: ClusterParameters, history: seq<Database>)
    ensures Writes(p, history) <= 3
  {
  }

  /** A spec that late initialisation leaves alone stays as it is, and is never written. */
  lemma {:induction false} FixedPointNeverWritten(p: ClusterParameters, o: Database, history: seq<Database>)
    requires LateInitializeSpec(p, o) == p
    requires forall i | 0 <= i < |history| :: history[i] == o
    ensures Writes(p, history) == 0 && Reconciled(p, history) == p
    decreases |history|
  {
    if history != [] {
      FixedPointNeverWritten(p, o, history[1..]);
    }
  }

  /** Against a remote cluster whose record does not change, the spec is
      written back at most once, by the first pass, and every pass after it
      sees the spec of the first pass. */
  lemma {:induction false} StableRemoteWritesOnce(p: ClusterParameters, o: Database, history: seq<Database>)
    requires forall i | 0 <= i < |history| :: history[i] == o
    ensures Writes(p, history) <= 1
    ensures history != [] ==> Reconciled(p, history) == LateInitializeSpec(p, o)
  {
    if history != [] {
      var q := LateInitializeSpec(p, o);
      LateInitializeSpecIdempotent(p, o);
      FixedPointNeverWritten(q, o, history[1..]);
    }
  }

  /** A version the user set is kept; an unset one becomes the first
      non-empty engine slug fetched, and then stays. */
  lemma {:induction false} ReconciledVersion(p: ClusterParameters, history: seq<Database>)
    ensures Reconciled(p, history).version ==
      if p.version.Some? then p.version else FirstEngineSlug(history)
    decreases |history|
  {
    if history != [] && p.version.None? {
      var q := LateInitializeSpec(p, history[0]);
      ReconciledVersion(q, history[1..]);
    }
  }
}
