/**
 * Request building and late initialisation of a DigitalOcean database
 * cluster's parameters (pkg/clients/database/database.go).
 *
 * Go's optional `*string` fields are `Option<string>`; a `[]string` is a
 * `seq<string>`. The Go helpers `do.StringValue` and `do.LateInitializeString`
 * are modelled by `StringValue` and `LateInitializeString` below.
 */
module DatabaseClient {
  import opened Wrappers

  /** The user-authored parameters of a cluster (`spec.forProvider`). */
  datatype ClusterParameters = ClusterParameters(
    engine: Option<string>,
    version: Option<string>,
    numNodes: int,
    size: string,
    region: string,
    privateNetworkUUID: Option<string>,
    tags: seq<string>)

  /** The fields of the remote create request that the controller fills. */
  datatype CreateRequest = CreateRequest(
    name: string,
    engineSlug: string,
    version: string,
    numNodes: int,
    sizeSlug: string,
    region: string,
    privateNetworkUUID: string,
    tags: seq<string>)

  /** The fields of the remote service's cluster record that the controller reads. */
  datatype Database = Database(
    id: string,
    engineSlug: string,
    versionSlug: string,
    status: string,
    privateNetworkUUID: string,
    tags: seq<string>)

  /** A nil pointer reads as the empty string. */
  function StringValue(s: Option<string>): (r: string)
    ensures s == Some(r) || (s == None && r == "")
  {
    if s.Some? then s.value else ""
  }

  /** An unset field takes the observed value when that value is non-empty;
      a set field is kept. */
  function LateInitializeString(current: Option<string>, from: string): (r: Option<string>)
    ensures r == current || (current == None && from != "" && r == Some(from))
    ensures current == None && from != "" ==> r == Some(from)
  {
    if current.Some? || from == "" then current else Some(from)
  }

  /** The create request for a cluster called `name` with parameters `params`. */
  function GenerateDatabase(name: string, params: ClusterParameters): (r: CreateRequest)
    ensures r.name == name
    ensures r.numNodes == params.numNodes && r.sizeSlug == params.size && r.region == params.region
    ensures r.engineSlug == StringValue(params.engine)
    ensures r.version == StringValue(params.version)
    ensures r.privateNetworkUUID == StringValue(params.privateNetworkUUID)
    ensures r.tags == params.tags
  {
    CreateRequest(
      name := name,
      engineSlug := StringValue(params.engine),
      version := StringValue(params.version),
      numNodes := params.numNodes,
      sizeSlug := params.size,
      region := params.region,
      privateNetworkUUID := StringValue(params.privateNetworkUUID),
      tags := params.tags)
  }

  function Present(s: string): (r: Option<string>)
  {
    if s == "" then None else Some(s)
  }

  /** The parameters a create request spells out, an empty string read as
      absent: building the request again from them gives the same request. */
  function ParametersOf(req: CreateRequest): (p: ClusterParameters)
    ensures GenerateDatabase(req.name, p) == req
    ensures p.engine != Some("") && p.version != Some("") && p.privateNetworkUUID != Some("")
  {
    ClusterParameters(
      engine := Present(req.engineSlug),
      version := Present(req.version),
      numNodes := req.numNodes,
      size := req.sizeSlug,
      region := req.region,
      privateNetworkUUID := Present(req.privateNetworkUUID),
      tags := req.tags)
  }

  /** Building a request loses only the difference between an absent string
      and an empty one. */
  lemma GenerateDatabaseRecoversParameters(name: string, p: ClusterParameters)
    requires p.engine != Some("") && p.version != Some("") && p.privateNetworkUUID != Some("")
    ensures ParametersOf(GenerateDatabase(name, p)) == p
  {
  }

  /** `q` keeps every field that is set in `p`: the fields late initialisation
      never touches are equal, and a set version, network or non-empty tag list
      is unchanged. */
  predicate Extends(p: ClusterParameters, q: ClusterParameters)
  {
    && q.engine == p.engine
    && q.numNodes == p.numNodes
    && q.size == p.size
    && q.region == p.region
    && (p.version.Some? ==> q.version == p.version)
    && (p.privateNetworkUUID.Some? ==> q.privateNetworkUUID == p.privateNetworkUUID)
    && (|p.tags| != 0 ==> q.tags == p.tags)
  }

  /** The number of fields late initialisation may still fill. */
  function Unset(p: ClusterParameters): (u: nat)
    ensures u <= 3
    ensures u == 0 <==> p.version.Some? && p.privateNetworkUUID.Some? && |p.tags| != 0
  {
    (if p.version.None? then 1 else 0)
    + (if p.privateNetworkUUID.None? then 1 else 0)
    + (if |p.tags| == 0 then 1 else 0)
  }

  /** Fills the unset fields of `p` from the observed cluster record. The
      version is taken from the observed ENGINE slug, not its version slug. */
  function LateInitializeSpec(p: ClusterParameters, observed: Database): (r: ClusterParameters)
    ensures Extends(p, r)
    ensures p.version.None? ==>
      r.version == (if observed.engineSlug == "" then None else Some(observed.engineSlug))
    ensures p.privateNetworkUUID.None? ==>
      r.privateNetworkUUID == (if observed.privateNetworkUUID == "" then None else Some(observed.privateNetworkUUID))
    ensures r.tags == (if |p.tags| == 0 && |observed.tags| != 0 then observed.tags else p.tags)
    // the spec changes exactly when some unset field has an observed value
    ensures r != p <==>
      || (p.version.None? && observed.engineSlug != "")
      || (p.privateNetworkUUID.None? && observed.privateNetworkUUID != "")
      || (|p.tags| == 0 && |observed.tags| != 0)
    ensures Unset(r) <= Unset(p)
    ensures r != p ==> Unset(r) < Unset(p)
  {
    var tags := if |p.tags| == 0 && |observed.tags| != 0 then observed.tags else p.tags;
    p.(version := LateInitializeString(p.version, observed.engineSlug),
       privateNetworkUUID := LateInitializeString(p.privateNetworkUUID, observed.privateNetworkUUID),
       tags := tags)
  }

  /** Late initialising twice against the same record changes nothing more. */
  lemma LateInitializeSpecIdempotent(p: ClusterParameters, observed: Database)
    ensures LateInitializeSpec(LateInitializeSpec(p, observed), observed) == LateInitializeSpec(p, observed)
  {
  }

  lemma ExtendsTransitive(p: ClusterParameters, q: ClusterParameters, r: ClusterParameters)
    requires Extends(p, q) && Extends(q, r)
    ensures Extends(p, r)
  {
  }
}
