/**
 * The hosting-panel client: its configuration check and base URL, the body
 * of a server-creation request, the search for a free network allocation and
 * the extraction of ip and port from a server-creation response.
 *
 * The panel is not called: what it answers to the two GETs of a search is a
 * fixed `Panel` value, and a GET it does not answer successfully ends the
 * search with `TransportError`.
 */
module Ptero {
  import opened JsValue

  const ApiRoot: string := "/api/application"

  datatype Error =
    | ConfigMissing              // 'Pterodactyl config missing'
    | TransportError(url: string) // a GET the panel did not answer successfully
    | NoFreeAllocations          // 'No free allocations found'

  datatype Result<+T> = Ok(value: T) | Err(error: Error)

  /** A JSON object as the panel sends it. */
  type Obj = map<string, Json>

  /**
   * The panel's inventory as seen by one search: the node list of each
   * location and the allocation list of each node, keyed by the id as it
   * appears in the request path. A key that is absent is a GET that fails.
   */
  datatype Panel = Panel(nodesByLocation: map<string, seq<Obj>>, allocationsByNode: map<string, seq<Obj>>)

  // ---------------------------------------------------------------- configuration

  /** `url.replace(/\/+$/, '')` */
  function StripTrailingSlashes(url: string): (r: string)
    ensures |r| <= |url| && r == url[..|r|]
    ensures forall i :: |r| <= i < |url| ==> url[i] == '/'
    ensures r == [] || r[|r| - 1] != '/'
  {
    if url != [] && url[|url| - 1] == '/' then StripTrailingSlashes(url[..|url| - 1]) else url
  }

  function Slashes(n: nat): (s: string)
    ensures |s| == n && forall i :: 0 <= i < n ==> s[i] == '/'
  {
    if n == 0 then [] else Slashes(n - 1) + ['/']
  }

  /** However many slashes a configured URL ends with, the base URL is the same. */
  lemma {:induction false} TrailingSlashesIgnored(url: string, n: nat)
    ensures StripTrailingSlashes(url + Slashes(n)) == StripTrailingSlashes(url)
  {
    if n == 0 {
      assert url + Slashes(0) == url;
    } else {
      var s := url + Slashes(n);
      assert s[|s| - 1] == '/';
      assert s[..|s| - 1] == url + Slashes(n - 1);
      TrailingSlashesIgnored(url, n - 1);
    }
  }

  /** A configuration value is present when it is set and not empty (`!!v`). */
  predicate Present(v: Option<string>) {
    v.Some? && v.value != ""
  }

  class Ptero {
    /** The application-API base URL every request is sent under. */
    const base: string

    constructor (url: string, applicationKey: string)
      requires url != "" && applicationKey != ""
      ensures base == StripTrailingSlashes(url) + ApiRoot
    {
      base := StripTrailingSlashes(url) + ApiRoot;
    }

    /** `new Ptero({ url, applicationKey })`, which throws when either is missing or empty. */
    static method New(url: Option<string>, applicationKey: Option<string>) returns (r: Result<Ptero>)
      ensures r.Err? <==> !Present(url) || !Present(applicationKey)
      ensures r.Err? ==> r.error == ConfigMissing
      ensures r.Ok? ==> fresh(r.value) && r.value.base == StripTrailingSlashes(url.value) + ApiRoot
    {
      if !Present(url) || !Present(applicationKey) {
        return Err(ConfigMissing);
      }
      var p := new Ptero(url.value, applicationKey.value);
      return Ok(p);
    }

    /** `scanNode`: the first unassigned allocation of one node. */
    method ScanNode(panel: Panel, node: Obj) returns (s: Scan)
      ensures s == ScanNodeSpec(base, panel, node)
    {
      var nodeId := NodeId(node);
      if !Truthy(nodeId) {
        return Scan(Ok(None), []);
      }
      var url := base + "/nodes/" + ToStr(nodeId) + "/allocations";
      if ToStr(nodeId) !in panel.allocationsByNode {
        return Scan(Err(TransportError(url)), [url]);
      }
      var allocs := panel.allocationsByNode[ToStr(nodeId)];
      for k := 0 to |allocs|
        invariant forall j :: 0 <= j < k ==> Assigned(allocs[j])
      {
        if !Assigned(allocs[k]) {
          assert FirstFree(allocs) == k;
          return Scan(Ok(Some(CandidateOf(allocs[k], nodeId.value))), [url]);
        }
      }
      assert FirstFree(allocs) == |allocs|;
      return Scan(Ok(None), [url]);
    }

    /** The preferred node, when one is given and a node in the list matches it, scanned first. */
    method ScanPreferred(panel: Panel, nodes: seq<Obj>, preferNodeId: Value) returns (first: Scan)
      ensures first == PreferredScan(base, panel, nodes, preferNodeId)
    {
      first := Scan(Ok(None), []);
      if Truthy(preferNodeId) {
        var i := FindPreferred(nodes, preferNodeId);
        if i < |nodes| {
          first := ScanNode(panel, nodes[i]);
        }
      }
    }

    /** The loop over all nodes: the first node whose scan stops the search decides the outcome. */
    method ScanNodes(panel: Panel, nodes: seq<Obj>) returns (s: Scan)
      ensures s == ScanNodesSpec(base, panel, nodes)
    {
      var requests: seq<string> := [];
      for n := 0 to |nodes|
        invariant ScanNodesSpec(base, panel, nodes)
          == Scan(ScanNodesSpec(base, panel, nodes[n..]).found, requests + ScanNodesSpec(base, panel, nodes[n..]).requests)
      {
        assert nodes[n..][0] == nodes[n] && nodes[n..][1..] == nodes[n + 1..];
        var t := ScanNode(panel, nodes[n]);
        if Stops(t) {
          return Scan(t.found, requests + t.requests);
        }
        AppendAssociates(requests, t.requests, ScanNodesSpec(base, panel, nodes[n + 1..]).requests);
        requests := requests + t.requests;
      }
      assert nodes[|nodes|..] == [];
      return Scan(Ok(None), requests);
    }

    /**
     * `findFreeAllocation(locationId, preferNodeId, preferAllocationId)`:
     * the preferred node first, then every node in list order. Also returns
     * the URLs of the GETs issued, in order.
     */
    method FindFreeAllocation(panel: Panel, locationId: Value, preferNodeId: Value, preferAllocationId: Value)
      returns (r: Result<Candidate>, requests: seq<string>)
      ensures Search(r, requests) == FindSpec(base, panel, locationId, preferNodeId)
    {
      // preferAllocationId is accepted and never consulted
      var nodesUrl := NodesUrl(base, locationId);
      requests := [nodesUrl];
      if ToStr(locationId) !in panel.nodesByLocation {
        return Err(TransportError(nodesUrl)), requests;
      }
      var nodes := panel.nodesByLocation[ToStr(locationId)];

      // 2) the preferred node; 3) every node, unless the preferred one already decided
      var first := ScanPreferred(panel, nodes, preferNodeId);
      var s := first;
      if !Stops(first) {
        var all := ScanNodes(panel, nodes);
        s := Scan(all.found, first.requests + all.requests);
      }
      assert s == Then(first, ScanNodesSpec(base, panel, nodes));
      // a candidate is returned; nothing found throws 'No free allocations found'
      r := Outcome(s.found);
      requests := requests + s.requests;
    }
  }

  // ---------------------------------------------------------------- the search, as functions

  /** `node.attributes?.id || node.id || node.attributes?.identifier || node.attributes?.node_id || node.attributes?.uuid` */
  const NodeIdPaths: seq<seq<string>> :=
    [["attributes", "id"], ["id"], ["attributes", "identifier"], ["attributes", "node_id"], ["attributes", "uuid"]]

  /** `n.attributes?.id || n.id`: the shorter chain the preferred-node lookup uses. */
  const PreferredIdPaths: seq<seq<string>> := [["attributes", "id"], ["id"]]

  /** `a.attributes || a` */
  const SelfOrAttributes: seq<seq<string>> := [["attributes"], []]

  /** `attr.id || attr.attributes?.id || attr.attributes?.allocation || attr.attributes?.allocation_id` */
  const AllocationIdPaths: seq<seq<string>> :=
    [["id"], ["attributes", "id"], ["attributes", "allocation"], ["attributes", "allocation_id"]]

  const IpPaths: seq<seq<string>> := [["ip"], ["attributes", "ip"]]
  const PortPaths: seq<seq<string>> := [["port"], ["attributes", "port"]]

  function NodeId(node: Obj): Value {
    Resolve(Some(JObj(node)), NodeIdPaths)
  }

  /** A node whose id resolves; only such nodes are asked for their allocations. */
  predicate Resolvable(node: Obj) {
    Truthy(NodeId(node))
  }

  function NodesUrl(base: string, locationId: Value): string {
    base + "/locations/" + ToStr(locationId) + "/nodes"
  }

  function AllocationsUrl(base: string, nodeId: Value): string {
    base + "/nodes/" + ToStr(nodeId) + "/allocations"
  }

  /** Whether an allocation is taken: `assigned` when the field is there, otherwise `!!server_id`. */
  predicate Assigned(a: Obj) {
    var attr := Resolve(Some(JObj(a)), SelfOrAttributes);
    if Get(attr, "assigned").Some? then Truthy(Get(attr, "assigned")) else Truthy(Get(attr, "server_id"))
  }

  /** The object `scanNode` returns for a free allocation. */
  datatype Candidate = Candidate(allocationId: Value, ip: Value, port: Value, nodeId: Json)

  function CandidateOf(a: Obj, nodeId: Json): Candidate {
    var attr := Resolve(Some(JObj(a)), SelfOrAttributes);
    Candidate(Resolve(attr, AllocationIdPaths), Resolve(attr, IpPaths), Resolve(attr, PortPaths), nodeId)
  }

  /** The index of the first unassigned allocation, `|allocs|` when all are assigned. */
  function FirstFree(allocs: seq<Obj>): (k: nat)
    ensures k <= |allocs|
    ensures k < |allocs| ==> !Assigned(allocs[k])
    ensures forall j :: 0 <= j < k ==> Assigned(allocs[j])
  {
    if allocs == [] || !Assigned(allocs[0]) then 0 else 1 + FirstFree(allocs[1..])
  }

  /** What scanning nodes gives: a candidate, nothing, or a failed GET; with the allocation GETs issued. */
  datatype Scan = Scan(found: Result<Option<Candidate>>, requests: seq<string>)

  /** A scan that ends the search: a failed GET or a candidate. */
  predicate Stops(s: Scan) {
    s.found.Err? || s.found.value.Some?
  }

  function ScanNodeSpec(base: string, panel: Panel, node: Obj): Scan {
    var nodeId := NodeId(node);
    if !Truthy(nodeId) then Scan(Ok(None), [])
    else
      var url := base + "/nodes/" + ToStr(nodeId) + "/allocations";
      if ToStr(nodeId) !in panel.allocationsByNode then Scan(Err(TransportError(url)), [url])
      else
        var allocs := panel.allocationsByNode[ToStr(nodeId)];
        var k := FirstFree(allocs);
        Scan(Ok(if k < |allocs| then Some(CandidateOf(allocs[k], nodeId.value)) else None), [url])
  }

  /** `for (const node of nodes) { const r = await scanNode(node); if (r) return r; }` */
  function ScanNodesSpec(base: string, panel: Panel, nodes: seq<Obj>): Scan {
    if nodes == [] then Scan(Ok(None), [])
    else
      var first := ScanNodeSpec(base, panel, nodes[0]);
      if Stops(first) then first
      else
        var rest := ScanNodesSpec(base, panel, nodes[1..]);
        Scan(rest.found, first.requests + rest.requests)
  }

  /** `String(n.attributes?.id || n.id)` */
  function PreferredKey(node: Obj): string {
    ToStr(Resolve(Some(JObj(node)), PreferredIdPaths))
  }

  /** `nodes.find(n => String(n.attributes?.id || n.id) === String(preferNodeId))`, as an index. */
  function FindPreferred(nodes: seq<Obj>, preferNodeId: Value): (i: nat)
    ensures i <= |nodes|
    ensures i < |nodes| ==> PreferredKey(nodes[i]) == ToStr(preferNodeId)
    ensures forall j :: 0 <= j < i ==> PreferredKey(nodes[j]) != ToStr(preferNodeId)
  {
    if nodes == [] || PreferredKey(nodes[0]) == ToStr(preferNodeId) then 0
    else 1 + FindPreferred(nodes[1..], preferNodeId)
  }

  /** The outcome of a whole search and the GETs it issued. */
  datatype Search = Search(result: Result<Candidate>, requests: seq<string>)

  /** The scan of the preferred node: only when a preference is given and a node's id matches it. */
  function PreferredScan(base: string, panel: Panel, nodes: seq<Obj>, preferNodeId: Value): Scan {
    var i := FindPreferred(nodes, preferNodeId);
    if Truthy(preferNodeId) && i < |nodes| then ScanNodeSpec(base, panel, nodes[i]) else Scan(Ok(None), [])
  }

  /** The preferred scan when it stops the search, otherwise it followed by the scan of all nodes. */
  function Then(first: Scan, all: Scan): Scan {
    if Stops(first) then first else Scan(all.found, first.requests + all.requests)
  }

  /** A scan that found nothing ends in 'No free allocations found'. */
  function Outcome(found: Result<Option<Candidate>>): Result<Candidate> {
    match found
    case Err(e) => Err(e)
    case Ok(None) => Err(NoFreeAllocations)
    case Ok(Some(c)) => Ok(c)
  }

  function FindSpec(base: string, panel: Panel, locationId: Value, preferNodeId: Value): Search {
    var nodesUrl := NodesUrl(base, locationId);
    if ToStr(locationId) !in panel.nodesByLocation then Search(Err(TransportError(nodesUrl)), [nodesUrl])
    else
      var nodes := panel.nodesByLocation[ToStr(locationId)];
      var s := Then(PreferredScan(base, panel, nodes, preferNodeId), ScanNodesSpec(base, panel, nodes));
      Search(Outcome(s.found), [nodesUrl] + s.requests)
  }

  // ---------------------------------------------------------------- server creation

  /** The arguments of `createServer`; `None` is an argument left undefined. */
  datatype ServerArgs = ServerArgs(
    name: Value, user: Value, nest: Value, egg: Value, dockerImage: Value, startup: Value,
    memory: Value, disk: Value, cpu: Value, allocation: Value)

  /** An object literal as JSON.stringify sends it: a property whose value is undefined is left out. */
  function Stringified(props: map<string, Value>): (m: Obj)
    ensures forall k :: Get(Some(JObj(m)), k) == if k in props then props[k] else None
  {
    map k | k in props && props[k].Some? :: props[k].value
  }

  /** `[allocation]` as JSON.stringify sends it: an undefined element becomes null. */
  function ElementOf(v: Value): Json {
    if v.Some? then v.value else JNull
  }

  /** `limits: { memory, swap: 0, disk, io: 500, cpu }` */
  function Limits(args: ServerArgs): Obj {
    Stringified(map["memory" := args.memory, "swap" := Some(JNum(0)), "disk" := args.disk,
                    "io" := Some(JNum(500)), "cpu" := args.cpu])
  }

  /** The JSON body `createServer` posts to /servers. */
  function CreateServerBody(args: ServerArgs): Json {
    JObj(Stringified(map[
      "name" := args.name, "user" := args.user, "nest" := args.nest, "egg" := args.egg,
      "docker_image" := args.dockerImage, "startup" := args.startup,
      "environment" := Some(JObj(map[])),
      "limits" := Some(JObj(Limits(args))),
      "feature_limits" := Some(JObj(map[])),
      "allocation" := args.allocation,
      "allocations" := Some(JArr([ElementOf(args.allocation)]))]))
  }

  /** The fields the request always sends the same: environment and feature limits are empty. */
  lemma ServerBodyFixedFields(args: ServerArgs)
    ensures var body := Some(CreateServerBody(args));
      && Get(body, "environment") == Some(JObj(map[]))
      && Get(body, "feature_limits") == Some(JObj(map[]))
  {
  }

  /** The identity of the server is sent as given; an undefined argument is not sent. */
  lemma ServerBodyIdentity(args: ServerArgs)
    ensures var body := Some(CreateServerBody(args));
      && Get(body, "name") == args.name && Get(body, "user") == args.user
      && Get(body, "nest") == args.nest && Get(body, "egg") == args.egg
  {
  }

  /** The image and start command are sent as given; an undefined argument is not sent. */
  lemma ServerBodyImage(args: ServerArgs)
    ensures var body := Some(CreateServerBody(args));
      && Get(body, "docker_image") == args.dockerImage && Get(body, "startup") == args.startup
  {
  }

  /** The allocation is sent as given, and the allocation list holds exactly that one allocation. */
  lemma ServerBodyAllocation(args: ServerArgs)
    ensures var body := Some(CreateServerBody(args));
      && Get(body, "allocation") == args.allocation
      && Get(body, "allocations") == Some(JArr([ElementOf(args.allocation)]))
  {
  }

  /** The resource limits are the arguments given; swap is always 0 and io always 500. */
  lemma ServerBodyLimits(args: ServerArgs)
    ensures var limits := Get(Some(CreateServerBody(args)), "limits");
      && Get(limits, "memory") == args.memory
      && Get(limits, "disk") == args.disk
      && Get(limits, "cpu") == args.cpu
      && Get(limits, "swap") == Some(JNum(0))
      && Get(limits, "io") == Some(JNum(500))
  {
    assert Get(Some(CreateServerBody(args)), "limits") == Some(JObj(Limits(args)));
  }

  /** Nothing but the eleven keys of the request is sent. */
  lemma ServerBodyKeys(args: ServerArgs)
    ensures CreateServerBody(args).fields.Keys <= {"name", "user", "nest", "egg", "docker_image", "startup",
                                                   "environment", "limits", "feature_limits", "allocation", "allocations"}
  {
  }

  // ---------------------------------------------------------------- server-creation response

  datatype IpPort = IpPort(ip: Value, port: Value)

  /** What `extractIpPortFromServer` does: returns an IpPort or null, or throws (a null first allocation). */
  datatype Extracted = Threw | Returned(ipPort: Option<IpPort>)

  /** `serverResp?.data?.attributes || serverResp?.attributes || serverResp` */
  const ServerPaths: seq<seq<string>> := [["data", "attributes"], ["attributes"], []]

  /** The four places an allocation list may be, in the order they are tried. */
  const AllocationListPaths: seq<seq<string>> :=
    [["relationships", "allocations", "data"], ["attributes", "allocation"], ["attributes", "allocations"], ["allocations"]]

  /** `{ ip: m.ip || m.attributes?.ip, port: m.port || m.attributes?.port }` */
  function IpPortOf(m: Value): IpPort {
    IpPort(Resolve(m, IpPaths), Resolve(m, PortPaths))
  }

  predicate NonEmptyArray(v: Value) {
    v.Some? && v.value.JArr? && |v.value.items| > 0
  }

  /** The outcome for the first element of a non-empty allocation list. */
  function FromHead(head: Json): Extracted {
    if head == JNull then Threw else Returned(Some(IpPortOf(Resolve(Some(head), SelfOrAttributes))))
  }

  function ExtractIpPortFromServer(serverResp: Value): (r: Extracted)
    ensures var c := Resolve(serverResp, ServerPaths);
      forall i :: 0 <= i < |AllocationListPaths| && FirstTruthyAt(c, AllocationListPaths, i) ==>
        if NonEmptyArray(At(c, AllocationListPaths[i])) then r == FromHead(At(c, AllocationListPaths[i]).value.items[0])
        else r.Returned? && r.ipPort == ObjectFallback(c)
    ensures var c := Resolve(serverResp, ServerPaths);
      (forall i :: 0 <= i < |AllocationListPaths| ==> !Truthy(At(c, AllocationListPaths[i]))) ==>
        r == Returned(None)
  {
    var candidate := Resolve(serverResp, ServerPaths);
    var allocs := Resolve(candidate, AllocationListPaths);
    ResolveFirstTruthy(candidate, AllocationListPaths);
    assert AllocationListPaths[1] == ["attributes", "allocation"];
    if NonEmptyArray(allocs) then FromHead(allocs.value.items[0])
    else Returned(ObjectFallback(candidate))
  }

  /** `const a = candidate?.attributes?.allocation; if (a) return {...}; return null` */
  function ObjectFallback(candidate: Value): Option<IpPort> {
    var a := At(candidate, ["attributes", "allocation"]);
    if Truthy(a) then Some(IpPortOf(a)) else None
  }

  /** The panel's own shape: the first allocation under `data.attributes.relationships.allocations.data`. */
  lemma PanelShapeExtracted(ip: Json, port: Json)
    requires Truthy(Some(ip)) && Truthy(Some(port))
    ensures var alloc := JObj(map["attributes" := JObj(map["ip" := ip, "port" := port])]);
      var server := JObj(map["relationships" := JObj(map["allocations" := JObj(map["data" := JArr([alloc])])])]);
      ExtractIpPortFromServer(Some(JObj(map["data" := JObj(map["attributes" := server])])))
        == Returned(Some(IpPort(Some(ip), Some(port))))
  {
    var alloc := JObj(map["attributes" := JObj(map["ip" := ip, "port" := port])]);
    var server := JObj(map["relationships" := JObj(map["allocations" := JObj(map["data" := JArr([alloc])])])]);
    var resp := Some(JObj(map["data" := JObj(map["attributes" := server])]));
    assert At(resp, ServerPaths[0]) == Some(server);
    assert Resolve(resp, ServerPaths) == Some(server);
    assert At(Some(server), AllocationListPaths[0]) == Some(JArr([alloc]));
    assert Resolve(Some(server), AllocationListPaths) == Some(JArr([alloc]));
  }

  /**
   * An empty `relationships.allocations.data` is truthy and ends the `||`
   * chain, so a non-empty `attributes.allocations` after it is never looked at.
   */
  lemma EmptyListStopsChain()
    ensures var alloc := JObj(map["ip" := JStr("10.0.0.5"), "port" := JNum(25565)]);
      var server := JObj(map[
        "relationships" := JObj(map["allocations" := JObj(map["data" := JArr([])])]),
        "attributes" := JObj(map["allocations" := JArr([alloc])])]);
      ExtractIpPortFromServer(Some(JObj(map["attributes" := server]))) == Returned(None)
  {
    var alloc := JObj(map["ip" := JStr("10.0.0.5"), "port" := JNum(25565)]);
    var server := JObj(map[
      "relationships" := JObj(map["allocations" := JObj(map["data" := JArr([])])]),
      "attributes" := JObj(map["allocations" := JArr([alloc])])]);
    var resp := Some(JObj(map["attributes" := server]));
    assert !Truthy(At(resp, ServerPaths[0]));
    assert At(resp, ServerPaths[1]) == Some(server);
    assert Resolve(resp, ServerPaths) == Some(server);
    assert At(Some(server), AllocationListPaths[0]) == Some(JArr([]));
    assert Resolve(Some(server), AllocationListPaths) == Some(JArr([]));
    assert !Truthy(At(Some(server), ["attributes", "allocation"]));
  }

  /** A null first allocation makes `allocs[0].attributes` throw. */
  lemma NullFirstAllocationThrows()
    ensures var server := JObj(map["relationships" := JObj(map["allocations" := JObj(map["data" := JArr([JNull])])])]);
      ExtractIpPortFromServer(Some(JObj(map["attributes" := server]))) == Threw
  {
    var server := JObj(map["relationships" := JObj(map["allocations" := JObj(map["data" := JArr([JNull])])])]);
    var resp := Some(JObj(map["attributes" := server]));
    assert !Truthy(At(resp, ServerPaths[0]));
    assert Resolve(resp, ServerPaths) == Some(server);
    assert Resolve(Some(server), AllocationListPaths) == Some(JArr([JNull]));
  }
}
