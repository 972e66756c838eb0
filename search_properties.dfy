/**
 * What the free-allocation search promises, stated over the panel's
 * inventory rather than over the scan functions that define it: which
 * allocation is returned, when the search gives up, and which GETs it issues.
 */
module SearchProperties {
  import opened JsValue
  import opened Ptero

  /** The node list the panel answers for a location. */
  function NodesAt(panel: Panel, locationId: Value): seq<Obj>
    requires ToStr(locationId) in panel.nodesByLocation
  {
    panel.nodesByLocation[ToStr(locationId)]
  }

  /** A resolvable node whose allocation list the panel answers. */
  predicate Answered(panel: Panel, node: Obj) {
    Resolvable(node) && ToStr(NodeId(node)) in panel.allocationsByNode
  }

  function AllocsOf(panel: Panel, node: Obj): seq<Obj>
    requires Answered(panel, node)
  {
    panel.allocationsByNode[ToStr(NodeId(node))]
  }

  /** A node that cannot end the search: no resolvable id, or every allocation taken. */
  predicate Exhausted(panel: Panel, node: Obj) {
    !Resolvable(node)
    || (Answered(panel, node) && forall k :: 0 <= k < |AllocsOf(panel, node)| ==> Assigned(AllocsOf(panel, node)[k]))
  }

  /** `k` is the first unassigned allocation of the list. */
  predicate FirstUnassigned(allocs: seq<Obj>, k: nat) {
    k < |allocs| && !Assigned(allocs[k]) && forall j :: 0 <= j < k ==> Assigned(allocs[j])
  }

  /** `c` describes an unassigned allocation of `node`. */
  predicate Offers(panel: Panel, node: Obj, c: Candidate) {
    Answered(panel, node)
    && exists k :: 0 <= k < |AllocsOf(panel, node)| && !Assigned(AllocsOf(panel, node)[k])
                   && c == CandidateOf(AllocsOf(panel, node)[k], NodeId(node).value)
  }

  /** The allocation GET a node causes: one for a resolvable node, none otherwise. */
  function UrlOf(base: string, node: Obj): seq<string> {
    if Resolvable(node) then [AllocationsUrl(base, NodeId(node))] else []
  }

  /** The allocation GETs of the resolvable nodes of a list, in order. */
  function AllocationUrls(base: string, nodes: seq<Obj>): seq<string> {
    if nodes == [] then [] else UrlOf(base, nodes[0]) + AllocationUrls(base, nodes[1..])
  }

  // ---------------------------------------------------------------- one node

  /** Scanning one node: skipped, failed, or its first unassigned allocation. */
  lemma ScanNodeCases(base: string, panel: Panel, node: Obj)
    ensures ScanNodeSpec(base, panel, node).requests == UrlOf(base, node)
    ensures Stops(ScanNodeSpec(base, panel, node)) <==> !Exhausted(panel, node)
    ensures ScanNodeSpec(base, panel, node).found.Err? ==> ScanNodeSpec(base, panel, node).found.error.TransportError?
    ensures Resolvable(node) && !Answered(panel, node) ==>
      ScanNodeSpec(base, panel, node).found == Err(TransportError(AllocationsUrl(base, NodeId(node))))
    ensures forall c :: ScanNodeSpec(base, panel, node).found == Ok(Some(c)) ==> Offers(panel, node, c)
    ensures Answered(panel, node) ==> forall k: nat :: FirstUnassigned(AllocsOf(panel, node), k) ==>
      ScanNodeSpec(base, panel, node).found == Ok(Some(CandidateOf(AllocsOf(panel, node)[k], NodeId(node).value)))
  {
    if Answered(panel, node) {
      var allocs := AllocsOf(panel, node);
      var f := FirstFree(allocs);
      if f == |allocs| {
        assert Exhausted(panel, node);
      } else {
        assert !Exhausted(panel, node) by { assert !Assigned(allocs[f]); }
      }
      forall k: nat | FirstUnassigned(allocs, k) ensures f == k {
      }
    }
  }

  /** An exhausted node never ends the search; it only adds its own GET. */
  lemma ExhaustedPassesOn(base: string, panel: Panel, node: Obj)
    requires Exhausted(panel, node)
    ensures !Stops(ScanNodeSpec(base, panel, node))
    ensures ScanNodeSpec(base, panel, node).requests == UrlOf(base, node)
  {
    ScanNodeCases(base, panel, node);
  }

  // ---------------------------------------------------------------- the loop over all nodes

  /** An exhausted head node passes the scan on to the rest of the list. */
  lemma ScanNodesStep(base: string, panel: Panel, nodes: seq<Obj>)
    requires nodes != [] && Exhausted(panel, nodes[0])
    ensures ScanNodesSpec(base, panel, nodes)
         == Scan(ScanNodesSpec(base, panel, nodes[1..]).found, UrlOf(base, nodes[0]) + ScanNodesSpec(base, panel, nodes[1..]).requests)
  {
    ExhaustedPassesOn(base, panel, nodes[0]);
  }

  /** A run of exhausted nodes before `rest` only adds their GETs and leaves the outcome to `rest`. */
  lemma {:induction false} ScanNodesSkip(base: string, panel: Panel, skipped: seq<Obj>, rest: seq<Obj>)
    requires forall j :: 0 <= j < |skipped| ==> Exhausted(panel, skipped[j])
    ensures ScanNodesSpec(base, panel, skipped + rest)
         == Scan(ScanNodesSpec(base, panel, rest).found, AllocationUrls(base, skipped) + ScanNodesSpec(base, panel, rest).requests)
  {
    if skipped == [] {
      assert skipped + rest == rest;
    } else {
      var nodes := skipped + rest;
      assert nodes[0] == skipped[0] && nodes[1..] == skipped[1..] + rest;
      ScanNodesStep(base, panel, nodes);
      ScanNodesSkip(base, panel, skipped[1..], rest);
      var head := UrlOf(base, skipped[0]);
      var tail := ScanNodesSpec(base, panel, rest).requests;
      var others := AllocationUrls(base, skipped[1..]);
      assert AllocationUrls(base, skipped) == head + others;
      AppendAssociates(head, others, tail);
    }
  }

  /** Both halves of passing over exhausted nodes at the front of the list. */
  lemma ScanNodesPrefix(base: string, panel: Panel, nodes: seq<Obj>, n: nat)
    requires n <= |nodes|
    requires forall j :: 0 <= j < n ==> Exhausted(panel, nodes[j])
    ensures ScanNodesSpec(base, panel, nodes).found == ScanNodesSpec(base, panel, nodes[n..]).found
    ensures ScanNodesSpec(base, panel, nodes).requests
         == AllocationUrls(base, nodes[..n]) + ScanNodesSpec(base, panel, nodes[n..]).requests
  {
    assert nodes == nodes[..n] + nodes[n..];
    ScanNodesSkip(base, panel, nodes[..n], nodes[n..]);
  }

  /** The first node that is not exhausted decides the scan; the nodes after it are never asked. */
  lemma ScanNodesFirst(base: string, panel: Panel, nodes: seq<Obj>, i: nat)
    requires i < |nodes|
    requires forall j :: 0 <= j < i ==> Exhausted(panel, nodes[j])
    requires !Exhausted(panel, nodes[i])
    ensures ScanNodesSpec(base, panel, nodes).found == ScanNodeSpec(base, panel, nodes[i]).found
    ensures ScanNodesSpec(base, panel, nodes).requests == AllocationUrls(base, nodes[..i + 1])
  {
    ScanNodesPrefix(base, panel, nodes, i);
    ScanNodeCases(base, panel, nodes[i]);
    assert nodes[i..][0] == nodes[i];
    AllocationUrlsAppend(base, nodes[..i], [nodes[i]]);
    assert nodes[..i] + [nodes[i]] == nodes[..i + 1];
    assert AllocationUrls(base, [nodes[i]]) == UrlOf(base, nodes[i]) by {
      assert [nodes[i]][1..] == [];
    }
  }

  /** The scan of all nodes finds nothing exactly when every node is exhausted, having asked every resolvable node. */
  lemma {:induction false} ScanNodesNone(base: string, panel: Panel, nodes: seq<Obj>)
    ensures ScanNodesSpec(base, panel, nodes).found == Ok(None)
        <==> forall j :: 0 <= j < |nodes| ==> Exhausted(panel, nodes[j])
    ensures ScanNodesSpec(base, panel, nodes).found == Ok(None) ==>
      ScanNodesSpec(base, panel, nodes).requests == AllocationUrls(base, nodes)
    ensures ScanNodesSpec(base, panel, nodes).found.Err? ==> ScanNodesSpec(base, panel, nodes).found.error.TransportError?
  {
    if nodes != [] {
      ScanNodeCases(base, panel, nodes[0]);
      ScanNodesNone(base, panel, nodes[1..]);
      assert forall j :: 1 <= j < |nodes| ==> nodes[1..][j - 1] == nodes[j];
    }
  }

  /** A candidate the scan returns is an unassigned allocation of one of the nodes. */
  lemma {:induction false} ScanNodesOffers(base: string, panel: Panel, nodes: seq<Obj>, c: Candidate)
    requires ScanNodesSpec(base, panel, nodes).found == Ok(Some(c))
    ensures exists j :: 0 <= j < |nodes| && Offers(panel, nodes[j], c)
  {
    ScanNodeCases(base, panel, nodes[0]);
    if !Stops(ScanNodeSpec(base, panel, nodes[0])) {
      ScanNodesOffers(base, panel, nodes[1..], c);
      var j :| 0 <= j < |nodes[1..]| && Offers(panel, nodes[1..][j], c);
      assert nodes[1..][j] == nodes[j + 1];
    }
  }

  /** Every GET of the scan asks for the allocations of a resolvable node of the list. */
  lemma {:induction false} ScanNodesRequests(base: string, panel: Panel, nodes: seq<Obj>)
    ensures forall u :: u in ScanNodesSpec(base, panel, nodes).requests ==>
      exists j :: 0 <= j < |nodes| && Resolvable(nodes[j]) && u == AllocationsUrl(base, NodeId(nodes[j]))
  {
    if nodes != [] {
      ScanNodeCases(base, panel, nodes[0]);
      ScanNodesRequests(base, panel, nodes[1..]);
      forall u | u in ScanNodesSpec(base, panel, nodes).requests
        ensures exists j :: 0 <= j < |nodes| && Resolvable(nodes[j]) && u == AllocationsUrl(base, NodeId(nodes[j]))
      {
        if u !in UrlOf(base, nodes[0]) {
          var j :| 0 <= j < |nodes[1..]| && Resolvable(nodes[1..][j]) && u == AllocationsUrl(base, NodeId(nodes[1..][j]));
          assert nodes[1..][j] == nodes[j + 1];
        }
      }
    }
  }

  lemma {:induction false} AllocationUrlsAppend(base: string, a: seq<Obj>, b: seq<Obj>)
    ensures AllocationUrls(base, a + b) == AllocationUrls(base, a) + AllocationUrls(base, b)
  {
    if a == [] {
      assert a + b == b;
    } else {
      var ab := a + b;
      assert ab[0] == a[0] && ab[1..] == a[1..] + b;
      AllocationUrlsAppend(base, a[1..], b);
      AppendAssociates(UrlOf(base, a[0]), AllocationUrls(base, a[1..]), AllocationUrls(base, b));
    }
  }

  /** Every resolvable node of the list has its GET among the list's GETs. */
  lemma {:induction false} UrlListed(base: string, nodes: seq<Obj>, j: nat)
    requires j < |nodes| && Resolvable(nodes[j])
    ensures AllocationsUrl(base, NodeId(nodes[j])) in AllocationUrls(base, nodes)
  {
    if j > 0 {
      UrlListed(base, nodes[1..], j - 1);
    }
  }

  // ---------------------------------------------------------------- the preferred node

  /** `p` is the first node whose short id chain matches the preference. */
  predicate PreferredAt(nodes: seq<Obj>, preferNodeId: Value, p: nat) {
    p < |nodes| && PreferredKey(nodes[p]) == ToStr(preferNodeId)
    && forall j :: 0 <= j < p ==> PreferredKey(nodes[j]) != ToStr(preferNodeId)
  }

  /** The preference picks nothing that could end the search. */
  predicate PreferenceIdle(panel: Panel, nodes: seq<Obj>, preferNodeId: Value) {
    !Truthy(preferNodeId)
    || (forall j :: 0 <= j < |nodes| ==> PreferredKey(nodes[j]) != ToStr(preferNodeId))
    || exists p :: 0 <= p < |nodes| && PreferredAt(nodes, preferNodeId, p) && Exhausted(panel, nodes[p])
  }

  /** The preferred node is the first match, whichever way the match is found. */
  lemma PreferredUnique(nodes: seq<Obj>, preferNodeId: Value, p: nat)
    requires PreferredAt(nodes, preferNodeId, p)
    ensures FindPreferred(nodes, preferNodeId) == p
  {
    var f := FindPreferred(nodes, preferNodeId);
    if f < p {
      assert false;
    } else if p < f {
      assert false;
    }
  }

  /** When the preference is idle, its scan ends nothing and costs at most the preferred node's GET. */
  lemma PreferredScanIdle(base: string, panel: Panel, nodes: seq<Obj>, preferNodeId: Value)
    requires PreferenceIdle(panel, nodes, preferNodeId)
    ensures !Stops(PreferredScan(base, panel, nodes, preferNodeId))
    ensures Truthy(preferNodeId) && (exists p: nat :: PreferredAt(nodes, preferNodeId, p))
      ==> PreferredScan(base, panel, nodes, preferNodeId).requests
            == UrlOf(base, nodes[FindPreferred(nodes, preferNodeId)])
    ensures !Truthy(preferNodeId) || !(exists p: nat :: PreferredAt(nodes, preferNodeId, p))
      ==> PreferredScan(base, panel, nodes, preferNodeId).requests == []
  {
    var f := FindPreferred(nodes, preferNodeId);
    if Truthy(preferNodeId) && f < |nodes| {
      assert PreferredAt(nodes, preferNodeId, f);
      if exists p: nat :: PreferredAt(nodes, preferNodeId, p) && Exhausted(panel, nodes[p]) {
        var p: nat :| PreferredAt(nodes, preferNodeId, p) && Exhausted(panel, nodes[p]);
        PreferredUnique(nodes, preferNodeId, p);
      }
      ScanNodeCases(base, panel, nodes[f]);
    } else if exists p: nat :: PreferredAt(nodes, preferNodeId, p) {
      var p: nat :| PreferredAt(nodes, preferNodeId, p);
      PreferredUnique(nodes, preferNodeId, p);
    }
  }

  // ---------------------------------------------------------------- the whole search

  /**
   * A preferred node that matches and has a free allocation wins, even when
   * an earlier node of the list has one too; only its allocations are asked for.
   */
  lemma PreferredNodeWins(base: string, panel: Panel, locationId: Value, preferNodeId: Value, p: nat, k: nat)
    requires ToStr(locationId) in panel.nodesByLocation
    requires Truthy(preferNodeId) && PreferredAt(NodesAt(panel, locationId), preferNodeId, p)
    requires Answered(panel, NodesAt(panel, locationId)[p])
    requires FirstUnassigned(AllocsOf(panel, NodesAt(panel, locationId)[p]), k)
    ensures var node := NodesAt(panel, locationId)[p];
      FindSpec(base, panel, locationId, preferNodeId)
        == Search(Ok(CandidateOf(AllocsOf(panel, node)[k], NodeId(node).value)),
                  [NodesUrl(base, locationId), AllocationsUrl(base, NodeId(node))])
  {
    var nodes := NodesAt(panel, locationId);
    PreferredUnique(nodes, preferNodeId, p);
    ScanNodeCases(base, panel, nodes[p]);
  }

  /** A preferred node that matches but whose GET fails ends the search with that failure. */
  lemma PreferredNodeFails(base: string, panel: Panel, locationId: Value, preferNodeId: Value, p: nat)
    requires ToStr(locationId) in panel.nodesByLocation
    requires Truthy(preferNodeId) && PreferredAt(NodesAt(panel, locationId), preferNodeId, p)
    requires Resolvable(NodesAt(panel, locationId)[p]) && !Answered(panel, NodesAt(panel, locationId)[p])
    ensures var url := AllocationsUrl(base, NodeId(NodesAt(panel, locationId)[p]));
      FindSpec(base, panel, locationId, preferNodeId) == Search(Err(TransportError(url)), [NodesUrl(base, locationId), url])
  {
    var nodes := NodesAt(panel, locationId);
    PreferredUnique(nodes, preferNodeId, p);
    ScanNodeCases(base, panel, nodes[p]);
  }

  /**
   * Otherwise the first node in list order that is not exhausted decides:
   * its first unassigned allocation, or the failure of its GET. No node after
   * it is asked for its allocations.
   */
  lemma ListOrderDecides(base: string, panel: Panel, locationId: Value, preferNodeId: Value, i: nat)
    requires ToStr(locationId) in panel.nodesByLocation
    requires PreferenceIdle(panel, NodesAt(panel, locationId), preferNodeId)
    requires i < |NodesAt(panel, locationId)| && !Exhausted(panel, NodesAt(panel, locationId)[i])
    requires forall j :: 0 <= j < i ==> Exhausted(panel, NodesAt(panel, locationId)[j])
    ensures var nodes := NodesAt(panel, locationId);
      FindSpec(base, panel, locationId, preferNodeId).requests
        == [NodesUrl(base, locationId)] + PreferredScan(base, panel, nodes, preferNodeId).requests
           + AllocationUrls(base, nodes[..i + 1])
    ensures var node := NodesAt(panel, locationId)[i];
      Answered(panel, node) ==> forall k: nat :: FirstUnassigned(AllocsOf(panel, node), k) ==>
        FindSpec(base, panel, locationId, preferNodeId).result == Ok(CandidateOf(AllocsOf(panel, node)[k], NodeId(node).value))
    ensures var node := NodesAt(panel, locationId)[i];
      !Answered(panel, node) ==>
        FindSpec(base, panel, locationId, preferNodeId).result == Err(TransportError(AllocationsUrl(base, NodeId(node))))
  {
    var nodes := NodesAt(panel, locationId);
    PreferredScanIdle(base, panel, nodes, preferNodeId);
    ScanNodesFirst(base, panel, nodes, i);
    ScanNodeCases(base, panel, nodes[i]);
    var first := PreferredScan(base, panel, nodes, preferNodeId);
    var all := ScanNodesSpec(base, panel, nodes);
    assert Then(first, all) == Scan(all.found, first.requests + all.requests);
    AppendAssociates([NodesUrl(base, locationId)], first.requests, all.requests);
  }

  /** 'No free allocations found' exactly when the location is answered and every node is exhausted. */
  lemma NoFreeAllocationsIff(base: string, panel: Panel, locationId: Value, preferNodeId: Value)
    ensures FindSpec(base, panel, locationId, preferNodeId).result == Err(NoFreeAllocations)
        <==> ToStr(locationId) in panel.nodesByLocation
             && forall j :: 0 <= j < |NodesAt(panel, locationId)| ==> Exhausted(panel, NodesAt(panel, locationId)[j])
  {
    if ToStr(locationId) in panel.nodesByLocation {
      var nodes := NodesAt(panel, locationId);
      ScanNodesNone(base, panel, nodes);
      var f := FindPreferred(nodes, preferNodeId);
      if Truthy(preferNodeId) && f < |nodes| {
        ScanNodeCases(base, panel, nodes[f]);
      }
    }
  }

  /** A returned allocation is an unassigned allocation of a node of the location. */
  lemma ReturnedAllocationIsFree(base: string, panel: Panel, locationId: Value, preferNodeId: Value)
    requires FindSpec(base, panel, locationId, preferNodeId).result.Ok?
    ensures ToStr(locationId) in panel.nodesByLocation
    ensures var c := FindSpec(base, panel, locationId, preferNodeId).result.value;
      exists j :: 0 <= j < |NodesAt(panel, locationId)| && Offers(panel, NodesAt(panel, locationId)[j], c)
  {
    var nodes := NodesAt(panel, locationId);
    var c := FindSpec(base, panel, locationId, preferNodeId).result.value;
    var f := FindPreferred(nodes, preferNodeId);
    if Truthy(preferNodeId) && f < |nodes| && Stops(ScanNodeSpec(base, panel, nodes[f])) {
      ScanNodeCases(base, panel, nodes[f]);
    } else {
      ScanNodesOffers(base, panel, nodes, c);
    }
  }

  /**
   * The first GET is the location's node list; every other GET asks for the
   * allocations of a resolvable node of that list, so a node whose id does
   * not resolve is never queried.
   */
  lemma RequestsTargetResolvableNodes(base: string, panel: Panel, locationId: Value, preferNodeId: Value)
    ensures |FindSpec(base, panel, locationId, preferNodeId).requests| > 0
    ensures FindSpec(base, panel, locationId, preferNodeId).requests[0] == NodesUrl(base, locationId)
    ensures ToStr(locationId) !in panel.nodesByLocation ==>
      FindSpec(base, panel, locationId, preferNodeId).requests == [NodesUrl(base, locationId)]
    ensures ToStr(locationId) in panel.nodesByLocation ==>
      forall u :: u in FindSpec(base, panel, locationId, preferNodeId).requests[1..] ==>
        exists j :: 0 <= j < |NodesAt(panel, locationId)| && Resolvable(NodesAt(panel, locationId)[j])
                    && u == AllocationsUrl(base, NodeId(NodesAt(panel, locationId)[j]))
  {
    if ToStr(locationId) in panel.nodesByLocation {
      var nodes := NodesAt(panel, locationId);
      ScanNodesRequests(base, panel, nodes);
      var f := FindPreferred(nodes, preferNodeId);
      if Truthy(preferNodeId) && f < |nodes| {
        ScanNodeCases(base, panel, nodes[f]);
      }
      var s := FindSpec(base, panel, locationId, preferNodeId);
      assert s.requests[1..] == Then(PreferredScan(base, panel, nodes, preferNodeId), ScanNodesSpec(base, panel, nodes)).requests;
    }
  }

  /**
   * A preferred node with no free allocation is asked for its allocations
   * twice: once as the preferred node and again in the scan of all nodes.
   */
  lemma ExhaustedPreferredAskedTwice(base: string, panel: Panel, locationId: Value, preferNodeId: Value, p: nat)
    requires ToStr(locationId) in panel.nodesByLocation
    requires Truthy(preferNodeId) && PreferredAt(NodesAt(panel, locationId), preferNodeId, p)
    requires Resolvable(NodesAt(panel, locationId)[p])
    requires forall j :: 0 <= j <= p ==> Exhausted(panel, NodesAt(panel, locationId)[j])
    ensures var url := AllocationsUrl(base, NodeId(NodesAt(panel, locationId)[p]));
      var requests := FindSpec(base, panel, locationId, preferNodeId).requests;
      |requests| > 2 && requests[1] == url && url in requests[2..]
  {
    var nodes := NodesAt(panel, locationId);
    PreferredUnique(nodes, preferNodeId, p);
    ExhaustedPassesOn(base, panel, nodes[p]);
    var first := PreferredScan(base, panel, nodes, preferNodeId);
    assert first == ScanNodeSpec(base, panel, nodes[p]);
    ScanNodesPrefix(base, panel, nodes, p + 1);
    assert nodes[..p + 1][p] == nodes[p];
    UrlListed(base, nodes[..p + 1], p);
    var all := ScanNodesSpec(base, panel, nodes);
    assert first.requests == [AllocationsUrl(base, NodeId(nodes[p]))];
    assert FindSpec(base, panel, locationId, preferNodeId).requests
        == [NodesUrl(base, locationId), AllocationsUrl(base, NodeId(nodes[p]))] + all.requests;
  }

  // ---------------------------------------------------------------- the two id chains

  /**
   * A node that carries only `attributes.uuid` is scanned under that uuid,
   * yet the preference for the same uuid does not pick it: the preferred-node
   * lookup reads only `attributes.id` and `id`, so only the preference
   * "undefined" matches it.
   */
  lemma UuidNodeNotPreferred()
    ensures var node := map["attributes" := JObj(map["uuid" := JStr("n-7")])];
      && NodeId(node) == Some(JStr("n-7"))
      && Resolvable(node)
      && PreferredKey(node) == "undefined"
      && FindPreferred([node], Some(JStr("n-7"))) == 1
      && FindPreferred([node], Some(JStr("undefined"))) == 0
  {
    var node := map["attributes" := JObj(map["uuid" := JStr("n-7")])];
    assert !Truthy(At(Some(JObj(node)), ["attributes", "id"]));
    assert !Truthy(At(Some(JObj(node)), ["id"]));
    assert !Truthy(At(Some(JObj(node)), ["attributes", "identifier"]));
    assert !Truthy(At(Some(JObj(node)), ["attributes", "node_id"]));
    assert At(Some(JObj(node)), ["attributes", "uuid"]) == Some(JStr("n-7"));
    assert FirstTruthyAt(Some(JObj(node)), NodeIdPaths, 4);
  }

  /** Allocation `A1` at 1.2.3.4:25565, explicitly unassigned. */
  const A1Attributes: Json :=
    JObj(map["id" := JStr("A1"), "assigned" := JBool(false), "ip" := JStr("1.2.3.4"), "port" := JNum(25565)])
  const A1: Obj := map["attributes" := A1Attributes]
  const N1: Obj := map["attributes" := JObj(map["id" := JStr("N1")])]
  /** Location `L1` holds node `N1`, which holds allocation `A1`. */
  const SamplePanel: Panel := Panel(map["L1" := [N1]], map["N1" := [A1]])

  lemma SampleNodeAnswered()
    ensures NodeId(N1) == Some(JStr("N1")) && Answered(SamplePanel, N1) && AllocsOf(SamplePanel, N1) == [A1]
  {
    assert At(Some(JObj(N1)), NodeIdPaths[0]) == Some(JStr("N1"));
  }

  lemma SampleAllocationFree()
    ensures !Assigned(A1)
    ensures CandidateOf(A1, JStr("N1")) == Candidate(Some(JStr("A1")), Some(JStr("1.2.3.4")), Some(JNum(25565)), JStr("N1"))
  {
    assert Resolve(Some(JObj(A1)), SelfOrAttributes) == Some(A1Attributes);
  }

  /** Scanning `N1` asks for its allocations once and offers `A1`. */
  lemma SampleNodeScan(base: string)
    ensures ScanNodeSpec(base, SamplePanel, N1)
         == Scan(Ok(Some(CandidateOf(A1, JStr("N1")))), [AllocationsUrl(base, Some(JStr("N1")))])
  {
    SampleNodeAnswered();
    SampleAllocationFree();
    assert FirstUnassigned(AllocsOf(SamplePanel, N1), 0);
    ScanNodeCases(base, SamplePanel, N1);
  }

  lemma SampleLocation()
    ensures ToStr(Some(JStr("L1"))) == "L1" && "L1" in SamplePanel.nodesByLocation
    ensures SamplePanel.nodesByLocation["L1"] == [N1]
  {
  }

  /** With no preference, the search of `L1` is the scan of `N1` after the node-list GET. */
  lemma SampleSearch(base: string)
    ensures FindSpec(base, SamplePanel, Some(JStr("L1")), None)
         == Search(Ok(CandidateOf(A1, JStr("N1"))), [NodesUrl(base, Some(JStr("L1"))), AllocationsUrl(base, Some(JStr("N1")))])
  {
    SampleNodeScan(base);
    var scan := ScanNodeSpec(base, SamplePanel, N1);
    SampleLocation();
    var nodes := SamplePanel.nodesByLocation["L1"];
    assert PreferredScan(base, SamplePanel, nodes, None) == Scan(Ok(None), []);
    assert ScanNodesSpec(base, SamplePanel, nodes) == scan by {
      assert Stops(scan);
    }
    assert !Stops(Scan(Ok(None), [])) && [] + scan.requests == scan.requests;
    assert Then(Scan(Ok(None), []), scan) == scan;
  }

  /**
   * One location `L1` with one node `N1` holding one unassigned allocation
   * `A1` at 1.2.3.4:25565: the search returns that allocation.
   */
  lemma SingleFreeAllocation(base: string)
    ensures FindSpec(base, SamplePanel, Some(JStr("L1")), None).result
         == Ok(Candidate(Some(JStr("A1")), Some(JStr("1.2.3.4")), Some(JNum(25565)), JStr("N1")))
  {
    SampleSearch(base);
    SampleAllocationFree();
  }

  /** The same search issues two GETs: the node list of `L1`, then the allocations of `N1`. */
  lemma SingleFreeAllocationRequests(base: string)
    ensures FindSpec(base, SamplePanel, Some(JStr("L1")), None).requests
         == [NodesUrl(base, Some(JStr("L1"))), AllocationsUrl(base, Some(JStr("N1")))]
  {
    SampleSearch(base);
  }
}
