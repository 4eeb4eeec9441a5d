/** Service port merging of the controller: mergePort overrides field by
    field, mergePorts indexes the live ports by name, ensures the two default
    ports and folds the desired ports in. */
module Ports {
  import opened Wrappers
  import opened Types

  /** mergePort: every field of `src` that is not its zero value replaces the
      field of `dest`. The target port counts as set only when its kind is not
      0, and 0 is the integer kind: an integer target port in `src` is never
      copied, only a named one is. The app protocol is not merged. */
  function MergePort(dest: ServicePort, src: ServicePort): (r: ServicePort)
    ensures r.name == if src.name != "" then src.name else dest.name
    ensures r.protocol == if src.protocol != "" then src.protocol else dest.protocol
    ensures r.port == if src.port != 0 then src.port else dest.port
    ensures r.targetPort == if src.targetPort.kind != IntKind then src.targetPort else dest.targetPort
    ensures r.nodePort == if src.nodePort != 0 then src.nodePort else dest.nodePort
    ensures r.appProtocol == dest.appProtocol
  {
    var d1 := if src.name != "" then dest.(name := src.name) else dest;
    var d2 := if src.protocol != "" then d1.(protocol := src.protocol) else d1;
    var d3 := if src.port != 0 then d2.(port := src.port) else d2;
    var d4 := if src.targetPort.kind != 0 then d3.(targetPort := src.targetPort) else d3;
    if src.nodePort != 0 then d4.(nodePort := src.nodePort) else d4
  }

  /** Merging in the zero port changes nothing. */
  lemma MergeZeroPortIdentity(dest: ServicePort)
    ensures MergePort(dest, ZeroPort) == dest
  {
  }

  lemma MergePortIdempotent(dest: ServicePort, src: ServicePort)
    ensures MergePort(MergePort(dest, src), src) == MergePort(dest, src)
  {
  }

  /** Two successive overrides are one override by the merged source. */
  lemma MergePortAssociative(dest: ServicePort, a: ServicePort, b: ServicePort)
    ensures MergePort(MergePort(dest, a), b) == MergePort(dest, MergePort(a, b))
  {
  }

  /** An override that sets an integer target port leaves the target port of
      the live port as it was. */
  lemma IntegerTargetPortIgnored(dest: ServicePort, src: ServicePort)
    requires src.targetPort.kind == IntKind && src.targetPort.intVal != 0
    ensures MergePort(dest, src).targetPort == dest.targetPort
  {
  }

  const DefaultHttpPort := ServicePort("http", "", None, 80, IntOrString(IntKind, 80, ""), 0)
  const DefaultHttpsPort := ServicePort("https", "", None, 443, IntOrString(IntKind, 443, ""), 0)

  type PortMap = map<string, ServicePort>

  function Names(ports: seq<ServicePort>): set<string> {
    set k | 0 <= k < |ports| :: ports[k].name
  }

  /** Every entry sits under its own name. */
  predicate KeyedByName(m: PortMap) {
    forall n :: n in m ==> m[n].name == n
  }

  /** The first loop of mergePorts: later ports overwrite earlier ones of the
      same name. */
  function IndexPorts(cur: seq<ServicePort>): (m: PortMap)
    ensures m.Keys == Names(cur)
    ensures KeyedByName(m)
    ensures forall n :: n in m ==> m[n] in cur
  {
    if |cur| == 0 then map[]
    else
      var init := cur[..|cur| - 1];
      var last := cur[|cur| - 1];
      var m := IndexPorts(init);
      assert cur == init + [last];
      assert Names(cur) == Names(init) + {last.name} by {
        forall n | n in Names(cur) ensures n in Names(init) + {last.name} {
          var k :| 0 <= k < |cur| && cur[k].name == n;
          if k < |cur| - 1 { assert init[k] == cur[k]; }
        }
        forall n | n in Names(init) ensures n in Names(cur) {
          var k :| 0 <= k < |init| && init[k].name == n;
          assert cur[k] == init[k];
        }
      }
      m[last.name := last]
  }

  /** The map lookup of mergePorts: a missing name reads as the zero port. */
  function Lookup(m: PortMap, name: string): ServicePort {
    if name in m then m[name] else ZeroPort
  }

  /** The default-port step of mergePorts: http and https are added when the
      lookup of their name yields a nameless port. */
  function EnsureDefaultPorts(m: PortMap): (r: PortMap)
    requires KeyedByName(m)
    ensures KeyedByName(r)
    ensures r.Keys == m.Keys + {"http", "https"}
    ensures forall n :: n in m ==> r[n] == m[n]
    ensures "http" !in m ==> r["http"] == DefaultHttpPort
    ensures "https" !in m ==> r["https"] == DefaultHttpsPort
  {
    var m1 := if Lookup(m, "http").name == "" then m["http" := DefaultHttpPort] else m;
    if Lookup(m1, "https").name == "" then m1["https" := DefaultHttpsPort] else m1
  }

  /** One iteration of the desired-port loop: combine with the port of the
      same name, or insert the desired port verbatim. */
  function MergeDesiredPort(m: PortMap, desired: ServicePort): (r: PortMap)
    ensures r.Keys == m.Keys + {desired.name}
    ensures desired.name in m ==> r[desired.name] == MergePort(m[desired.name], desired)
    ensures desired.name !in m ==> r[desired.name] == desired
    ensures forall n :: n in m && n != desired.name ==> r[n] == m[n]
  {
    if desired.name in m then m[desired.name := MergePort(m[desired.name], desired)]
    else m[desired.name := desired]
  }

  /** The desired-port loop, in order. */
  function MergeDesiredPorts(m: PortMap, desired: seq<ServicePort>): (r: PortMap)
    ensures r.Keys == m.Keys + Names(desired)
  {
    if |desired| == 0 then m
    else
      var init := desired[..|desired| - 1];
      var last := desired[|desired| - 1];
      assert desired == init + [last];
      assert Names(desired) == Names(init) + {last.name} by {
        forall n | n in Names(desired) ensures n in Names(init) + {last.name} {
          var k :| 0 <= k < |desired| && desired[k].name == n;
          if k < |desired| - 1 { assert init[k] == desired[k]; }
        }
        forall n | n in Names(init) ensures n in Names(desired) {
          var k :| 0 <= k < |init| && init[k].name == n;
          assert desired[k] == init[k];
        }
      }
      MergeDesiredPort(MergeDesiredPorts(m, init), last)
  }

  predicate DistinctNames(ports: seq<ServicePort>) {
    forall j, k :: 0 <= j < k < |ports| ==> ports[j].name != ports[k].name
  }

  /** Names no desired port carries keep their base entry. */
  lemma {:induction false} MergeDesiredPortsFrame(m: PortMap, desired: seq<ServicePort>, n: string)
    requires n !in Names(desired)
    ensures n in MergeDesiredPorts(m, desired) <==> n in m
    ensures n in m ==> MergeDesiredPorts(m, desired)[n] == m[n]
  {
    if |desired| > 0 {
      var init := desired[..|desired| - 1];
      assert forall j :: 0 <= j < |init| ==> init[j] == desired[j];
      MergeDesiredPortsFrame(m, init, n);
    }
  }

  /** With distinct desired names, each desired port ends up combined with the
      base port of its name when there is one, and verbatim otherwise. */
  lemma {:induction false} MergeDesiredPortsEffect(m: PortMap, desired: seq<ServicePort>, k: int)
    requires DistinctNames(desired)
    requires 0 <= k < |desired|
    ensures MergeDesiredPorts(m, desired)[desired[k].name]
      == if desired[k].name in m then MergePort(m[desired[k].name], desired[k]) else desired[k]
  {
    var init := desired[..|desired| - 1];
    var last := desired[|desired| - 1];
    if k == |desired| - 1 {
      assert forall j :: 0 <= j < |init| ==> init[j] == desired[j];
      MergeDesiredPortsFrame(m, init, last.name);
    } else {
      assert DistinctNames(init);
      assert desired[k] == init[k];
      MergeDesiredPortsEffect(m, init, k);
      assert desired[k].name != last.name;
    }
  }

  /** The map mergePorts builds before it returns. */
  function MergedPortMap(cur: seq<ServicePort>, desired: seq<ServicePort>): (m: PortMap)
    ensures "http" in m && "https" in m
    ensures m.Keys == Names(cur) + {"http", "https"} + Names(desired)
  {
    MergeDesiredPorts(EnsureDefaultPorts(IndexPorts(cur)), desired)
  }

  /** mergePorts as written: the merged map is built and then dropped, and the
      function returns nil, so the Service ends up with no ports. */
  function MergePorts(cur: seq<ServicePort>, desired: seq<ServicePort>): (ports: seq<ServicePort>)
    ensures ports == []
  {
    var merged := MergedPortMap(cur, desired);
    []
  }

  /** The merged map is never empty, yet none of it reaches the result. */
  lemma {:induction false} MergePortsDiscardsMergedMap(cur: seq<ServicePort>, desired: seq<ServicePort>)
    ensures |MergedPortMap(cur, desired)| >= 2
    ensures |MergePorts(cur, desired)| == 0
  {
    var m := MergedPortMap(cur, desired);
    assert {"http", "https"} <= m.Keys;
    assert |{"http", "https"}| == 2;
    SubsetCard({"http", "https"}, m.Keys);
  }

  lemma SubsetCard(a: set<string>, b: set<string>)
    requires a <= b
    ensures |a| <= |b|
  {
    if a != {} {
      var x :| x in a;
      SubsetCard(a - {x}, b - {x});
    }
  }

  /** The example merge: base ports http:80 and https:443 with an override
      {name: "http", port: 8080} keep one http entry, now on port 8080, and
      the https entry untouched. */
  lemma MergedPortMapExample()
    ensures var override := ZeroPort.(name := "http", port := 8080);
            var base := [DefaultHttpPort, DefaultHttpsPort];
            var m := MergedPortMap(base, [override]);
            && m.Keys == {"http", "https"}
            && m["http"] == DefaultHttpPort.(port := 8080)
            && m["https"] == DefaultHttpsPort
  {
    var override := ZeroPort.(name := "http", port := 8080);
    var base := [DefaultHttpPort, DefaultHttpsPort];
    assert Names(base) == {"http", "https"} by {
      assert base[0].name == "http" && base[1].name == "https";
    }
    assert Names([override]) == {"http"} by {
      assert [override][0].name == "http";
    }
    var idx := IndexPorts(base);
    assert idx["http"] == DefaultHttpPort && idx["https"] == DefaultHttpsPort;
    MergeDesiredPortsEffect(EnsureDefaultPorts(idx), [override], 0);
    MergeDesiredPortsFrame(EnsureDefaultPorts(idx), [override], "https");
  }
}
