/** The dcim lifecycle receivers: what happens to the stored records when a location,
    rack, virtual chassis, cable or cable termination is saved or deleted.

    The path-tracing collaborators (create_cablepath, rebuild_paths, CablePath.retrace) are
    not modelled; each call to them is appended to an action log with its arguments. */
module Signals {
  import opened Records
  import opened LocationTree

  /** A call into the path-tracing collaborators. */
  datatype Action =
    | CreatePath(nodes: seq<Node>)
    | Rebuild(nodes: seq<Node>)
    | Retrace(path: CablePathId)

  /** The reply of a receiver that looks a record up by primary key. */
  datatype Outcome = Done | DoesNotExist(pk: DeviceId)

  // ---------------------------------------------------------------------------
  // Cable save: the dispatch rule of update_connected_endpoints
  // ---------------------------------------------------------------------------

  /** Every position moved one place right. */
  ghost function Shifted(idx: seq<nat>): (r: seq<nat>)
    ensures |r| == |idx|
    ensures forall k :: 0 <= k < |idx| ==> r[k] == idx[k] + 1
  {
    seq(|idx|, k requires 0 <= k < |idx| => idx[k] + 1)
  }

  /** The positions in `terms` of the terminations on `end`: all of them, each once, in
      increasing order. */
  ghost function EndIndices(terms: seq<CableTermination>, end: CableEnd): (idx: seq<nat>)
    ensures forall k :: 0 <= k < |idx| ==> idx[k] < |terms| && terms[idx[k]].cableEnd == end
    ensures forall k, l :: 0 <= k < l < |idx| ==> idx[k] < idx[l]
  {
    if terms == [] then []
    else
      var rest := EndIndices(terms[1..], end);
      var shifted := Shifted(rest);
      var idx := if terms[0].cableEnd == end then [0] + shifted else shifted;
      assert forall k :: 0 <= k < |shifted| ==> (1 <= shifted[k] < |terms|
        && terms[shifted[k]].cableEnd == end) by {
        forall k | 0 <= k < |shifted|
          ensures 1 <= shifted[k] < |terms| && terms[shifted[k]].cableEnd == end
        {
          assert terms[shifted[k]] == terms[1..][rest[k]];
        }
      }
      assert forall k :: 0 <= k < |idx| ==> idx[k] < |terms| && terms[idx[k]].cableEnd == end;
      assert forall k, l :: 0 <= k < l < |idx| ==> idx[k] < idx[l];
      idx
  }

  /** No termination on `end` is missing from `EndIndices`. */
  lemma {:induction false} EndIndicesCover(terms: seq<CableTermination>, end: CableEnd, i: nat)
    requires i < |terms| && terms[i].cableEnd == end
    ensures i in EndIndices(terms, end)
    decreases |terms|
  {
    var idx := EndIndices(terms, end);
    if i == 0 {
      assert idx[0] == 0;
    } else {
      var rest := EndIndices(terms[1..], end);
      assert terms[1..][i - 1] == terms[i];
      EndIndicesCover(terms[1..], end, i - 1);
      var k :| 0 <= k < |rest| && rest[k] == i - 1;
      var shifted := Shifted(rest);
      assert shifted[k] == i;
      assert idx == (if terms[0].cableEnd == end then [0] + shifted else shifted);
      if terms[0].cableEnd == end {
        assert idx[k + 1] == i;
      } else {
        assert idx[k] == i;
      }
    }
  }

  /** The objects terminated on one end of a cable, in the cable's order. */
  function EndTerminations(terms: seq<CableTermination>, end: CableEnd): (objs: seq<TermObject>)
    ensures |objs| <= |terms|
    ensures forall o :: o in objs <==> CableTermination(end, o) in terms
  {
    if terms == [] then []
    else
      var rest := EndTerminations(terms[1..], end);
      assert forall o :: (CableTermination(end, o) in terms
        <==> CableTermination(end, o) == terms[0] || CableTermination(end, o) in terms[1..]);
      if terms[0].cableEnd == end then [terms[0].termination] + rest else rest
  }

  /** The k-th object listed for an end is the one terminated at the k-th position of
      `EndIndices`: the list keeps the cable's order and holds each termination once. */
  lemma {:induction false} EndTerminationsInOrder(terms: seq<CableTermination>, end: CableEnd)
    ensures |EndTerminations(terms, end)| == |EndIndices(terms, end)|
    ensures forall k :: 0 <= k < |EndTerminations(terms, end)| ==>
      EndTerminations(terms, end)[k] == terms[EndIndices(terms, end)[k]].termination
    decreases |terms|
  {
    if terms != [] {
      var objs := EndTerminations(terms, end);
      var idx := EndIndices(terms, end);
      var rest := EndTerminations(terms[1..], end);
      var ri := EndIndices(terms[1..], end);
      EndTerminationsInOrder(terms[1..], end);
      var d := if terms[0].cableEnd == end then 1 else 0;
      assert objs == (if d == 1 then [terms[0].termination] + rest else rest);
      assert idx == (if d == 1 then [0] + Shifted(ri) else Shifted(ri));
      forall k | d <= k < |objs|
        ensures objs[k] == terms[idx[k]].termination
      {
        assert objs[k] == rest[k - d];
        assert idx[k] == ri[k - d] + 1;
        assert terms[1..][ri[k - d]] == terms[ri[k - d] + 1];
      }
    }
  }

  /** The node list handed to the tracing collaborators for a list of terminated objects. */
  function ObjNodes(objs: seq<TermObject>): (nodes: seq<Node>)
    ensures |nodes| == |objs|
    ensures forall i :: 0 <= i < |objs| ==> nodes[i] == ObjNode(objs[i].ref)
  {
    seq(|objs|, i requires 0 <= i < |objs| => ObjNode(objs[i].ref))
  }

  /** The call made for one end of a newly created cable: none for an empty end; otherwise
      a new path when its first termination is a path endpoint, else a rebuild. */
  function EndAction(objs: seq<TermObject>): (acts: seq<Action>)
    ensures |acts| == if objs == [] then 0 else 1
    ensures acts != [] ==> !acts[0].Retrace? && acts[0].nodes == ObjNodes(objs)
    ensures acts != [] ==> (acts[0].CreatePath? <==> objs[0].category == PathEndpoint)
  {
    if objs == [] then []
    else if objs[0].category == PathEndpoint then [CreatePath(ObjNodes(objs))]
    else [Rebuild(ObjNodes(objs))]
  }

  /** The calls made for ends `ends[0]`, `ends[1]`, ... in that order. */
  function EndsActions(ends: seq<seq<TermObject>>): (acts: seq<Action>)
    ensures |acts| <= |ends|
    ensures forall a :: a in acts ==> !a.Retrace?
    ensures (forall e :: e in ends ==> e != []) ==> |acts| == |ends|
    ensures (forall e :: e in ends ==> e == []) ==> acts == []
    ensures |ends| == 2 ==> acts == EndAction(ends[0]) + EndAction(ends[1])
  {
    if ends == [] then []
    else
      var front := ends[..|ends| - 1];
      var last := ends[|ends| - 1];
      var acts := EndsActions(front) + EndAction(last);
      assert forall e :: e in front ==> e in ends;
      assert last in ends;
      assert (forall e :: e in ends ==> e != []) ==> |EndsActions(front)| == |front| && |EndAction(last)| == 1;
      assert (forall e :: e in ends ==> e == []) ==> EndsActions(front) == [] && EndAction(last) == [];
      assert |ends| == 2 ==> front == [ends[0]] && EndsActions(front) == EndAction(ends[0]) by {
        if |ends| == 2 {
          assert front == [ends[0]];
          assert front[..0] == [];
        }
      }
      acts
  }

  /** Both ends of a cable, A first. */
  function CableEnds(cable: Cable): (ends: seq<seq<TermObject>>)
    ensures |ends| == 2
    ensures forall o :: o in ends[0] <==> CableTermination(A, o) in cable.terminations
    ensures forall o :: o in ends[1] <==> CableTermination(B, o) in cable.terminations
  {
    [EndTerminations(cable.terminations, A), EndTerminations(cable.terminations, B)]
  }

  /** Whether saving `cable` marks the paths through it inactive. */
  predicate DeactivatesPaths(cable: Cable, created: bool, raw: bool)
  {
    !raw && !created && cable.status != cable.origStatus && cable.status != Connected
  }

  /** The calls into the tracing collaborators that saving `cable` makes, in order. */
  function CableSaveActions(cable: Cable, created: bool, raw: bool): (acts: seq<Action>)
    ensures raw ==> acts == []
    ensures |acts| <= 2
    ensures forall a :: a in acts ==> !a.Retrace?
  {
    if raw then []
    else if created then EndsActions(CableEnds(cable))
    else if cable.status != cable.origStatus && cable.status == Connected then
      [Rebuild([CableNode(cable.id)])]
    else []
  }

  /** True when `path` runs through cable `c`. */
  predicate Through(path: CablePath, c: CableId)
  {
    CableNode(c) in path.nodes
  }

  /** The stored paths that run through cable `c`. */
  function PathsThrough(paths: map<CablePathId, CablePath>, c: CableId): (ids: set<CablePathId>)
    ensures ids <= paths.Keys
    ensures forall p :: p in paths ==> (p in ids <==> Through(paths[p], c))
  {
    set p | p in paths && Through(paths[p], c)
  }

  /** The bulk update that marks every path through cable `c` inactive. */
  function Deactivated(paths: map<CablePathId, CablePath>, c: CableId): (r: map<CablePathId, CablePath>)
    ensures r.Keys == paths.Keys
    ensures forall p :: p in r ==> r[p].nodes == paths[p].nodes
    ensures forall p :: p in r && Through(paths[p], c) ==> !r[p].isActive
    ensures forall p :: p in r && !Through(paths[p], c) ==> r[p] == paths[p]
  {
    map p | p in paths :: if Through(paths[p], c) then paths[p].(isActive := false) else paths[p]
  }

  /** `acts` retraces each path of `ids` exactly once, and nothing else. */
  ghost predicate RetracesEach(acts: seq<Action>, ids: set<CablePathId>)
  {
    && (forall i :: 0 <= i < |acts| ==> acts[i].Retrace? && acts[i].path in ids)
    && (forall p :: p in ids ==> Retrace(p) in acts)
    && (forall i, j :: 0 <= i < j < |acts| ==> acts[i] != acts[j])
  }

  // ---------------------------------------------------------------------------
  // Bulk field updates of the location, rack and virtual chassis receivers
  // ---------------------------------------------------------------------------

  predicate LocatedIn(location: Option<LocationId>, scope: set<LocationId>)
  {
    location.Some? && location.value in scope
  }

  /** Sets the site of the locations in `targets`. */
  function ResiteLocations(locs: Locations, targets: set<LocationId>, site: SiteId): (r: Locations)
    ensures r.Keys == locs.Keys
    ensures SameTree(locs, r)
    ensures forall x :: x in r && x in targets ==> r[x].site == site
    ensures forall x :: x in r && x !in targets ==> r[x] == locs[x]
  {
    map x | x in locs :: if x in targets then locs[x].(site := site) else locs[x]
  }

  /** Sets the site of the racks placed in a location of `scope`. */
  function ResiteRacks(racks: map<RackId, Rack>, scope: set<LocationId>, site: SiteId): (r: map<RackId, Rack>)
    ensures r.Keys == racks.Keys
    ensures forall k :: k in r ==> r[k].location == racks[k].location
    ensures forall k :: k in r && LocatedIn(racks[k].location, scope) ==> r[k].site == site
    ensures forall k :: k in r && !LocatedIn(racks[k].location, scope) ==> r[k] == racks[k]
  {
    map k | k in racks :: if LocatedIn(racks[k].location, scope) then racks[k].(site := site) else racks[k]
  }

  /** Sets the site of the devices placed in a location of `scope`. */
  function ResiteDevices(devs: map<DeviceId, Device>, scope: set<LocationId>, site: SiteId): (r: map<DeviceId, Device>)
    ensures r.Keys == devs.Keys
    ensures forall d :: d in r ==> r[d] == devs[d].(site := r[d].site)
    ensures forall d :: d in r && LocatedIn(devs[d].location, scope) ==> r[d].site == site
    ensures forall d :: d in r && !LocatedIn(devs[d].location, scope) ==> r[d] == devs[d]
  {
    map d | d in devs :: if LocatedIn(devs[d].location, scope) then devs[d].(site := site) else devs[d]
  }

  /** Sets the site of the power panels placed in a location of `scope`. */
  function ResitePanels(panels: map<PowerPanelId, PowerPanel>, scope: set<LocationId>, site: SiteId): (r: map<PowerPanelId, PowerPanel>)
    ensures r.Keys == panels.Keys
    ensures forall k :: k in r ==> r[k].location == panels[k].location
    ensures forall k :: k in r && LocatedIn(panels[k].location, scope) ==> r[k].site == site
    ensures forall k :: k in r && !LocatedIn(panels[k].location, scope) ==> r[k] == panels[k]
  {
    map k | k in panels :: if LocatedIn(panels[k].location, scope) then panels[k].(site := site) else panels[k]
  }

  /** The update made when location `pk` is saved with `site`: its strict descendants, and
      the racks, devices and power panels in it or below it, take `site`. */
  function LocationUpdate(
    locs: Locations, racks: map<RackId, Rack>, devs: map<DeviceId, Device>,
    panels: map<PowerPanelId, PowerPanel>, pk: LocationId, site: SiteId)
    : (Locations, map<RackId, Rack>, map<DeviceId, Device>, map<PowerPanelId, PowerPanel>)
  {
    var desc := Descendants(locs, pk);
    (ResiteLocations(locs, desc, site), ResiteRacks(racks, desc + {pk}, site),
     ResiteDevices(devs, desc + {pk}, site), ResitePanels(panels, desc + {pk}, site))
  }

  /** Gives the devices mounted in rack `rack` the rack's site and location. */
  function RehomeRackDevices(devs: map<DeviceId, Device>, rack: RackId, site: SiteId, location: Option<LocationId>): (r: map<DeviceId, Device>)
    ensures r.Keys == devs.Keys
    ensures forall d :: d in r ==> r[d] == devs[d].(site := r[d].site, location := r[d].location)
    ensures forall d :: d in r && devs[d].rack == Some(rack) ==> r[d].site == site && r[d].location == location
    ensures forall d :: d in r && devs[d].rack != Some(rack) ==> r[d] == devs[d]
  {
    map d | d in devs :: if devs[d].rack == Some(rack) then devs[d].(site := site, location := location) else devs[d]
  }

  /** The device with its virtual chassis position and priority cleared. */
  function Unpositioned(dev: Device): Device
  {
    dev.(vcPosition := None, vcPriority := None)
  }

  /** The devices after every member of virtual chassis `vc` lost its position and priority. */
  function ClearedMembers(devs: map<DeviceId, Device>, vc: VirtualChassisId): (r: map<DeviceId, Device>)
    ensures r.Keys == devs.Keys
    ensures forall d :: d in r ==> r[d] == devs[d].(vcPosition := r[d].vcPosition, vcPriority := r[d].vcPriority)
    ensures forall d :: d in r && devs[d].virtualChassis == Some(vc) ==> r[d].vcPosition.None? && r[d].vcPriority.None?
    ensures forall d :: d in r && devs[d].virtualChassis != Some(vc) ==> r[d] == devs[d]
  {
    map d | d in devs :: if devs[d].virtualChassis == Some(vc) then Unpositioned(devs[d]) else devs[d]
  }

  // ---------------------------------------------------------------------------
  // The store and its receivers
  // ---------------------------------------------------------------------------

  /** The stored records the receivers work on, and the log of calls into the tracing
      collaborators. */
  class Store {
    var devices: map<DeviceId, Device>
    var racks: map<RackId, Rack>
    var locations: Locations
    var powerPanels: map<PowerPanelId, PowerPanel>
    var paths: map<CablePathId, CablePath>
    var terminables: map<ObjRef, Terminable>
    var log: seq<Action>

    ghost predicate Valid()
      reads this`locations
    {
      Forest(locations)
    }

    constructor (
      devices: map<DeviceId, Device>,
      racks: map<RackId, Rack>,
      locations: Locations,
      powerPanels: map<PowerPanelId, PowerPanel>,
      paths: map<CablePathId, CablePath>,
      terminables: map<ObjRef, Terminable>)
      requires Forest(locations)
      ensures Valid()
      ensures this.devices == devices && this.racks == racks && this.locations == locations
      ensures this.powerPanels == powerPanels && this.paths == paths && this.terminables == terminables
      ensures log == []
    {
      this.devices := devices;
      this.racks := racks;
      this.locations := locations;
      this.powerPanels := powerPanels;
      this.paths := paths;
      this.terminables := terminables;
      log := [];
    }

    /** After location `pk` is saved with site `instance.site`: on an update, its strict
        descendants, and the racks, devices and power panels in it or in a descendant,
        take that site. A creation changes nothing. */
    method HandleLocationSiteChange(pk: LocationId, instance: Location, created: bool)
      requires Valid()
      modifies this`locations, this`racks, this`devices, this`powerPanels
      ensures Valid()
      ensures created ==>
        && locations == old(locations) && racks == old(racks)
        && devices == old(devices) && powerPanels == old(powerPanels)
      ensures !created ==>
        (locations, racks, devices, powerPanels)
        == LocationUpdate(old(locations), old(racks), old(devices), old(powerPanels), pk, instance.site)
    {
      if !created {
        var before := locations;
        locations := ResiteLocations(locations, Descendants(locations, pk), instance.site);
        SameTreeKeepsDescendants(before, locations, pk);
        var scope := Descendants(locations, pk) + {pk};
        racks := ResiteRacks(racks, scope, instance.site);
        devices := ResiteDevices(devices, scope, instance.site);
        powerPanels := ResitePanels(powerPanels, scope, instance.site);
      }
    }

    /** After rack `pk` is saved: on an update, every device in the rack takes the rack's
        site and location. A creation changes nothing. */
    method HandleRackSiteChange(pk: RackId, instance: Rack, created: bool)
      modifies this`devices
      ensures devices == if created then old(devices)
                         else RehomeRackDevices(old(devices), pk, instance.site, instance.location)
    {
      if !created {
        devices := RehomeRackDevices(devices, pk, instance.site, instance.location);
      }
    }

    /** After virtual chassis `vc` is saved: on a creation with a master, the master device
        joins `vc` at position 1; its priority is left alone. */
    method AssignVirtualChassisMaster(vc: VirtualChassisId, master: Option<DeviceId>, created: bool)
      returns (outcome: Outcome)
      modifies this`devices
      ensures !(created && master.Some?) ==> outcome == Done && devices == old(devices)
      ensures created && master.Some? && master.value !in old(devices) ==>
        outcome == DoesNotExist(master.value) && devices == old(devices)
      ensures created && master.Some? && master.value in old(devices) ==>
        var m := master.value;
        && outcome == Done
        && devices == old(devices)[m := old(devices)[m].(virtualChassis := Some(vc), vcPosition := Some(1))]
    {
      outcome := Done;
      if created && master.Some? {
        var m := master.value;
        if m !in devices {
          outcome := DoesNotExist(m);
          return;
        }
        var dev := devices[m];
        dev := dev.(virtualChassis := Some(vc));
        dev := dev.(vcPosition := Some(1));
        devices := devices[m := dev];
      }
    }

    /** Before virtual chassis `vc` is deleted: each member device loses its position and
        priority, one device at a time. */
    method ClearVirtualChassisMembers(vc: VirtualChassisId)
      modifies this`devices
      ensures devices == ClearedMembers(old(devices), vc)
    {
      var members := set d | d in devices && devices[d].virtualChassis == Some(vc);
      var todo := members;
      while todo != {}
        invariant todo <= members
        invariant devices.Keys == old(devices).Keys
        invariant forall d :: d in devices ==>
          devices[d] == if d in members - todo then Unpositioned(old(devices)[d]) else old(devices)[d]
        decreases todo
      {
        var d :| d in todo;
        devices := devices[d := Unpositioned(devices[d])];
        todo := todo - {d};
      }
    }

    /** After `cable` is saved: nothing for an imported cable; for a new cable one call per
        non-empty end, A then B; for an existing cable whose status changed, the paths through
        it are marked inactive, or rebuilt from it when the new status is connected. */
    method UpdateConnectedEndpoints(cable: Cable, created: bool, raw: bool)
      modifies this`log, this`paths
      ensures log == old(log) + CableSaveActions(cable, created, raw)
      ensures paths == if DeactivatesPaths(cable, created, raw) then Deactivated(old(paths), cable.id)
                       else old(paths)
    {
      if raw {
        return;
      }
      if created {
        var ends := CableEnds(cable);
        assert ends[..0] == [];
        for i := 0 to |ends|
          invariant log == old(log) + EndsActions(ends[..i])
          invariant paths == old(paths)
        {
          var nodes := ends[i];
          assert ends[..i + 1][..i] == ends[..i];
          assert EndsActions(ends[..i + 1]) == EndsActions(ends[..i]) + EndAction(nodes);
          if nodes == [] {
            assert EndAction(nodes) == [];
            continue;
          }
          if nodes[0].category == PathEndpoint {
            log := log + [CreatePath(ObjNodes(nodes))];
          } else {
            log := log + [Rebuild(ObjNodes(nodes))];
          }
          assert log == old(log) + EndsActions(ends[..i]) + EndAction(nodes);
        }
        assert ends[..|ends|] == ends;
        assert CableSaveActions(cable, created, raw) == EndsActions(ends);
      } else if cable.status != cable.origStatus {
        if cable.status != Connected {
          paths := Deactivated(paths, cable.id);
        } else {
          log := log + [Rebuild([CableNode(cable.id)])];
        }
      }
    }

    /** After cable `c` is deleted: every path through it is retraced, once each. */
    method RetraceCablePaths(c: CableId)
      modifies this`log
      ensures |log| >= |old(log)| && log[..|old(log)|] == old(log)
      ensures RetracesEach(log[|old(log)|..], PathsThrough(paths, c))
    {
      var todo := PathsThrough(paths, c);
      ghost var done: set<CablePathId> := {};
      ghost var added: seq<Action> := [];
      while todo != {}
        invariant todo !! done
        invariant todo + done == PathsThrough(paths, c)
        invariant log == old(log) + added
        invariant RetracesEach(added, done)
        decreases todo
      {
        var p :| p in todo;
        log := log + [Retrace(p)];
        added := added + [Retrace(p)];
        done := done + {p};
        todo := todo - {p};
      }
      assert log[|old(log)|..] == added;
    }

    /** After a cable termination is deleted: the terminated object forgets its link peer. */
    method NullifyConnectedEndpoints(term: CableTermination)
      modifies this`terminables
      ensures var r := term.termination.ref;
        terminables == if r in old(terminables)
                       then old(terminables)[r := old(terminables)[r].(linkPeerType := None, linkPeerId := None)]
                       else old(terminables)
    {
      var r := term.termination.ref;
      if r in terminables {
        terminables := terminables[r := terminables[r].(linkPeerType := None, linkPeerId := None)];
      }
    }
  }
}
