/** What the dcim lifecycle receivers promise, stated over the functions that specify them. */
module Properties {
  import opened Records
  import opened LocationTree
  import opened Signals

  // ---------------------------------------------------------------------------
  // update_connected_endpoints
  // ---------------------------------------------------------------------------

  /** Saving an imported cable calls nothing and changes no path. */
  lemma RawCableSaveIsInert(cable: Cable, created: bool)
    ensures CableSaveActions(cable, created, true) == []
    ensures !DeactivatesPaths(cable, created, true)
  {
  }

  /** A new cable makes one call per non-empty end, end A first, then end B: a new path when
      the end's first termination is a path endpoint, a rebuild otherwise. It never reaches
      the status-change rule, whatever its status. */
  lemma {:induction false} NewCableCalls(cable: Cable)
    ensures
      var a := EndTerminations(cable.terminations, A);
      var b := EndTerminations(cable.terminations, B);
      var acts := CableSaveActions(cable, true, false);
      && acts == EndAction(a) + EndAction(b)
      && |acts| == (if a == [] then 0 else 1) + (if b == [] then 0 else 1)
    ensures !DeactivatesPaths(cable, true, false)
  {
    var ends := CableEnds(cable);
    assert ends[..1][..0] == [];
    assert EndsActions(ends[..1]) == EndAction(ends[0]);
    assert ends[..|ends| - 1] == ends[..1];
    assert EndsActions(ends) == EndAction(ends[0]) + EndAction(ends[1]);
  }

  /** The object a new cable's end is dispatched on is the cable's first termination on
      that end. */
  lemma FirstTerminationOfEnd(terms: seq<CableTermination>, end: CableEnd)
    requires EndTerminations(terms, end) != []
    ensures exists i :: (0 <= i < |terms| && terms[i] == CableTermination(end, EndTerminations(terms, end)[0])
      && forall j :: 0 <= j < i ==> terms[j].cableEnd != end)
  {
    var objs := EndTerminations(terms, end);
    var idx := EndIndices(terms, end);
    EndTerminationsInOrder(terms, end);
    var i := idx[0];
    forall j | 0 <= j < i
      ensures terms[j].cableEnd != end
    {
      if terms[j].cableEnd == end {
        EndIndicesCover(terms, end, j);
        assert false;
      }
    }
    assert terms[i] == CableTermination(end, objs[0]);
  }

  /** Marking paths inactive and calling the tracing collaborators exclude each other; for an
      existing cable with a changed status exactly one of them happens. */
  lemma DeactivationExcludesCalls(cable: Cable, created: bool, raw: bool)
    ensures DeactivatesPaths(cable, created, raw) ==> CableSaveActions(cable, created, raw) == []
    ensures !raw && !created && cable.status != cable.origStatus ==>
      (DeactivatesPaths(cable, created, raw) <==> CableSaveActions(cable, created, raw) == [])
  {
  }

  /** Re-saving an existing cable without a status change calls nothing and changes no path. */
  lemma UnchangedStatusIsInert(cable: Cable)
    requires cable.status == cable.origStatus
    ensures CableSaveActions(cable, false, false) == []
    ensures !DeactivatesPaths(cable, false, false)
  {
  }

  /** An existing cable that leaves the connected state, or moves between two other
      states, only marks the paths through it inactive: it requests no rebuild. */
  lemma DisconnectedCableDeactivates(cable: Cable)
    requires cable.status != cable.origStatus && cable.status != Connected
    ensures CableSaveActions(cable, false, false) == []
    ensures DeactivatesPaths(cable, false, false)
  {
  }

  /** An existing cable whose status changes to connected requests exactly one rebuild,
      starting from the cable itself, and does not touch the active flags. */
  lemma ReconnectedCableRebuilds(cable: Cable)
    requires cable.status != cable.origStatus && cable.status == Connected
    ensures CableSaveActions(cable, false, false) == [Rebuild([CableNode(cable.id)])]
    ensures !DeactivatesPaths(cable, false, false)
  {
  }

  /** Deactivating the paths through a cable a second time changes nothing. */
  lemma DeactivatedIsClosed(paths: map<CablePathId, CablePath>, c: CableId)
    ensures Deactivated(Deactivated(paths, c), c) == Deactivated(paths, c)
  {
  }

  // ---------------------------------------------------------------------------
  // retrace_cable_paths
  // ---------------------------------------------------------------------------

  /** Retracing each path of `ids` exactly once takes exactly one call per path. */
  lemma {:induction false} RetraceCount(acts: seq<Action>, ids: set<CablePathId>)
    requires RetracesEach(acts, ids)
    ensures |acts| == |ids|
    decreases |acts|
  {
    if acts == [] {
      assert ids == {};
    } else {
      var n := |acts| - 1;
      var q := acts[n].path;
      var front := acts[..n];
      forall p | p in ids - {q}
        ensures Retrace(p) in front
      {
        var i :| 0 <= i < |acts| && acts[i] == Retrace(p);
        assert i != n;
        assert front[i] == Retrace(p);
      }
      forall i | 0 <= i < |front|
        ensures front[i].path in ids - {q}
      {
        assert acts[i] != acts[n];
      }
      assert RetracesEach(front, ids - {q});
      RetraceCount(front, ids - {q});
    }
  }

  // ---------------------------------------------------------------------------
  // handle_location_site_change and handle_rack_site_change
  // ---------------------------------------------------------------------------

  /** Every location below `pk`, and every rack, device and power panel placed in `pk` or
      below it, is on `site`. */
  ghost predicate SubtreeOnSite(
    locs: Locations, racks: map<RackId, Rack>, devs: map<DeviceId, Device>,
    panels: map<PowerPanelId, PowerPanel>, pk: LocationId, site: SiteId)
  {
    var scope := Descendants(locs, pk) + {pk};
    && (forall x :: x in Descendants(locs, pk) ==> locs[x].site == site)
    && (forall k :: k in racks && LocatedIn(racks[k].location, scope) ==> racks[k].site == site)
    && (forall d :: d in devs && LocatedIn(devs[d].location, scope) ==> devs[d].site == site)
    && (forall k :: k in panels && LocatedIn(panels[k].location, scope) ==> panels[k].site == site)
  }

  /** After location `pk` is updated, its whole subtree, measured in the new state, is on
      its site; and the update keeps the parent links. */
  lemma LocationUpdateAlignsSubtree(
    locs: Locations, racks: map<RackId, Rack>, devs: map<DeviceId, Device>,
    panels: map<PowerPanelId, PowerPanel>, pk: LocationId, site: SiteId)
    ensures
      var (l, r, d, p) := LocationUpdate(locs, racks, devs, panels, pk, site);
      SameTree(locs, l) && SubtreeOnSite(l, r, d, p, pk, site)
  {
    var (l, r, d, p) := LocationUpdate(locs, racks, devs, panels, pk, site);
    SameTreeKeepsDescendants(locs, l, pk);
  }

  /** Saving the same location twice has the effect of saving it once. */
  lemma LocationUpdateIdempotent(
    locs: Locations, racks: map<RackId, Rack>, devs: map<DeviceId, Device>,
    panels: map<PowerPanelId, PowerPanel>, pk: LocationId, site: SiteId)
    ensures
      var (l, r, d, p) := LocationUpdate(locs, racks, devs, panels, pk, site);
      LocationUpdate(l, r, d, p, pk, site) == (l, r, d, p)
  {
    var (l, r, d, p) := LocationUpdate(locs, racks, devs, panels, pk, site);
    SameTreeKeepsDescendants(locs, l, pk);
    var desc := Descendants(locs, pk);
    assert ResiteLocations(l, desc, site) == l;
    assert ResiteRacks(r, desc + {pk}, site) == r;
    assert ResiteDevices(d, desc + {pk}, site) == d;
    assert ResitePanels(p, desc + {pk}, site) == p;
  }

  /** Saving a rack twice has the effect of saving it once. */
  lemma RackUpdateIdempotent(devs: map<DeviceId, Device>, rack: RackId, site: SiteId, location: Option<LocationId>)
    ensures
      var r := RehomeRackDevices(devs, rack, site, location);
      RehomeRackDevices(r, rack, site, location) == r
  {
  }

  // ---------------------------------------------------------------------------
  // clear_virtualchassis_members
  // ---------------------------------------------------------------------------

  /** Clearing the members of a virtual chassis a second time changes nothing. */
  lemma ClearedMembersStable(devs: map<DeviceId, Device>, vc: VirtualChassisId)
    ensures ClearedMembers(ClearedMembers(devs, vc), vc) == ClearedMembers(devs, vc)
  {
  }
}
