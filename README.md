# NetBox dcim lifecycle receivers, modelled in Dafny

This project models the receivers in NetBox's `netbox/dcim/signals.py`. They react when a
location, rack, virtual chassis, cable or cable termination is saved or deleted:

- a location update pushes the location's site down to its sub-locations and to the racks,
  devices and power panels placed in it;
- a rack update pushes the rack's site and location to the devices mounted in it;
- creating a virtual chassis enrols its master device at position 1, and deleting one clears
  the position and priority of its members;
- saving a cable starts path tracing for its ends, or, for an existing cable whose status
  changed, marks the paths through it inactive or asks for them to be rebuilt;
- deleting a cable asks for every path through it to be retraced, and deleting a cable
  termination clears the cached link peer of the terminated object.

The stored records are maps held by one class, `Signals.Store`, and each receiver is a method
on it. Bulk `update()` calls are functions from the old map to the new one (`ResiteRacks`,
`Deactivated`, ...). Receivers that loop in the source loop in the model. Each method's
`modifies` clause names only the fields of `Store` that it may change.

The path-tracing collaborators are `create_cablepath`, `rebuild_paths` and
`CablePath.retrace`. They are not part of this model. Each call to them is appended to
`Store.log` as an opaque `Action` (`CreatePath(nodes)`, `Rebuild(nodes)`, `Retrace(path)`), so
the model fixes which calls are made, with which arguments and in which order, and nothing
about what they do.

Files:

- `records.dfy` (module `Records`): identifiers and the stored records (devices, racks,
  locations, power panels, cable paths, terminated objects) and the cable as handed to its
  save receiver.
- `location_tree.dfy` (module `LocationTree`): the strict descendants of a location, computed
  from the parent links. `Forest` states that the parent links have no cycle and no dangling
  parent. The store keeps it as its invariant.
- `signals.dfy` (module `Signals`): the dispatch rule of the cable save receiver, the bulk
  updates as functions, and class `Store` with one method per receiver.
- `properties.dfy` (module `Properties`): lemmas about the receivers' specifications.

## Model

| member | source | states |
|---|---|---|
| `Signals.Store.HandleLocationSiteChange` | netbox/dcim/signals.py:16-27 | A created location changes nothing. An updated location gives its site to its strict descendants and to the racks, devices and power panels in it or a descendant. The new locations, racks, devices and power panels are `LocationUpdate` of the old ones, no other record changes, and the locations stay a forest. |
| `LocationTree.Descendants` | netbox/dcim/signals.py:23-24 | The descendants are stored locations and never include the location itself. |
| `LocationTree.DescendantsStep` | netbox/dcim/signals.py:23-24 | In a forest, a location is a strict descendant of `root` exactly when its parent is `root` or a strict descendant of `root`. |
| `LocationTree.ChildIsDescendant` | netbox/dcim/signals.py:23 | Every child of a location is one of its strict descendants. |
| `LocationTree.SameTreeKeepsDescendants` | netbox/dcim/signals.py:23-24 | Changing sites but not parents keeps every descendant set and the forest invariant. So the descendants read after the update at line 23 are those read before it. |
| `Signals.ResiteLocations` | netbox/dcim/signals.py:23 | Keys and parents are kept. The targeted locations get the new site, and the others are untouched. |
| `Signals.ResiteRacks` | netbox/dcim/signals.py:25 | Racks in a location of the scope get the new site and keep their location. Other racks are untouched. |
| `Signals.ResiteDevices` | netbox/dcim/signals.py:26 | Devices in a location of the scope get the new site, and no other field changes. Other devices are untouched. |
| `Signals.ResitePanels` | netbox/dcim/signals.py:27 | Power panels in a location of the scope get the new site and keep their location. Other panels are untouched. |
| `Properties.LocationUpdateAlignsSubtree` | netbox/dcim/signals.py:22-27 | After a location update, every strict descendant and every rack, device and power panel in the subtree is on the location's site. The descendants are measured in the new state. |
| `Properties.LocationUpdateIdempotent` | netbox/dcim/signals.py:22-27 | Applying the location update a second time changes nothing. |
| `Signals.Store.HandleRackSiteChange` | netbox/dcim/signals.py:30-36 | A created rack changes nothing. An updated rack gives its site and location to every device mounted in it, and to no other device. |
| `Signals.RehomeRackDevices` | netbox/dcim/signals.py:36 | Devices in the rack get its site and location, and no other field changes. Other devices are untouched. |
| `Properties.RackUpdateIdempotent` | netbox/dcim/signals.py:36 | Applying the rack update a second time changes nothing. |
| `Signals.Store.AssignVirtualChassisMaster` | netbox/dcim/signals.py:43-52 | On creation with a master, the master joins the chassis at position 1 and keeps its priority. A missing master device is reported as `DoesNotExist` and changes nothing. Without a master, or on an update, nothing changes. |
| `Signals.Store.ClearVirtualChassisMembers` | netbox/dcim/signals.py:55-64 | The loop over the members leaves the devices equal to `ClearedMembers` of the old devices. |
| `Signals.ClearedMembers` | netbox/dcim/signals.py:60-64 | Every member loses its position and priority, and no other field changes. Non-members are untouched. |
| `Properties.ClearedMembersStable` | netbox/dcim/signals.py:60-64 | Clearing the members a second time changes nothing. |
| `Signals.Store.UpdateConnectedEndpoints` | netbox/dcim/signals.py:71-104 | The log grows by exactly `CableSaveActions`. The paths become `Deactivated` exactly when the save is not a raw import and an existing cable changed to a status other than connected. Otherwise the paths are unchanged. |
| `Signals.CableEnds` | netbox/dcim/signals.py:85-88 | A cable has two ends, A listed before B. An object is listed on an end exactly when the cable terminates on it at that end. |
| `Signals.EndTerminations` | netbox/dcim/signals.py:86-87 | An object is listed for an end exactly when the cable terminates on it at that end. The list is never longer than the cable's terminations. |
| `Signals.EndIndices` | netbox/dcim/signals.py:86-87 | The positions listed are positions of terminations on the requested end, in strictly increasing order. |
| `Signals.EndIndicesCover` | netbox/dcim/signals.py:86-87 | Every position holding a termination on the requested end is listed. |
| `Signals.EndTerminationsInOrder` | netbox/dcim/signals.py:86-87 | An end's list has one entry per termination on that end. The k-th entry is the object terminated at the k-th such position, so the cable's order is kept and nothing is repeated or dropped. |
| `Properties.FirstTerminationOfEnd` | netbox/dcim/signals.py:86-93 | The object the type test looks at is the end's first termination in the cable's order: no earlier termination is on that end. |
| `Signals.EndsActions` | netbox/dcim/signals.py:89-96 | For a cable's two ends, the calls are those for the first end followed by those for the second (`EndAction` of each). Each end makes at most one call and none is a retrace. When every end is non-empty there is one call per end, and when every end is empty there is none. |
| `Signals.EndAction` | netbox/dcim/signals.py:89-96 | An empty end makes no call. A non-empty end makes one call on its node list, and that call is a new path exactly when the first termination is a path endpoint, else a rebuild. |
| `Signals.CableSaveActions` | netbox/dcim/signals.py:77-104 | An imported cable makes no call. No save makes more than two calls, and none is a retrace. |
| `Properties.DeactivationExcludesCalls` | netbox/dcim/signals.py:77-104 | Marking the paths inactive (line 102, reached only past the raw test at line 77, the created test at line 84 and the status tests at lines 97 and 101) and calling the tracing collaborators never happen in the same save. For an existing, non-imported cable whose status changed, exactly one of them happens. |
| `Properties.RawCableSaveIsInert` | netbox/dcim/signals.py:77-79 | An imported cable makes no call and deactivates nothing, created or not. |
| `Properties.NewCableCalls` | netbox/dcim/signals.py:84-96 | A new cable makes the calls for end A followed by those for end B (`EndAction` of each end), so one call per non-empty end. The call is `CreatePath` when that end's first termination is a path endpoint and `Rebuild` otherwise. A new cable never deactivates paths. |
| `Properties.UnchangedStatusIsInert` | netbox/dcim/signals.py:97 | An existing cable whose status did not change makes no call and deactivates nothing. |
| `Properties.DisconnectedCableDeactivates` | netbox/dcim/signals.py:101-102 | A status change to anything but connected deactivates the paths through the cable and asks for no rebuild. |
| `Properties.ReconnectedCableRebuilds` | netbox/dcim/signals.py:103-104 | A status change to connected makes exactly one call, `Rebuild([cable])`, and writes no active flag. |
| `Signals.Deactivated` | netbox/dcim/signals.py:102 | Every path through the cable becomes inactive and keeps its node sequence. Paths not through the cable are untouched, and no path is added or removed. |
| `Properties.DeactivatedIsClosed` | netbox/dcim/signals.py:102 | Deactivating the paths through the cable a second time changes nothing. |
| `Signals.PathsThrough` | netbox/dcim/signals.py:125 | A stored path is selected exactly when its node sequence contains the cable. |
| `Signals.Store.RetraceCablePaths` | netbox/dcim/signals.py:120-126 | The old log is kept as a prefix. The new entries retrace each path through the deleted cable exactly once, and no other path. |
| `Properties.RetraceCount` | netbox/dcim/signals.py:125-126 | Retracing each selected path exactly once takes as many calls as there are selected paths. |
| `Signals.Store.NullifyConnectedEndpoints` | netbox/dcim/signals.py:129-135 | Only the terminated object's link peer type and id become empty, and every other object is unchanged. An object that is not stored leaves the map as it was. |

## Left out

- Path tracing (`create_cablepath`, `rebuild_paths`, `CablePath.retrace`, the `trace_paths`
  signal) is not part of this model. Calls to it are logged, and the cable paths the store
  holds are not changed by them.
- Signal registration and dispatch (`@receiver`, the `post_save`, `pre_delete` and
  `post_delete` hooks and their ordering) are replaced by direct method calls. The receiver's
  caller supplies the saved instance and the `created` and `raw` flags.
- The commented-out receivers at netbox/dcim/signals.py:107-117 are dead code.
- Logging at netbox/dcim/signals.py:76-78 is not modelled.
- `save()` of a device (lines 52 and 64) is a plain store write in the model. Validation,
  change records and the signals that such a save fires are not modelled.
- Signals.Store.AssignVirtualChassisMaster: when the master device is missing, the lookup at
  line 49 raises an exception that aborts the surrounding save. The model returns
  `DoesNotExist` and changes nothing, and does not model the abort.
- Transactions and concurrency are not modelled.
- The MPTT tree fields of locations are not modelled. Descendants come from the parent links.
  The docstring at netbox/dcim/signals.py:19-20 speaks of saving each child object; the code
  at line 23 does a bulk update, and the model follows the code.
- The link status choices module is not part of this model. The receiver only compares a
  status with "connected", and the model uses three values: connected, planned and
  decommissioning.
- The class test at line 93 (`isinstance(..., PathEndpoint)`) is a category tag on each
  terminated object. The cabling model classes are not part of this model.
- The database returns the terminations of one cable end in its own order. The model keeps
  the cable's termination order.
- Signals.Store.RetraceCablePaths: the order in which paths are retraced is left open, as the
  unordered query at line 125 leaves it.
- Field widths (for example, the small-integer virtual chassis position) are unbounded
  integers.
