/** The stored records that the dcim lifecycle receivers read and update.
    Only the fields those receivers touch or filter on are kept. */
module Records {

  datatype Option<+T> = None | Some(value: T)

  type SiteId = nat
  type LocationId = nat
  type RackId = nat
  type DeviceId = nat
  type PowerPanelId = nat
  type VirtualChassisId = nat
  type CableId = nat
  type CablePathId = nat
  type ContentTypeId = nat

  /** A typed pointer to a stored object: its content type and primary key. */
  datatype ObjRef = ObjRef(contentType: ContentTypeId, pk: nat)

  /** One entry of a cable path's node sequence: a cable, or a terminated object. */
  datatype Node = CableNode(cable: CableId) | ObjNode(obj: ObjRef)

  /** A location belongs to a site and sits under an optional parent location. */
  datatype Location = Location(site: SiteId, parent: Option<LocationId>)

  datatype Rack = Rack(site: SiteId, location: Option<LocationId>)

  datatype PowerPanel = PowerPanel(site: SiteId, location: Option<LocationId>)

  datatype Device = Device(
    site: SiteId,
    location: Option<LocationId>,
    rack: Option<RackId>,
    virtualChassis: Option<VirtualChassisId>,
    vcPosition: Option<nat>,
    vcPriority: Option<nat>)

  /** The derived record of a traced path: its node sequence and whether it is active. */
  datatype CablePath = CablePath(nodes: seq<Node>, isActive: bool)

  /** An object a cable can terminate on, with its cached link peer. */
  datatype Terminable = Terminable(linkPeerType: Option<ContentTypeId>, linkPeerId: Option<nat>)

  datatype CableEnd = A | B

  /** Whether a terminated object ends a path or relays it (front and rear ports). */
  datatype NodeCategory = PathEndpoint | PassThrough

  datatype TermObject = TermObject(ref: ObjRef, category: NodeCategory)

  datatype CableTermination = CableTermination(cableEnd: CableEnd, termination: TermObject)

  datatype LinkStatus = Connected | Planned | Decommissioning

  /** A cable as handed to its save receiver: the status it has now, the status it had
      when it was loaded, and its terminations on both ends. */
  datatype Cable = Cable(
    id: CableId,
    status: LinkStatus,
    origStatus: LinkStatus,
    terminations: seq<CableTermination>)
}
