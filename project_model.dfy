/**
 * The project record the builder assembles: topology (areas, lines, devices and the
 * unassigned devices), the building forest, the group-range forest and the six
 * lookup tables. Cross references are kept as the raw identifier strings found in
 * the source documents and are never resolved here.
 */
module ProjectModel {
  import opened Wrappers
  import opened JsValues
  import opened Lists
  import opened Forest

  // ---------------------------------------------------------------------------
  // Topology
  // ---------------------------------------------------------------------------

  datatype ProgrammingStatus = ProgrammingStatus(
    serialNumber: Attr,
    applicationProgramLoaded: bool,
    communicationPartLoaded: bool,
    individualAddressLoaded: bool,
    parametersLoaded: bool,
    mediumConfigLoaded: bool,
    lastUsedAPDULength: Number,
    maxReadAPDULength: Number,
    lastModified: Attr,
    lastDownload: Attr)

  /** A device's security record: `{}` until a Security element fills it in. */
  datatype Security = NoSecurity | Security(sequenceNumber: Number, sequenceNumberTimestamp: Attr)

  datatype ParameterReference = ParameterReference(parameterRefID: Attr, parameterValue: Attr)

  /** A connector: the group-address references a communication object sends to and receives from. */
  datatype Connector = Connector(send: seq<Attr>, receive: seq<Attr>)

  datatype ComObjectReference = ComObjectReference(
    comObjectRefID: Attr,
    text: Attr,
    description: Attr,
    datapointType: Attr,
    readFlag: bool,
    transmitFlag: bool,
    updateFlag: bool,
    writeFlag: bool,
    priority: Attr,
    isActive: bool,
    channelID: Attr,
    connectors: seq<Connector>)

  datatype Device = Device(
    id: Attr,
    name: Attr,
    description: Attr,
    comment: Attr,
    address: Attr,
    comObjectReferences: seq<ComObjectReference>,
    parameterReferences: seq<ParameterReference>,
    security: Security,
    isComObjectVisibilityCalculated: bool,
    programmingStatus: ProgrammingStatus,
    productRefID: Attr,
    hardware2ProgramRefID: Attr)

  datatype Line = Line(id: Attr, name: Attr, address: Attr, mediumTypeRefID: Attr, devices: seq<Device>)

  datatype Area = Area(id: Attr, name: Attr, address: Attr, lines: seq<Line>)

  datatype Topology = Topology(areas: seq<Area>, unassignedDevices: seq<Device>)

  // ---------------------------------------------------------------------------
  // Buildings and group addresses
  // ---------------------------------------------------------------------------

  datatype GroupAddressReference = GroupAddressReference(id: Attr, name: Attr, role: Attr, groupAddressRefID: Attr)

  datatype BuildingFunction = BuildingFunction(id: Attr, name: Attr, kind: Attr, groupAddressReferences: seq<GroupAddressReference>)

  /** A building part without its `buildingParts` list (the children of its tree node). */
  datatype BuildingPart = BuildingPart(
    id: Attr,
    name: Attr,
    kind: Attr,
    defaultLine: Attr,
    deviceReferences: seq<Attr>,
    functions: seq<BuildingFunction>)

  datatype GroupAddress = GroupAddress(
    id: Attr,
    name: Attr,
    address: Number,
    description: Attr,
    datapointType: Attr,
    passThroughLineCoupler: bool,
    central: bool)

  /** A group range without its `groupRanges` list (the children of its tree node). */
  datatype GroupRange = GroupRange(
    id: Attr,
    name: Attr,
    rangeStart: Number,
    rangeEnd: Number,
    passThroughLineCoupler: bool,
    groupAddresses: seq<GroupAddress>)

  // ---------------------------------------------------------------------------
  // Lookup tables
  // ---------------------------------------------------------------------------

  datatype HardwareFlags = HardwareFlags(
    isAccessory: bool,
    isPowerSupply: bool,
    isChoke: bool,
    isCoupler: bool,
    isPowerLineRepeater: bool,
    isPowerLineSignalFilter: bool,
    isCable: bool,
    isIPEnabled: bool,
    hasApplicationProgram1: bool,
    hasApplicationProgram2: bool,
    hasIndividualAddress: bool,
    noDownloadWithoutPlugin: bool)

  /** Everything a product-table entry holds except its `products` list. */
  datatype ProductFamilyInfo = ProductFamilyInfo(
    id: Attr,
    name: Attr,
    busCurrent: Attr,
    serialNumber: Attr,
    flags: HardwareFlags,
    originalManufacturerRefID: Attr,
    manufacturerRefID: Attr,
    applicationProgramRefID: Attr)

  datatype Product = Product(id: Attr, text: Attr, visibleDescription: Attr, orderNumber: Attr)

  datatype ProductFamily = ProductFamily(info: ProductFamilyInfo, products: seq<Product>)

  datatype Manufacturer = Manufacturer(id: Attr, knxManufacturerID: Attr, manufacturerName: Attr)

  datatype DatapointSubtype = DatapointSubtype(id: Attr, subDptNumber: Number, subDptName: Attr, subDptText: Attr)

  datatype DatapointType = DatapointType(
    id: Attr,
    dptNumber: Number,
    dptName: Attr,
    dptText: Attr,
    dptSizeInBit: Number,
    datapointSubtypes: seq<DatapointSubtype>)

  datatype MediumType = MediumType(id: Attr, number: Number, name: Attr, text: Attr, domainAddressLength: Number)

  datatype ApplicationProgram = ApplicationProgram(
    id: Attr,
    name: Attr,
    number: Number,
    version: Attr,
    programType: Attr,
    maskVersion: Attr,
    manufacturerRefID: Attr)

  /**
   * A resource of a mask version. The numeric location fields come from
   * `parseInt(x) || undefined`, `length` from `parseInt`; all start undefined.
   */
  datatype Resource = Resource(
    name: Attr,
    access: Attr,
    addressSpace: Attr,
    startAddress: Option<int>,
    ptrResource: Attr,
    interfaceObjectRef: Option<int>,
    propertyID: Option<int>,
    occurrence: Option<int>,
    length: Option<Number>,
    flavour: Attr,
    readRights: Attr,
    writeRights: Attr)

  datatype MaskVersion = MaskVersion(
    id: Attr,
    maskVersion: Number,
    name: Attr,
    managementModel: Attr,
    unloadedIndividualAddress: Option<Number>,
    maxIndividualAddress: Option<Number>,
    maxGroupAddress: Option<Number>,
    mediumTypeRefID: Attr,
    otherMediumTypeRefID: Attr,
    resources: seq<Resource>,
    compatibleMaskVersionIDs: seq<Attr>)

  // ---------------------------------------------------------------------------
  // The project
  // ---------------------------------------------------------------------------

  datatype Project = Project(
    topology: Topology,
    buildings: seq<Tree<BuildingPart>>,
    groupRanges: seq<Tree<GroupRange>>,
    productLookupTable: seq<ProductFamily>,
    manufacturerLookupTable: seq<Manufacturer>,
    datapointLookupTable: seq<DatapointType>,
    mediumTypeLookupTable: seq<MediumType>,
    deviceApplicationLookupTable: seq<ApplicationProgram>,
    deviceMaskversionLookupTable: seq<MaskVersion>)

  /** The project a new builder starts from: every tree and table empty. */
  function EmptyProject(): (p: Project)
    ensures p.topology.areas == [] && p.topology.unassignedDevices == []
    ensures p.buildings == [] && p.groupRanges == []
    ensures p.productLookupTable == [] && p.manufacturerLookupTable == [] && p.datapointLookupTable == []
    ensures p.mediumTypeLookupTable == [] && p.deviceApplicationLookupTable == [] && p.deviceMaskversionLookupTable == []
  {
    Project(Topology([], []), [], [], [], [], [], [], [], [])
  }

  /** A device as `addDeviceToLine` creates it: no references yet and the empty security record. */
  function NewDevice(
    id: Attr, name: Attr, description: Attr, comment: Attr, address: Attr, serialNumber: Attr,
    applicationProgramLoaded: bool, communicationPartLoaded: bool, individualAddressLoaded: bool,
    parametersLoaded: bool, mediumConfigLoaded: bool, lastModified: Attr, lastDownload: Attr,
    productRefID: Attr, hardware2ProgramRefID: Attr, isComObjectVisibilityCalculated: bool,
    lastUsedAPDULength: Number, maxReadAPDULength: Number): Device
  {
    Device(id, name, description, comment, address, [], [], NoSecurity, isComObjectVisibilityCalculated,
      ProgrammingStatus(serialNumber, applicationProgramLoaded, communicationPartLoaded, individualAddressLoaded,
        parametersLoaded, mediumConfigLoaded, lastUsedAPDULength, maxReadAPDULength, lastModified, lastDownload),
      productRefID, hardware2ProgramRefID)
  }

  /** A resource as `addResourceToMaskversionEntry` creates it: every location and type field undefined. */
  function NewResource(name: Attr, access: Attr): Resource
  {
    Resource(name, access, None, None, None, None, None, None, None, None, None, None)
  }

  // ---------------------------------------------------------------------------
  // The "current" (last) line and device of the topology
  // ---------------------------------------------------------------------------

  /** `_.last(_.last(areas).lines)` exists. */
  predicate HasLastLine(t: Topology) {
    t.areas != [] && Last(t.areas).lines != []
  }

  function LastLine(t: Topology): Line
    requires HasLastLine(t)
  {
    Last(Last(t.areas).lines)
  }

  /** The topology with the last line of the last area replaced by `l`. */
  function WithLastLine(t: Topology, l: Line): Topology
    requires HasLastLine(t)
  {
    var a := Last(t.areas);
    t.(areas := WithLast(t.areas, a.(lines := WithLast(a.lines, l))))
  }

  /** `_.last(_.last(_.last(areas).lines).devices)` exists. */
  predicate HasLastDevice(t: Topology) {
    HasLastLine(t) && LastLine(t).devices != []
  }

  function LastDevice(t: Topology): Device
    requires HasLastDevice(t)
  {
    Last(LastLine(t).devices)
  }

  /** The topology with the last device of the last line of the last area replaced by `d`. */
  function WithLastDevice(t: Topology, d: Device): Topology
    requires HasLastDevice(t)
  {
    var l := LastLine(t);
    WithLastLine(t, l.(devices := WithLast(l.devices, d)))
  }

  /** `_.last(_.last(device.communicationObjectReference).connectors)` exists. */
  predicate HasLastConnector(d: Device) {
    d.comObjectReferences != [] && Last(d.comObjectReferences).connectors != []
  }

  /** The device with the last connector of its last communication object replaced by `k`. */
  function WithLastConnector(d: Device, k: Connector): Device
    requires HasLastConnector(d)
  {
    var c := Last(d.comObjectReferences);
    d.(comObjectReferences := WithLast(d.comObjectReferences, c.(connectors := WithLast(c.connectors, k))))
  }

  /** `_.last(_.last(deviceMaskversionLookupTable).resources)` exists. */
  predicate HasLastResource(table: seq<MaskVersion>) {
    table != [] && Last(table).resources != []
  }

  function LastResource(table: seq<MaskVersion>): Resource
    requires HasLastResource(table)
  {
    Last(Last(table).resources)
  }

  /** The table with the last resource of the last mask version replaced by `r`. */
  function WithLastResource(table: seq<MaskVersion>, r: Resource): seq<MaskVersion>
    requires HasLastResource(table)
  {
    var m := Last(table);
    WithLast(table, m.(resources := WithLast(m.resources, r)))
  }

  // ---------------------------------------------------------------------------
  // All lines and all devices, in document order
  // ---------------------------------------------------------------------------

  /** The lines of every area, area by area. */
  function Lines(areas: seq<Area>): seq<Line>
  {
    if areas == [] then [] else Lines(areas[..|areas| - 1]) + Last(areas).lines
  }

  /** The devices of every line, line by line. */
  function DevicesOf(lines: seq<Line>): seq<Device>
  {
    if lines == [] then [] else DevicesOf(lines[..|lines| - 1]) + Last(lines).devices
  }

  /** The devices under the areas; the unassigned devices are not among them. */
  function Devices(t: Topology): seq<Device>
  {
    DevicesOf(Lines(t.areas))
  }

  /** A line is listed exactly when some area holds it. */
  lemma {:induction false} InLines(areas: seq<Area>, l: Line)
    ensures l in Lines(areas) <==> exists i :: 0 <= i < |areas| && l in areas[i].lines
  {
    if areas != [] {
      var init := areas[..|areas| - 1];
      InLines(init, l);
      if l in Lines(areas) {
        if l in Lines(init) {
          var i :| 0 <= i < |init| && l in init[i].lines;
          assert areas[i] == init[i];
        } else {
          assert l in areas[|areas| - 1].lines;
        }
      } else {
        forall i | 0 <= i < |areas| ensures l !in areas[i].lines {
          if i < |areas| - 1 {
            assert areas[i] == init[i];
          }
        }
      }
    }
  }

  /**
   * Replacing the current device changes only the last device of the device list:
   * the current device is the last device of the last line of the last area.
   */
  lemma WithLastDeviceInDevices(t: Topology, d: Device)
    requires HasLastDevice(t)
    ensures Devices(t) != [] && Last(Devices(t)) == LastDevice(t)
    ensures Devices(WithLastDevice(t, d)) == WithLast(Devices(t), d)
  {
    var a := Last(t.areas);
    var l := LastLine(t);
    var t' := WithLastDevice(t, d);
    var l' := l.(devices := WithLast(l.devices, d));
    var a' := a.(lines := WithLast(a.lines, l'));
    assert t'.areas == WithLast(t.areas, a');
    var initAreas := t.areas[..|t.areas| - 1];
    assert t'.areas[..|t'.areas| - 1] == initAreas;
    assert Lines(t.areas) == Lines(initAreas) + a.lines;
    assert Lines(t'.areas) == Lines(initAreas) + a'.lines;
    var ls := Lines(t.areas);
    var ls' := Lines(t'.areas);
    var initLines := Lines(initAreas) + a.lines[..|a.lines| - 1];
    assert ls == initLines + [l];
    assert ls' == initLines + [l'];
    assert ls[..|ls| - 1] == initLines && Last(ls) == l;
    assert ls'[..|ls'| - 1] == initLines && Last(ls') == l';
    assert DevicesOf(ls) == DevicesOf(initLines) + l.devices;
    assert DevicesOf(ls') == DevicesOf(initLines) + l'.devices;
  }
}
