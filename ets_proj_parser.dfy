/**
 * The pass over the project file `0.xml`, which drives the builder from open and
 * close tags, and `parse`, the chain of stages that ends in the parsed project.
 */
module EtsProjParser {
  import opened Wrappers
  import opened JsValues
  import opened Lists
  import opened Forest
  import opened Sax
  import opened ProjectModel
  import opened ProjectStructure
  import ParsedProject
  import KnxMasterParser

  // ---------------------------------------------------------------------------
  // The open-tag and close-tag listeners
  // ---------------------------------------------------------------------------

  /** The elements of the project file the listeners handle; every other name is `OtherTag`. */
  datatype ProjectTag =
    | AreaTag | LineTag | UnassignedDevicesTag | DeviceInstanceTag
    | SecurityTag | ParameterInstanceRefTag | ComObjectInstanceRefTag | ConnectorsTag | SendTag | ReceiveTag
    | BuildingPartTag | DeviceInstanceRefTag | FunctionTag | GroupAddressRefTag
    | GroupRangeTag | GroupAddressTag
    | OtherTag

  /** The `switch (element.name)` of the open-tag listener. */
  function Classify(name: string): ProjectTag
  {
    if name == "Area" then AreaTag
    else if name == "Line" then LineTag
    else if name == "UnassignedDevices" then UnassignedDevicesTag
    else if name == "DeviceInstance" then DeviceInstanceTag
    else if name == "Security" then SecurityTag
    else if name == "ParameterInstanceRef" then ParameterInstanceRefTag
    else if name == "ComObjectInstanceRef" then ComObjectInstanceRefTag
    else if name == "Connectors" then ConnectorsTag
    else if name == "Send" then SendTag
    else if name == "Receive" then ReceiveTag
    else if name == "BuildingPart" then BuildingPartTag
    else if name == "DeviceInstanceRef" then DeviceInstanceRefTag
    else if name == "Function" then FunctionTag
    else if name == "GroupAddressRef" then GroupAddressRefTag
    else if name == "GroupRange" then GroupRangeTag
    else if name == "GroupAddress" then GroupAddressTag
    else OtherTag
  }

  /** The three names whose close tags the listeners act on classify as their own tags only. */
  lemma ClassifyNestingNames(name: string)
    ensures Classify(name) == BuildingPartTag <==> name == "BuildingPart"
    ensures Classify(name) == GroupRangeTag <==> name == "GroupRange"
    ensures Classify(name) == UnassignedDevicesTag <==> name == "UnassignedDevices"
  {
  }

  /** What the listeners read and write: the project and the builder's three pieces of cursor state. */
  datatype ListenerState = ListenerState(project: Project, devicesAssigned: bool, buildingDepth: int, groupRangeDepth: int)

  function StateOf(b: Builder): ListenerState
    reads b
  {
    ListenerState(b.project, b.comingDevicesAssigned, b.currentBuildingDepth, b.currentGroupRangeDepth)
  }

  /**
   * The open tag is handled without an exception: the line, device, connector,
   * building part, function or group range it writes into exists.
   */
  predicate Accepts(s: ListenerState, tag: ProjectTag, e: Element) {
    var p := s.project;
    match tag
    case LineTag => p.topology.areas != []
    case DeviceInstanceTag => !s.devicesAssigned || HasLastLine(p.topology)
    case SecurityTag | ParameterInstanceRefTag | ComObjectInstanceRefTag => HasLastDevice(p.topology)
    case ConnectorsTag => HasLastDevice(p.topology) && LastDevice(p.topology).comObjectReferences != []
    case SendTag | ReceiveTag => HasLastDevice(p.topology) && HasLastConnector(LastDevice(p.topology))
    case BuildingPartTag => Attribute(e, "Type") == Some("Building") || !Resolve(p.buildings, s.buildingDepth).Undefined?
    case DeviceInstanceRefTag | FunctionTag => Resolve(p.buildings, s.buildingDepth).At?
    case GroupAddressRefTag =>
      Resolve(p.buildings, s.buildingDepth).At? && Resolve(p.buildings, s.buildingDepth).node.data.functions != []
    case GroupRangeTag => !Resolve(p.groupRanges, s.groupRangeDepth).Undefined?
    case GroupAddressTag => Resolve(p.groupRanges, s.groupRangeDepth).At?
    case _ => true
  }

  /** The device record a `DeviceInstance` element describes; `strBool` reads the flags and `parseInt` the lengths. */
  function DeviceOf(e: Element): Device {
    NewDevice(Attribute(e, "Id"), Attribute(e, "Name"), Attribute(e, "Description"),
      Attribute(e, "Comment"), Attribute(e, "Address"), Attribute(e, "SerialNumber"),
      StrBool(Attribute(e, "ApplicationProgramLoaded")), StrBool(Attribute(e, "CommunicationPartLoaded")),
      StrBool(Attribute(e, "IndividualAddressLoaded")), StrBool(Attribute(e, "ParametersLoaded")),
      StrBool(Attribute(e, "MediumConfigLoaded")), Attribute(e, "LastModified"), Attribute(e, "LastDownload"),
      Attribute(e, "ProductRefId"), Attribute(e, "Hardware2ProgramRefId"),
      StrBool(Attribute(e, "IsCommunicationObjectVisibilityCalculated")),
      ParseInt(Attribute(e, "LastUsedAPDULength")), ParseInt(Attribute(e, "ReadMaxAPDULength")))
  }

  /** The communication-object reference a `ComObjectInstanceRef` element describes, with no connectors yet. */
  function ComObjectOf(e: Element): ComObjectReference {
    ComObjectReference(Attribute(e, "RefId"), Attribute(e, "Text"), Attribute(e, "Description"),
      Attribute(e, "DatapointType"), StrBool(Attribute(e, "ReadFlag")), StrBool(Attribute(e, "TransmitFlag")),
      StrBool(Attribute(e, "UpdateFlag")), StrBool(Attribute(e, "WriteFlag")), Attribute(e, "Priority"),
      StrBool(Attribute(e, "IsActive")), Attribute(e, "ChannelId"), [])
  }

  /** `addAreaToTopology`: a new area with no lines yet. */
  function AreaAdded(p: Project, e: Element): Project {
    var t := p.topology;
    p.(topology := t.(areas := t.areas + [Area(Attribute(e, "Id"), Attribute(e, "Name"), Attribute(e, "Address"), [])]))
  }

  /** `addLineToArea`: a new line in the last area. */
  function LineAdded(p: Project, e: Element): Project
    requires p.topology.areas != []
  {
    var t := p.topology;
    var a := Last(t.areas);
    var l := Line(Attribute(e, "Id"), Attribute(e, "Name"), Attribute(e, "Address"), Attribute(e, "MediumTypeRefId"), []);
    p.(topology := t.(areas := WithLast(t.areas, a.(lines := a.lines + [l]))))
  }

  /** `addDeviceToLine`: the device goes to the last line, or to the unassigned devices. */
  function DeviceAdded(p: Project, devicesAssigned: bool, e: Element): Project
    requires devicesAssigned ==> HasLastLine(p.topology)
  {
    var t := p.topology;
    p.(topology :=
      if devicesAssigned then WithLastLine(t, LastLine(t).(devices := LastLine(t).devices + [DeviceOf(e)]))
      else t.(unassignedDevices := t.unassignedDevices + [DeviceOf(e)]))
  }

  /** `addSecurityToDevice`: the last device's security is overwritten. */
  function SecuritySet(p: Project, e: Element): Project
    requires HasLastDevice(p.topology)
  {
    var t := p.topology;
    var sec := Security(ParseInt(Attribute(e, "SequenceNumber")), Attribute(e, "SequenceNumberTimestamp"));
    p.(topology := WithLastDevice(t, LastDevice(t).(security := sec)))
  }

  /** `addParameterReferenceToDevice`: a parameter reference of the last device. */
  function ParameterAdded(p: Project, e: Element): Project
    requires HasLastDevice(p.topology)
  {
    var t := p.topology;
    var d := LastDevice(t);
    var r := ParameterReference(Attribute(e, "RefId"), Attribute(e, "Value"));
    p.(topology := WithLastDevice(t, d.(parameterReferences := d.parameterReferences + [r])))
  }

  /** `addCommunicationReferenceToDevice`: a communication-object reference of the last device. */
  function ComObjectAdded(p: Project, e: Element): Project
    requires HasLastDevice(p.topology)
  {
    var t := p.topology;
    var d := LastDevice(t);
    p.(topology := WithLastDevice(t, d.(comObjectReferences := d.comObjectReferences + [ComObjectOf(e)])))
  }

  /** `addConnectorToCommunicationReference`: an empty connector on the last device's last reference. */
  function ConnectorAdded(p: Project): Project
    requires HasLastDevice(p.topology) && LastDevice(p.topology).comObjectReferences != []
  {
    var t := p.topology;
    var d := LastDevice(t);
    var c := Last(d.comObjectReferences);
    p.(topology := WithLastDevice(t,
      d.(comObjectReferences := WithLast(d.comObjectReferences, c.(connectors := c.connectors + [Connector([], [])])))))
  }

  /** `addSendToConnector`: a group address reference the last connector sends to. */
  function SendAdded(p: Project, e: Element): Project
    requires HasLastDevice(p.topology) && HasLastConnector(LastDevice(p.topology))
  {
    var t := p.topology;
    var d := LastDevice(t);
    var k := Last(Last(d.comObjectReferences).connectors);
    p.(topology := WithLastDevice(t, WithLastConnector(d, k.(send := k.send + [Attribute(e, "GroupAddressRefId")]))))
  }

  /** `addReceiveToConnector`: a group address reference the last connector receives from. */
  function ReceiveAdded(p: Project, e: Element): Project
    requires HasLastDevice(p.topology) && HasLastConnector(LastDevice(p.topology))
  {
    var t := p.topology;
    var d := LastDevice(t);
    var k := Last(Last(d.comObjectReferences).connectors);
    p.(topology := WithLastDevice(t, WithLastConnector(d, k.(receive := k.receive + [Attribute(e, "GroupAddressRefId")]))))
  }

  /** `addBuildingPartToBuildingPart`: a 'Building' becomes a root, any other part goes under the current one. */
  function BuildingPartAdded(p: Project, depth: int, e: Element): Project
    requires Attribute(e, "Type") == Some("Building") || !Resolve(p.buildings, depth).Undefined?
  {
    var x := Tree(BuildingPart(Attribute(e, "Id"), Attribute(e, "Name"), Attribute(e, "Type"), Attribute(e, "DefaultLine"), [], []), []);
    p.(buildings := if Attribute(e, "Type") == Some("Building") then p.buildings + [x] else AppendAt(p.buildings, depth, x))
  }

  /** `addDeviceReferenceToBuildingPart`: a device reference of the current part. */
  function DeviceRefAdded(p: Project, depth: int, e: Element): Project
    requires Resolve(p.buildings, depth).At?
  {
    var cur := Resolve(p.buildings, depth).node;
    p.(buildings := ReplaceCurrent(p.buildings, depth,
      cur.(data := cur.data.(deviceReferences := cur.data.deviceReferences + [Attribute(e, "RefId")]))))
  }

  /** `addFunctionToBuildingPart`: a function of the current part, without references yet. */
  function FunctionAdded(p: Project, depth: int, e: Element): Project
    requires Resolve(p.buildings, depth).At?
  {
    var cur := Resolve(p.buildings, depth).node;
    var fn := BuildingFunction(Attribute(e, "Id"), Attribute(e, "Name"), Attribute(e, "Type"), []);
    p.(buildings := ReplaceCurrent(p.buildings, depth, cur.(data := cur.data.(functions := cur.data.functions + [fn]))))
  }

  /** `addGroupAddressReferenceToFunction`: a group address reference of the current part's last function. */
  function GroupAddressRefAdded(p: Project, depth: int, e: Element): Project
    requires Resolve(p.buildings, depth).At? && Resolve(p.buildings, depth).node.data.functions != []
  {
    var cur := Resolve(p.buildings, depth).node;
    var fn := Last(cur.data.functions);
    var r := GroupAddressReference(Attribute(e, "Id"), Attribute(e, "Name"), Attribute(e, "Role"), Attribute(e, "RefId"));
    var fn' := fn.(groupAddressReferences := fn.groupAddressReferences + [r]);
    p.(buildings := ReplaceCurrent(p.buildings, depth, cur.(data := cur.data.(functions := WithLast(cur.data.functions, fn')))))
  }

  /**
   * `addGroupRangeToGroupRange`: a range at the insertion point that passes through
   * when `strBool(Unfiltered)` says so or the range it goes under does.
   */
  function GroupRangeAdded(p: Project, depth: int, e: Element): Project
    requires !Resolve(p.groupRanges, depth).Undefined?
  {
    var f := p.groupRanges;
    var flag := StrBool(Attribute(e, "Unfiltered")) || ParentPassThrough(Resolve(f, depth));
    var r := GroupRange(Attribute(e, "Id"), Attribute(e, "Name"), ParseInt(Attribute(e, "RangeStart")),
      ParseInt(Attribute(e, "RangeEnd")), flag, []);
    p.(groupRanges := AppendAt(f, depth, Tree(r, [])))
  }

  /**
   * The range a `GroupRange` element adds is the current range one level down, with
   * no sub-ranges and no addresses, the element's `Id` and `Name`, and a pass-through
   * flag set exactly when `strBool(Unfiltered)` says so or the range it went under
   * passes through.
   */
  lemma GroupRangeAddedIsCurrent(p: Project, depth: int, e: Element)
    requires !Resolve(p.groupRanges, depth).Undefined?
    ensures var c := Resolve(GroupRangeAdded(p, depth, e).groupRanges, if p.groupRanges == [] then 0 else Steps(depth) + 1);
      && c.At? && c.node.children == [] && c.node.data.groupAddresses == []
      && c.node.data.id == Attribute(e, "Id") && c.node.data.name == Attribute(e, "Name")
      && c.node.data.passThroughLineCoupler == (StrBool(Attribute(e, "Unfiltered")) || ParentPassThrough(Resolve(p.groupRanges, depth)))
  {
    var f := p.groupRanges;
    var flag := StrBool(Attribute(e, "Unfiltered")) || ParentPassThrough(Resolve(f, depth));
    var x := Tree(GroupRange(Attribute(e, "Id"), Attribute(e, "Name"), ParseInt(Attribute(e, "RangeStart")),
      ParseInt(Attribute(e, "RangeEnd")), flag, []), []);
    assert GroupRangeAdded(p, depth, e).groupRanges == AppendAt(f, depth, x);
    AppendedIsCurrent(f, depth, x);
  }


  /** `addGroupAddressToGroupRange`: an address of the current range, carrying the range's flag. */
  function GroupAddressAdded(p: Project, depth: int, e: Element): Project
    requires Resolve(p.groupRanges, depth).At?
  {
    var cur := Resolve(p.groupRanges, depth).node;
    var a := GroupAddress(Attribute(e, "Id"), Attribute(e, "Name"), ParseInt(Attribute(e, "Address")),
      Attribute(e, "Description"), Attribute(e, "DatapointType"), cur.data.passThroughLineCoupler,
      StrBool(Attribute(e, "Central")));
    p.(groupRanges := ReplaceCurrent(p.groupRanges, depth, cur.(data := cur.data.(groupAddresses := cur.data.groupAddresses + [a]))))
  }

  /** The project after an accepted open tag: the `switch` of the open-tag listener. */
  function Written(s: ListenerState, tag: ProjectTag, e: Element): Project
    requires Accepts(s, tag, e)
  {
    var p := s.project;
    match tag
    case AreaTag => AreaAdded(p, e)
    case LineTag => LineAdded(p, e)
    case DeviceInstanceTag => DeviceAdded(p, s.devicesAssigned, e)
    case SecurityTag => SecuritySet(p, e)
    case ParameterInstanceRefTag => ParameterAdded(p, e)
    case ComObjectInstanceRefTag => ComObjectAdded(p, e)
    case ConnectorsTag => ConnectorAdded(p)
    case SendTag => SendAdded(p, e)
    case ReceiveTag => ReceiveAdded(p, e)
    case BuildingPartTag => BuildingPartAdded(p, s.buildingDepth, e)
    case DeviceInstanceRefTag => DeviceRefAdded(p, s.buildingDepth, e)
    case FunctionTag => FunctionAdded(p, s.buildingDepth, e)
    case GroupAddressRefTag => GroupAddressRefAdded(p, s.buildingDepth, e)
    case GroupRangeTag => GroupRangeAdded(p, s.groupRangeDepth, e)
    case GroupAddressTag => GroupAddressAdded(p, s.groupRangeDepth, e)
    case UnassignedDevicesTag | OtherTag => p
  }

  /** Only a range or an address changes the group-address tree. */
  lemma WrittenKeepsOtherRanges(s: ListenerState, tag: ProjectTag, e: Element)
    requires Accepts(s, tag, e) && tag != GroupRangeTag && tag != GroupAddressTag
    ensures Written(s, tag, e).groupRanges == s.project.groupRanges
  {
  }

  /** Every accepted open tag keeps the pass-through flags inherited down the group-address tree. */
  lemma WrittenKeepsFlags(s: ListenerState, tag: ProjectTag, e: Element)
    requires Accepts(s, tag, e) && FlagsInherited(s.project.groupRanges, false)
    ensures FlagsInherited(Written(s, tag, e).groupRanges, false)
  {
    var f, d := s.project.groupRanges, s.groupRangeDepth;
    if tag == GroupRangeTag {
      var flag := StrBool(Attribute(e, "Unfiltered")) || ParentPassThrough(Resolve(f, d));
      AppendRangeInherits(f, d, GroupRange(Attribute(e, "Id"), Attribute(e, "Name"), ParseInt(Attribute(e, "RangeStart")),
        ParseInt(Attribute(e, "RangeEnd")), flag, []));
    } else if tag == GroupAddressTag {
      var cur := Resolve(f, d).node;
      AppendAddressInherits(f, d, GroupAddress(Attribute(e, "Id"), Attribute(e, "Name"), ParseInt(Attribute(e, "Address")),
        Attribute(e, "Description"), Attribute(e, "DatapointType"), cur.data.passThroughLineCoupler,
        StrBool(Attribute(e, "Central"))));
    } else {
      WrittenKeepsOtherRanges(s, tag, e);
    }
  }

  /** The state after an open tag, or `None` when the listener throws. */
  function OpenStep(s: ListenerState, tag: ProjectTag, e: Element): Option<ListenerState> {
    if !Accepts(s, tag, e) then None
    else Some(ListenerState(Written(s, tag, e), tag != UnassignedDevicesTag && s.devicesAssigned,
      s.buildingDepth + (if tag == BuildingPartTag then 1 else 0),
      s.groupRangeDepth + (if tag == GroupRangeTag then 1 else 0)))
  }

  /** The state after a close tag, which never throws. */
  function CloseStep(s: ListenerState, name: string): ListenerState {
    s.(devicesAssigned := name == "UnassignedDevices" || s.devicesAssigned,
       buildingDepth := s.buildingDepth - (if name == "BuildingPart" then 1 else 0),
       groupRangeDepth := s.groupRangeDepth - (if name == "GroupRange" then 1 else 0))
  }

  function HandleEvent(s: ListenerState, ev: Sax.Event): Option<ListenerState> {
    match ev
    case OpenTag(e) => OpenStep(s, Classify(e.name), e)
    case CloseTag(name) => Some(CloseStep(s, name))
  }

  /** The state after a stretch of events, or `None` once a listener has thrown. */
  function HandleEvents(s: ListenerState, es: seq<Sax.Event>): Option<ListenerState>
  {
    if es == [] then Some(s)
    else match HandleEvents(s, es[..|es| - 1])
      case None => None
      case Some(s') => HandleEvent(s', Last(es))
  }

  /** The topology elements: areas, lines, the unassigned-devices section and devices. */
  method OnTopologyTag(b: Builder, tag: ProjectTag, e: Element) returns (ok: bool)
    requires tag in {AreaTag, LineTag, UnassignedDevicesTag, DeviceInstanceTag}
    modifies b`project, b`comingDevicesAssigned
    ensures ok <==> Accepts(old(StateOf(b)), tag, e)
    ensures !ok ==> b.project == old(b.project)
    ensures ok ==> b.project == Written(old(StateOf(b)), tag, e)
    ensures b.comingDevicesAssigned == (tag != UnassignedDevicesTag && old(b.comingDevicesAssigned))
  {
    ghost var s := StateOf(b);
    ok := true;
    match tag {
      case AreaTag =>
        b.AddAreaToTopology(Attribute(e, "Id"), Attribute(e, "Name"), Attribute(e, "Address"));
        assert Written(s, tag, e) == AreaAdded(s.project, e);
      case LineTag =>
        ok := b.AddLineToArea(Attribute(e, "Id"), Attribute(e, "Name"), Attribute(e, "Address"), Attribute(e, "MediumTypeRefId"));
        assert ok ==> Written(s, tag, e) == LineAdded(s.project, e);
      case UnassignedDevicesTag =>
        b.UnassignedDevicesStart();
        assert Written(s, tag, e) == s.project;
      case DeviceInstanceTag =>
        ok := OnDeviceInstance(b, e);
        assert ok ==> Written(s, tag, e) == DeviceAdded(s.project, s.devicesAssigned, e);
    }
  }

  /** A device goes to the last line, or to the unassigned devices inside that section; `strBool` reads its flags. */
  method OnDeviceInstance(b: Builder, e: Element) returns (ok: bool)
    modifies b`project
    ensures ok <==> !b.comingDevicesAssigned || HasLastLine(old(b.project.topology))
    ensures !ok ==> b.project == old(b.project)
    ensures ok ==> b.project == DeviceAdded(old(b.project), b.comingDevicesAssigned, e)
  {
    ok := b.AddDeviceToLine(Attribute(e, "Id"), Attribute(e, "Name"), Attribute(e, "Description"),
      Attribute(e, "Comment"), Attribute(e, "Address"), Attribute(e, "SerialNumber"),
      StrBool(Attribute(e, "ApplicationProgramLoaded")), StrBool(Attribute(e, "CommunicationPartLoaded")),
      StrBool(Attribute(e, "IndividualAddressLoaded")), StrBool(Attribute(e, "ParametersLoaded")),
      StrBool(Attribute(e, "MediumConfigLoaded")), Attribute(e, "LastModified"), Attribute(e, "LastDownload"),
      Attribute(e, "ProductRefId"), Attribute(e, "Hardware2ProgramRefId"),
      StrBool(Attribute(e, "IsCommunicationObjectVisibilityCalculated")),
      ParseInt(Attribute(e, "LastUsedAPDULength")), ParseInt(Attribute(e, "ReadMaxAPDULength")));
  }

  /** What the current device holds: security, parameter references, communication objects and their connectors. */
  method OnDeviceDetailTag(b: Builder, tag: ProjectTag, e: Element) returns (ok: bool)
    requires tag in {SecurityTag, ParameterInstanceRefTag, ComObjectInstanceRefTag, ConnectorsTag, SendTag, ReceiveTag}
    modifies b`project
    ensures ok <==> Accepts(old(StateOf(b)), tag, e)
    ensures !ok ==> b.project == old(b.project)
    ensures ok ==> b.project == Written(old(StateOf(b)), tag, e)
  {
    ghost var s := StateOf(b);
    match tag {
      case SecurityTag =>
        ok := OnSecurity(b, e);
        assert ok ==> Written(s, tag, e) == SecuritySet(s.project, e);
      case ParameterInstanceRefTag =>
        ok := OnParameterInstanceRef(b, e);
        assert ok ==> Written(s, tag, e) == ParameterAdded(s.project, e);
      case ComObjectInstanceRefTag =>
        ok := OnComObjectInstanceRef(b, e);
        assert ok ==> Written(s, tag, e) == ComObjectAdded(s.project, e);
      case ConnectorsTag =>
        ok := b.AddConnectorToCommunicationReference();
        assert ok ==> Written(s, tag, e) == ConnectorAdded(s.project);
      case SendTag =>
        ok := b.AddSendToConnector(Attribute(e, "GroupAddressRefId"));
        assert ok ==> Written(s, tag, e) == SendAdded(s.project, e);
      case ReceiveTag =>
        ok := b.AddReceiveToConnector(Attribute(e, "GroupAddressRefId"));
        assert ok ==> Written(s, tag, e) == ReceiveAdded(s.project, e);
    }
  }

  /** The security record of the last device: `parseInt(SequenceNumber)` and the timestamp. */
  method OnSecurity(b: Builder, e: Element) returns (ok: bool)
    modifies b`project
    ensures ok <==> HasLastDevice(old(b.project.topology))
    ensures !ok ==> b.project == old(b.project)
    ensures ok ==> b.project == SecuritySet(old(b.project), e)
  {
    ok := b.AddSecurityToDevice(ParseInt(Attribute(e, "SequenceNumber")), Attribute(e, "SequenceNumberTimestamp"));
  }

  /** A parameter reference of the last device. */
  method OnParameterInstanceRef(b: Builder, e: Element) returns (ok: bool)
    modifies b`project
    ensures ok <==> HasLastDevice(old(b.project.topology))
    ensures !ok ==> b.project == old(b.project)
    ensures ok ==> b.project == ParameterAdded(old(b.project), e)
  {
    ok := b.AddParameterReferenceToDevice(Attribute(e, "RefId"), Attribute(e, "Value"));
  }

  /** A communication object reference of the last device; `strBool` reads its flags. */
  method OnComObjectInstanceRef(b: Builder, e: Element) returns (ok: bool)
    modifies b`project
    ensures ok <==> HasLastDevice(old(b.project.topology))
    ensures !ok ==> b.project == old(b.project)
    ensures ok ==> b.project == ComObjectAdded(old(b.project), e)
  {
    ok := b.AddCommunicationReferenceToDevice(Attribute(e, "Text"), Attribute(e, "Description"),
      Attribute(e, "RefId"), Attribute(e, "DatapointType"),
      StrBool(Attribute(e, "ReadFlag")), StrBool(Attribute(e, "TransmitFlag")),
      StrBool(Attribute(e, "UpdateFlag")), StrBool(Attribute(e, "WriteFlag")),
      Attribute(e, "Priority"), StrBool(Attribute(e, "IsActive")), Attribute(e, "ChannelId"));
  }

  /** The building tree: building parts, the device references and functions they hold, and the functions' group address references. */
  method OnBuildingTag(b: Builder, tag: ProjectTag, e: Element) returns (ok: bool)
    requires tag in {BuildingPartTag, DeviceInstanceRefTag, FunctionTag, GroupAddressRefTag}
    modifies b`project, b`currentBuildingDepth
    ensures ok <==> Accepts(old(StateOf(b)), tag, e)
    ensures !ok ==> b.project == old(b.project)
    ensures ok ==> b.project == Written(old(StateOf(b)), tag, e)
    ensures b.currentBuildingDepth == old(b.currentBuildingDepth) + (if tag == BuildingPartTag && ok then 1 else 0)
    ensures tag == BuildingPartTag && ok ==> Size(b.project.buildings) == Size(old(b.project.buildings)) + 1
  {
    ghost var s := StateOf(b);
    match tag {
      case BuildingPartTag =>
        ok := OnBuildingPart(b, e);
        assert ok ==> Written(s, tag, e) == BuildingPartAdded(s.project, s.buildingDepth, e);
      case DeviceInstanceRefTag =>
        ok := OnDeviceInstanceRef(b, e);
        assert ok ==> Written(s, tag, e) == DeviceRefAdded(s.project, s.buildingDepth, e);
      case FunctionTag =>
        ok := OnFunction(b, e);
        assert ok ==> Written(s, tag, e) == FunctionAdded(s.project, s.buildingDepth, e);
      case GroupAddressRefTag =>
        ok := OnGroupAddressRef(b, e);
        assert ok ==> Written(s, tag, e) == GroupAddressRefAdded(s.project, s.buildingDepth, e);
    }
  }

  /** A building part: a new root when its `Type` is 'Building', otherwise a child of the current part. */
  method OnBuildingPart(b: Builder, e: Element) returns (ok: bool)
    modifies b`project, b`currentBuildingDepth
    ensures ok <==> Attribute(e, "Type") == Some("Building") || !Resolve(old(b.project.buildings), old(b.currentBuildingDepth)).Undefined?
    ensures !ok ==> b.project == old(b.project)
    ensures ok ==> b.project == BuildingPartAdded(old(b.project), old(b.currentBuildingDepth), e)
    ensures b.currentBuildingDepth == old(b.currentBuildingDepth) + (if ok then 1 else 0)
    ensures ok ==> Size(b.project.buildings) == Size(old(b.project.buildings)) + 1
  {
    ok := b.AddBuildingPartToBuildingPart(Attribute(e, "Id"), Attribute(e, "Name"), Attribute(e, "Type"), Attribute(e, "DefaultLine"));
  }

  /** A device reference of the current building part. */
  method OnDeviceInstanceRef(b: Builder, e: Element) returns (ok: bool)
    modifies b`project
    ensures ok <==> Resolve(old(b.project.buildings), b.currentBuildingDepth).At?
    ensures !ok ==> b.project == old(b.project)
    ensures ok ==> b.project == DeviceRefAdded(old(b.project), b.currentBuildingDepth, e)
  {
    ok := b.AddDeviceReferenceToBuildingPart(Attribute(e, "RefId"));
  }

  /** A function of the current building part, with no group address references yet. */
  method OnFunction(b: Builder, e: Element) returns (ok: bool)
    modifies b`project
    ensures ok <==> Resolve(old(b.project.buildings), b.currentBuildingDepth).At?
    ensures !ok ==> b.project == old(b.project)
    ensures ok ==> b.project == FunctionAdded(old(b.project), b.currentBuildingDepth, e)
  {
    ok := b.AddFunctionToBuildingPart(Attribute(e, "Id"), Attribute(e, "Name"), Attribute(e, "Type"));
  }

  /** A group address reference of the current part's last function. */
  method OnGroupAddressRef(b: Builder, e: Element) returns (ok: bool)
    modifies b`project
    ensures ok <==> var r := Resolve(old(b.project.buildings), b.currentBuildingDepth); r.At? && r.node.data.functions != []
    ensures !ok ==> b.project == old(b.project)
    ensures ok ==> b.project == GroupAddressRefAdded(old(b.project), b.currentBuildingDepth, e)
  {
    ok := b.AddGroupAddressReferenceToFunction(Attribute(e, "Id"), Attribute(e, "Name"), Attribute(e, "Role"), Attribute(e, "RefId"));
  }

  /** The group-address tree: ranges and the addresses in them. */
  method OnGroupTag(b: Builder, tag: ProjectTag, e: Element) returns (ok: bool)
    requires tag in {GroupRangeTag, GroupAddressTag}
    modifies b`project, b`currentGroupRangeDepth
    ensures ok <==> Accepts(old(StateOf(b)), tag, e)
    ensures !ok ==> b.project == old(b.project)
    ensures ok ==> b.project == Written(old(StateOf(b)), tag, e)
    ensures b.currentGroupRangeDepth == old(b.currentGroupRangeDepth) + (if tag == GroupRangeTag && ok then 1 else 0)
  {
    ghost var s := StateOf(b);
    if tag == GroupRangeTag {
      ok := OnGroupRange(b, e);
      assert ok ==> Written(s, tag, e) == GroupRangeAdded(s.project, s.groupRangeDepth, e);
    } else {
      ok := OnGroupAddress(b, e);
      assert ok ==> Written(s, tag, e) == GroupAddressAdded(s.project, s.groupRangeDepth, e);
    }
  }

  /**
   * A range below the current one, or at the top level; entering it raises the range
   * depth. It passes through when `strBool(Unfiltered)` says so or its parent does.
   */
  method OnGroupRange(b: Builder, e: Element) returns (ok: bool)
    modifies b`project, b`currentGroupRangeDepth
    ensures ok <==> !Resolve(old(b.project.groupRanges), old(b.currentGroupRangeDepth)).Undefined?
    ensures !ok ==> b.project == old(b.project)
    ensures ok ==> b.project == GroupRangeAdded(old(b.project), old(b.currentGroupRangeDepth), e)
    ensures b.currentGroupRangeDepth == old(b.currentGroupRangeDepth) + (if ok then 1 else 0)
    ensures old(b.Valid()) ==> b.Valid()
  {
    ok := b.AddGroupRangeToGroupRange(Attribute(e, "Id"), ParseInt(Attribute(e, "RangeStart")),
      ParseInt(Attribute(e, "RangeEnd")), Attribute(e, "Name"), StrBool(Attribute(e, "Unfiltered")));
  }

  /** An address in the current range, taking the range's line-coupler flag and `strBool(Central)`. */
  method OnGroupAddress(b: Builder, e: Element) returns (ok: bool)
    modifies b`project
    ensures ok <==> Resolve(old(b.project.groupRanges), b.currentGroupRangeDepth).At?
    ensures !ok ==> b.project == old(b.project)
    ensures ok ==> b.project == GroupAddressAdded(old(b.project), b.currentGroupRangeDepth, e)
    ensures old(b.Valid()) ==> b.Valid()
  {
    ok := b.AddGroupAddressToGroupRange(Attribute(e, "Id"), Attribute(e, "Name"), ParseInt(Attribute(e, "Address")),
      Attribute(e, "Description"), Attribute(e, "DatapointType"), Attribute(e, "Unfiltered"),
      StrBool(Attribute(e, "Central")));
  }

  /**
   * The open-tag listener, given the element and its name as `Classify` reads it:
   * it throws exactly when the element it writes into is missing, and then changes
   * nothing; otherwise it writes what `Written` says and moves the depths and the
   * assignment flag as the tag says. Each tag goes to the handler for its part of
   * the project.
   */
  method OnOpenTag(b: Builder, tag: ProjectTag, e: Element) returns (ok: bool)
    modifies b`project, b`comingDevicesAssigned, b`currentBuildingDepth, b`currentGroupRangeDepth
    ensures ok <==> Accepts(old(StateOf(b)), tag, e)
    ensures !ok ==> b.project == old(b.project)
    ensures ok ==> b.project == Written(old(StateOf(b)), tag, e)
    ensures b.comingDevicesAssigned == (tag != UnassignedDevicesTag && old(b.comingDevicesAssigned))
    ensures b.currentBuildingDepth == old(b.currentBuildingDepth) + (if tag == BuildingPartTag && ok then 1 else 0)
    ensures b.currentGroupRangeDepth == old(b.currentGroupRangeDepth) + (if tag == GroupRangeTag && ok then 1 else 0)
  {
    ok := true;
    if tag in {AreaTag, LineTag, UnassignedDevicesTag, DeviceInstanceTag} {
      ok := OnTopologyTag(b, tag, e);
    } else if tag in {SecurityTag, ParameterInstanceRefTag, ComObjectInstanceRefTag, ConnectorsTag, SendTag, ReceiveTag} {
      ok := OnDeviceDetailTag(b, tag, e);
    } else if tag in {BuildingPartTag, DeviceInstanceRefTag, FunctionTag, GroupAddressRefTag} {
      ok := OnBuildingTag(b, tag, e);
    } else if tag in {GroupRangeTag, GroupAddressTag} {
      ok := OnGroupTag(b, tag, e);
    }
  }

  /** The close-tag listener: leaving a building part or a range steps one level up; leaving the unassigned devices ends that section. */
  method OnCloseTag(b: Builder, name: string)
    modifies b`comingDevicesAssigned, b`currentBuildingDepth, b`currentGroupRangeDepth
    ensures b.currentBuildingDepth == old(b.currentBuildingDepth) - (if name == "BuildingPart" then 1 else 0)
    ensures b.currentGroupRangeDepth == old(b.currentGroupRangeDepth) - (if name == "GroupRange" then 1 else 0)
    ensures b.comingDevicesAssigned == (name == "UnassignedDevices" || old(b.comingDevicesAssigned))
    ensures StateOf(b) == CloseStep(old(StateOf(b)), name)
  {
    if name == "BuildingPart" {
      b.FinishBuildingPart();
    } else if name == "GroupRange" {
      b.FinishGroupRange();
    } else if name == "UnassignedDevices" {
      b.UnassignedDevicesStop();
    }
  }

  // ---------------------------------------------------------------------------
  // The pass over the project file
  // ---------------------------------------------------------------------------

  /** Whether devices go to lines after a stretch of events: the last `UnassignedDevices` tag decides. */
  function AssignedAfter(es: seq<Sax.Event>, start: bool): bool
  {
    if es == [] then start
    else if Last(es).OpenTag? && Last(es).element.name == "UnassignedDevices" then false
    else if Last(es) == CloseTag("UnassignedDevices") then true
    else AssignedAfter(es[..|es| - 1], start)
  }

  /** An event that opens or closes an `UnassignedDevices` element. */
  predicate TogglesAssignment(e: Sax.Event) {
    (e.OpenTag? && e.element.name == "UnassignedDevices") || e == CloseTag("UnassignedDevices")
  }

  /** Reading one more event: the depths and the assignment flag move by that event alone. */
  lemma ReadOneMore(es: seq<Sax.Event>, i: nat, start: bool)
    requires i < |es|
    ensures Nesting(es[..i + 1], "BuildingPart") == Nesting(es[..i], "BuildingPart")
      + (if OpensElement(es[i], "BuildingPart") then 1 else 0) - (if es[i] == CloseTag("BuildingPart") then 1 else 0)
    ensures Nesting(es[..i + 1], "GroupRange") == Nesting(es[..i], "GroupRange")
      + (if OpensElement(es[i], "GroupRange") then 1 else 0) - (if es[i] == CloseTag("GroupRange") then 1 else 0)
    ensures AssignedAfter(es[..i + 1], start) ==
      if OpensElement(es[i], "UnassignedDevices") then false
      else if es[i] == CloseTag("UnassignedDevices") then true
      else AssignedAfter(es[..i], start)
  {
    NestingOneMore(es, i, "BuildingPart");
    NestingOneMore(es, i, "GroupRange");
    assert es[..i + 1][..i] == es[..i];
    assert Last(es[..i + 1]) == es[i];
  }

  /** Events that neither open nor close `UnassignedDevices` leave the flag alone. */
  lemma {:induction false} AssignedAfterSkips(a: seq<Sax.Event>, b: seq<Sax.Event>, start: bool)
    requires forall i :: 0 <= i < |b| ==> !TogglesAssignment(b[i])
    ensures AssignedAfter(a + b, start) == AssignedAfter(a, start)
    decreases |b|
  {
    if b != [] {
      var b' := b[..|b| - 1];
      assert (a + b)[..|a + b| - 1] == a + b';
      assert Last(a + b) == b[|b| - 1];
      AssignedAfterSkips(a, b', start);
    } else {
      assert a + b == a;
    }
  }

  /**
   * Devices read inside an `UnassignedDevices` element, whatever came before it,
   * are not placed on a line; after its close tag they are again.
   */
  lemma UnassignedSection(pre: seq<Sax.Event>, e: Element, inner: seq<Sax.Event>, start: bool)
    requires e.name == "UnassignedDevices"
    requires forall i :: 0 <= i < |inner| ==> !TogglesAssignment(inner[i])
    ensures !AssignedAfter(pre + [OpenTag(e)] + inner, start)
    ensures AssignedAfter(pre + [OpenTag(e)] + inner + [CloseTag("UnassignedDevices")], start)
  {
    AssignedAfterSkips(pre + [OpenTag(e)], inner, start);
    assert (pre + [OpenTag(e)])[..|pre|] == pre;
  }

  /** Reading one more event: the listeners' state moves by that event alone. */
  lemma HandleEventsOneMore(s: ListenerState, es: seq<Sax.Event>, i: nat)
    requires i < |es|
    ensures HandleEvents(s, es[..i + 1]) ==
      match HandleEvents(s, es[..i]) case None => None case Some(t) => HandleEvent(t, es[i])
  {
    assert es[..i + 1][..i] == es[..i];
    assert Last(es[..i + 1]) == es[i];
  }

  /**
   * Over any stretch of events the listeners handle without throwing, the depths
   * move by the opens minus the closes of `BuildingPart` and `GroupRange`, and the
   * assignment flag is the one the last `UnassignedDevices` tag left.
   */
  lemma {:induction false} HandleEventsCursor(s: ListenerState, es: seq<Sax.Event>)
    requires HandleEvents(s, es).Some?
    ensures var t := HandleEvents(s, es).value;
      && t.buildingDepth == s.buildingDepth + Nesting(es, "BuildingPart")
      && t.groupRangeDepth == s.groupRangeDepth + Nesting(es, "GroupRange")
      && t.devicesAssigned == AssignedAfter(es, s.devicesAssigned)
    decreases |es|
  {
    if es != [] {
      var i := |es| - 1;
      assert es[..i + 1] == es;
      HandleEventsOneMore(s, es, i);
      HandleEventsCursor(s, es[..i]);
      ReadOneMore(es, i, s.devicesAssigned);
      if es[i].OpenTag? {
        ClassifyNestingNames(es[i].element.name);
      }
    }
  }

  /** Every stretch of events handled without throwing keeps the pass-through flags inherited. */
  lemma {:induction false} HandleEventsKeepsFlags(s: ListenerState, es: seq<Sax.Event>)
    requires FlagsInherited(s.project.groupRanges, false) && HandleEvents(s, es).Some?
    ensures FlagsInherited(HandleEvents(s, es).value.project.groupRanges, false)
    decreases |es|
  {
    if es != [] {
      var init := es[..|es| - 1];
      HandleEventsKeepsFlags(s, init);
      var t := HandleEvents(s, init).value;
      if Last(es).OpenTag? {
        var e := Last(es).element;
        WrittenKeepsFlags(t, Classify(e.name), e);
      }
    }
  }

  /** What the cursors and the flags are after a stretch of events handled without throwing. */
  lemma Handled(s: ListenerState, es: seq<Sax.Event>, wasValid: bool)
    requires HandleEvents(s, es).Some?
    requires wasValid ==> FlagsInherited(s.project.groupRanges, false)
    ensures var t := HandleEvents(s, es).value;
      && t.buildingDepth == s.buildingDepth + Nesting(es, "BuildingPart")
      && t.groupRangeDepth == s.groupRangeDepth + Nesting(es, "GroupRange")
      && t.devicesAssigned == AssignedAfter(es, s.devicesAssigned)
      && (wasValid ==> FlagsInherited(t.project.groupRanges, false))
  {
    HandleEventsCursor(s, es);
    if wasValid {
      HandleEventsKeepsFlags(s, es);
    }
  }

  /** Two listener states agree when their project, flag and depths do. */
  lemma SameState(a: ListenerState, b: ListenerState)
    requires a.project == b.project && a.devicesAssigned == b.devicesAssigned
    requires a.buildingDepth == b.buildingDepth && a.groupRangeDepth == b.groupRangeDepth
    ensures a == b
  {
  }

  /** An accepted open tag's effect, field by field, is one `OpenStep`. */
  lemma OpenStepAccepted(s: ListenerState, tag: ProjectTag, e: Element, t: ListenerState)
    requires Accepts(s, tag, e)
    requires t.project == Written(s, tag, e)
    requires t.devicesAssigned == (tag != UnassignedDevicesTag && s.devicesAssigned)
    requires t.buildingDepth == s.buildingDepth + (if tag == BuildingPartTag then 1 else 0)
    requires t.groupRangeDepth == s.groupRangeDepth + (if tag == GroupRangeTag then 1 else 0)
    ensures OpenStep(s, tag, e).Some? && OpenStep(s, tag, e).value == t
  {
    var o := OpenStep(s, tag, e);
    assert o.Some? && o.value.project == Written(s, tag, e);
    SameState(o.value, t);
  }

  /** A refused open tag leaves the whole listener state as it was. */
  lemma OpenStepRefused(s: ListenerState, tag: ProjectTag, e: Element, t: ListenerState)
    requires !Accepts(s, tag, e)
    requires t.project == s.project
    requires t.devicesAssigned == (tag != UnassignedDevicesTag && s.devicesAssigned)
    requires t.buildingDepth == s.buildingDepth && t.groupRangeDepth == s.groupRangeDepth
    ensures OpenStep(s, tag, e).None? && t == s
  {
  }

  /** One event to the listeners: the open-tag listener may throw, the close-tag listener never does. */
  method Feed(b: Builder, ev: Sax.Event) returns (ok: bool)
    modifies b`project, b`comingDevicesAssigned, b`currentBuildingDepth, b`currentGroupRangeDepth
    ensures ok ==> HandleEvent(old(StateOf(b)), ev) == Some(StateOf(b))
    ensures !ok ==> HandleEvent(old(StateOf(b)), ev) == None && ev.OpenTag? && StateOf(b) == old(StateOf(b))
  {
    ghost var s := StateOf(b);
    if ev.OpenTag? {
      ok := OnOpenTag(b, Classify(ev.element.name), ev.element);
      if ok {
        OpenStepAccepted(s, Classify(ev.element.name), ev.element, StateOf(b));
      } else {
        OpenStepRefused(s, Classify(ev.element.name), ev.element, StateOf(b));
      }
    } else {
      OnCloseTag(b, ev.name);
      ok := true;
    }
  }

  /**
   * `parseProject`: every event goes to the listeners in order; the pass returns the
   * stream's error, or stops at the first event whose handler throws. The project
   * and the cursors end as `HandleEvents` says for the events handled, and the
   * event the pass stopped at is one its listener throws on.
   */
  method ParseProjectFile(b: Builder, doc: Sax.Document) returns (err: Option<PassError>)
    modifies b`project, b`comingDevicesAssigned, b`currentBuildingDepth, b`currentGroupRangeDepth
    ensures err.None? ==> doc.outcome.Ended?
    ensures doc.outcome.Failed? ==> err.Some?
    ensures err.Some? && err.value.Reported? ==> doc.outcome == Failed(err.value.message)
    ensures var n := if err.Some? && err.value.HandlerThrew? then err.value.position else |doc.events|;
      && n <= |doc.events|
      && HandleEvents(old(StateOf(b)), doc.events[..n]) == Some(StateOf(b))
      && (n < |doc.events| ==> doc.events[n].OpenTag? && HandleEvent(StateOf(b), doc.events[n]).None?)
      && b.currentBuildingDepth == old(b.currentBuildingDepth) + Nesting(doc.events[..n], "BuildingPart")
      && b.currentGroupRangeDepth == old(b.currentGroupRangeDepth) + Nesting(doc.events[..n], "GroupRange")
      && b.comingDevicesAssigned == AssignedAfter(doc.events[..n], old(b.comingDevicesAssigned))
    ensures old(b.Valid()) ==> b.Valid()
  {
    ghost var s := StateOf(b);
    ghost var wasValid := b.Valid();
    var es := doc.events;
    var i := 0;
    while i < |es|
      invariant 0 <= i <= |es|
      invariant HandleEvents(s, es[..i]) == Some(StateOf(b))
    {
      HandleEventsOneMore(s, es, i);
      var ok := Feed(b, es[i]);
      if !ok {
        Handled(s, es[..i], wasValid);
        return Some(HandlerThrew(i));
      }
      i := i + 1;
    }
    assert es[..|es|] == es;
    Handled(s, es, wasValid);
    if doc.outcome.Failed? {
      return Some(Reported(doc.outcome.message));
    }
    return None;
  }

  // ---------------------------------------------------------------------------
  // Constructing the hardware and application parsers
  // ---------------------------------------------------------------------------

  /**
   * What `new ProductInformationParser(self)` and `new ApplicationInformationParser(self)`
   * evaluate to. Their constructors return the result of file discovery; a
   * constructor that returns an object replaces the new instance, so a discovery
   * error comes back in place of the parser.
   */
  datatype Construction = Instance | ReturnedError(message: string)

  function Construct(discovery: Option<string>): (r: Construction)
    ensures r.Instance? <==> discovery.None?
  {
    if discovery.Some? then ReturnedError(discovery.value) else Instance
  }

  /** What awaiting a stage yields: the value it returns, or an exception it throws. */
  datatype StageOutcome = Returned(result: Option<string>) | ThrewTypeError

  /**
   * The stage as written: the pass method is called on whatever the construction
   * gave. An error object has no such method, so the call throws a TypeError and
   * the discovery message never reaches the caller of `parse`.
   */
  function StageAsWritten(discovery: Option<string>, passResult: Option<string>): (r: StageOutcome)
    ensures r.ThrewTypeError? <==> discovery.Some?
    ensures r.Returned? ==> r.result == passResult
  {
    match Construct(discovery)
    case Instance => Returned(passResult)
    case ReturnedError(_) => ThrewTypeError
  }

  /** A failed discovery, e.g. a workdir without vendor folders, is not returned as an error but throws. */
  lemma DiscoveryErrorIsLost(passResult: Option<string>)
    ensures var message := "No vendor information was found inside the workdir (w) !";
      StageAsWritten(Some(message), passResult) != Returned(Some(message))
  {
  }

  /** The stage as intended: a failed discovery is the stage's error, otherwise the pass's own. */
  function StageError(discovery: Option<string>, passResult: Option<string>): (r: Option<PassError>)
    ensures r.None? <==> discovery.None? && passResult.None?
    ensures r.Some? ==> r.value.Reported? && Some(r.value.message) == if discovery.Some? then discovery else passResult
  {
    if discovery.Some? then Some(Reported(discovery.value))
    else if passResult.Some? then Some(Reported(passResult.value))
    else None
  }

  // ---------------------------------------------------------------------------
  // The stage chain
  // ---------------------------------------------------------------------------

  datatype Stage = ProjectFolder | ProjectInformation | ProjectData | HardwareInformation | KnxMaster | ApplicationInformation

  /** The stages `parse` runs when none fails; application information only when asked for. */
  function Chain(parseDeviceApplicationInformation: bool): (r: seq<Stage>)
    ensures ApplicationInformation in r <==> parseDeviceApplicationInformation
  {
    [ProjectFolder, ProjectInformation, ProjectData, HardwareInformation, KnxMaster]
      + (if parseDeviceApplicationInformation then [ApplicationInformation] else [])
  }

  /** The listener state of a fresh builder. */
  const Start := ListenerState(EmptyProject(), true, -1, -1)

  /** The project-data stage: a fresh builder fed the project file. */
  method ReadProjectFile(doc: Sax.Document) returns (b: Builder, err: Option<PassError>)
    ensures fresh(b)
    ensures err.None? ==> doc.outcome.Ended?
    ensures doc.outcome.Failed? ==> err.Some?
    ensures err.Some? && err.value.Reported? ==> doc.outcome == Failed(err.value.message)
    ensures err.None? ==> HandleEvents(Start, doc.events).Some?
    ensures err.None? ==> HandleEvents(Start, doc.events).value.project == b.project
    ensures err.None? ==> b.Valid()
  {
    b := new Builder();
    assert StateOf(b) == Start;
    err := ParseProjectFile(b, doc);
    assert doc.events[..|doc.events|] == doc.events;
  }

  datatype ParseResult = Error(stage: Stage, error: PassError) | Parsed(project: Project)

  /**
   * The stages after the project data, on the builder that stage filled: hardware
   * information, the master file and, when asked for, application information.
   * Only the master file's tables change in the builder; the result is the project
   * with its addresses normalised.
   */
  method ParseLaterStages(b: Builder, hardwareDiscovery: Option<string>, hardwareInformation: Option<string>,
    knxMasterFile: Sax.Document, parseDeviceApplicationInformation: bool,
    applicationDiscovery: Option<string>, applicationInformation: Option<string>)
    returns (r: ParseResult, stages: seq<Stage>)
    modifies b`project
    ensures stages != [] && stages <= Chain(parseDeviceApplicationInformation)[3..]
    ensures r.Error? ==> r.stage == Last(stages)
    ensures r.Parsed? ==> stages == Chain(parseDeviceApplicationInformation)[3..]
    ensures hardwareDiscovery.Some? || hardwareInformation.Some? ==>
      r == Error(HardwareInformation, StageError(hardwareDiscovery, hardwareInformation).value)
    ensures r.Error? && r.stage == HardwareInformation ==> StageError(hardwareDiscovery, hardwareInformation) == Some(r.error)
    ensures r.Error? && r.stage == ApplicationInformation ==> StageError(applicationDiscovery, applicationInformation) == Some(r.error)
    ensures r.Error? && r.stage == KnxMaster && r.error.Reported? ==> knxMasterFile.outcome == Failed(r.error.message)
    ensures r.Parsed? ==>
      && hardwareDiscovery.None? && hardwareInformation.None? && knxMasterFile.outcome.Ended?
      && (parseDeviceApplicationInformation ==> applicationDiscovery.None? && applicationInformation.None?)
    ensures r.Parsed? ==>
      && r.project.topology == ParsedProject.NormalizeTopology(old(b.project.topology))
      && r.project.buildings == old(b.project.buildings) && r.project.groupRanges == old(b.project.groupRanges)
    ensures r.Parsed? ==> var m := KnxMasterParser.MasterEvents(KnxMasterParser.MasterState(old(b.project), false), knxMasterFile.events);
      m.Some? && r.project == m.value.project.(topology := ParsedProject.NormalizeTopology(m.value.project.topology))
    ensures r.Parsed? && old(b.Valid()) ==> FlagsInherited(r.project.groupRanges, false)
  {
    stages := [HardwareInformation];
    var err := StageError(hardwareDiscovery, hardwareInformation);
    if err.Some? {
      return Error(HardwareInformation, err.value), stages;
    }
    stages := stages + [KnxMaster];
    err := KnxMasterParser.ParseKnxMasterFile(b, knxMasterFile);
    if err.Some? {
      return Error(KnxMaster, err.value), stages;
    }
    if parseDeviceApplicationInformation {
      stages := stages + [ApplicationInformation];
      err := StageError(applicationDiscovery, applicationInformation);
      if err.Some? {
        return Error(ApplicationInformation, err.value), stages;
      }
    }
    assert knxMasterFile.events[..|knxMasterFile.events|] == knxMasterFile.events;
    var parsed := new ParsedProject.Document(b.project);
    return Parsed(parsed.project), stages;
  }

  /**
   * `parse`: the stages run in order and the first error is returned as it is;
   * otherwise the built project, with its addresses normalised, is the result.
   * The project-file and master-file passes run here; the other stages are given
   * by the error they report, if any. A failed discovery of hardware or application
   * files is returned as that stage's error, which is what the source intends
   * (see `StageAsWritten` for what it does instead).
   */
  method Parse(projectFolder: Option<string>, projectInformation: Option<string>, projectFile: Sax.Document,
    hardwareDiscovery: Option<string>, hardwareInformation: Option<string>, knxMasterFile: Sax.Document,
    parseDeviceApplicationInformation: bool, applicationDiscovery: Option<string>, applicationInformation: Option<string>)
    returns (r: ParseResult, stages: seq<Stage>)
    ensures stages != [] && stages <= Chain(parseDeviceApplicationInformation)
    ensures r.Error? ==> r.stage == Last(stages)
    ensures r.Parsed? ==> stages == Chain(parseDeviceApplicationInformation)
    ensures projectFolder.Some? ==> r == Error(ProjectFolder, Reported(projectFolder.value))
    ensures projectFolder.None? && projectInformation.Some? ==> r == Error(ProjectInformation, Reported(projectInformation.value))
    ensures projectFolder.None? && projectInformation.None? && projectFile.outcome.Failed? ==>
      r.Error? && r.stage == ProjectData
    ensures projectFolder.None? && projectInformation.None? && (hardwareDiscovery.Some? || hardwareInformation.Some?) ==>
      r.Error? && r.stage in {ProjectData, HardwareInformation}
    ensures r.Error? && r.stage == HardwareInformation ==>
      r.error.Reported? && (if hardwareDiscovery.Some? then hardwareDiscovery else hardwareInformation) == Some(r.error.message)
    ensures r.Error? && r.stage == ApplicationInformation ==>
      r.error.Reported? && (if applicationDiscovery.Some? then applicationDiscovery else applicationInformation) == Some(r.error.message)
    ensures r.Error? && r.stage in {ProjectData, KnxMaster} && r.error.Reported? ==>
      (if r.stage == ProjectData then projectFile else knxMasterFile).outcome == Failed(r.error.message)
    ensures r.Parsed? ==>
      && projectFolder.None? && projectInformation.None? && hardwareDiscovery.None? && hardwareInformation.None?
      && (parseDeviceApplicationInformation ==> applicationDiscovery.None? && applicationInformation.None?)
      && projectFile.outcome.Ended? && knxMasterFile.outcome.Ended?
    ensures !parseDeviceApplicationInformation ==> ApplicationInformation !in stages
    ensures r.Parsed? ==> FlagsInherited(r.project.groupRanges, false)
    ensures r.Parsed? ==> HandleEvents(Start, projectFile.events).Some?
    ensures r.Parsed? ==> var p := HandleEvents(Start, projectFile.events).value.project;
      && r.project.topology == ParsedProject.NormalizeTopology(p.topology)
      && r.project.buildings == p.buildings && r.project.groupRanges == p.groupRanges
    ensures r.Parsed? ==> var p := HandleEvents(Start, projectFile.events).value.project;
      var m := KnxMasterParser.MasterEvents(KnxMasterParser.MasterState(p, false), knxMasterFile.events);
      m.Some? && r.project == m.value.project.(topology := ParsedProject.NormalizeTopology(m.value.project.topology))
  {
    stages := [ProjectFolder];
    if projectFolder.Some? {
      return Error(ProjectFolder, Reported(projectFolder.value)), stages;
    }
    stages := stages + [ProjectInformation];
    if projectInformation.Some? {
      return Error(ProjectInformation, Reported(projectInformation.value)), stages;
    }
    stages := stages + [ProjectData];
    var b, err := ReadProjectFile(projectFile);
    if err.Some? {
      return Error(ProjectData, err.value), stages;
    }
    var later;
    r, later := ParseLaterStages(b, hardwareDiscovery, hardwareInformation, knxMasterFile,
      parseDeviceApplicationInformation, applicationDiscovery, applicationInformation);
    assert Chain(parseDeviceApplicationInformation) == stages + Chain(parseDeviceApplicationInformation)[3..];
    stages := stages + later;
  }
}
