/**
 * The pass over `knx_master.xml`: manufacturers, datapoint types, medium types and
 * mask versions with their features and resources go into the lookup tables.
 * Location information is taken only while inside a `Resource` element.
 */
module KnxMasterParser {
  import opened Wrappers
  import opened JsValues
  import opened Lists
  import opened Sax
  import opened ProjectModel
  import opened ProjectStructure

  // ---------------------------------------------------------------------------
  // The resource-location gate
  // ---------------------------------------------------------------------------

  predicate OpensResource(e: Event) {
    e.OpenTag? && e.element.name == "Resource"
  }

  /** The gate after a stretch of events: opened by a `Resource` open tag, closed by its close tag. */
  function GateAfter(es: seq<Event>, start: bool): bool
  {
    if es == [] then start
    else if OpensResource(Last(es)) then true
    else if Last(es) == CloseTag("Resource") then false
    else GateAfter(es[..|es| - 1], start)
  }

  /** Some `Resource` element was opened and not closed since. */
  predicate InsideResource(es: seq<Event>) {
    exists i :: 0 <= i < |es| && OpensResource(es[i]) && forall j :: i < j < |es| ==> es[j] != CloseTag("Resource")
  }

  /** Starting closed, the gate is open exactly inside a `Resource` element. */
  lemma {:induction false} GateOpenExactlyInsideResource(es: seq<Event>)
    ensures GateAfter(es, false) <==> InsideResource(es)
  {
    if es != [] {
      var n := |es| - 1;
      var init := es[..n];
      if OpensResource(es[n]) {
        assert OpensResource(es[n]);
      } else if es[n] == CloseTag("Resource") {
      } else {
        GateOpenExactlyInsideResource(init);
        if InsideResource(init) {
          var i :| 0 <= i < |init| && OpensResource(init[i]) && forall j :: i < j < |init| ==> init[j] != CloseTag("Resource");
          assert OpensResource(es[i]);
          forall j | i < j < |es| ensures es[j] != CloseTag("Resource") {
            if j < n {
              assert es[j] == init[j];
            }
          }
        }
        if InsideResource(es) {
          var i :| 0 <= i < |es| && OpensResource(es[i]) && forall j :: i < j < |es| ==> es[j] != CloseTag("Resource");
          assert i < n;
          assert OpensResource(init[i]);
          forall j | i < j < |init| ensures init[j] != CloseTag("Resource") {
            assert init[j] == es[j];
          }
        }
      }
    }
  }

  // ---------------------------------------------------------------------------
  // The listeners
  // ---------------------------------------------------------------------------

  /** The names a `Feature` element may carry that set a mask-version field. */
  predicate KnownFeature(name: Attr) {
    name == Some("MaxIndividualAddress") || name == Some("MaxGroupAddress") || name == Some("UnloadedIndividualAddress")
  }

  /** The elements of the master file the listeners handle; every other name is `OtherTag`. */
  datatype MasterTag =
    | ManufacturerTag | DatapointTypeTag | DatapointSubtypeTag | MediumTypeTag | MaskVersionTag | DownwardCompatibleMaskTag
    | FeatureTag | ResourceTag | LocationTag | ResourceTypeTag | AccessRightsTag | OtherTag

  /** The `switch (element.name)` of the open-tag listener. */
  function Classify(name: string): MasterTag
  {
    if name == "Manufacturer" then ManufacturerTag
    else if name == "DatapointType" then DatapointTypeTag
    else if name == "DatapointSubtype" then DatapointSubtypeTag
    else if name == "MediumType" then MediumTypeTag
    else if name == "MaskVersion" then MaskVersionTag
    else if name == "DownwardCompatibleMask" then DownwardCompatibleMaskTag
    else if name == "Feature" then FeatureTag
    else if name == "Resource" then ResourceTag
    else if name == "Location" then LocationTag
    else if name == "ResourceType" then ResourceTypeTag
    else if name == "AccessRights" then AccessRightsTag
    else OtherTag
  }

  /** Only the name "Resource" classifies as a resource element. */
  lemma ClassifyResource(name: string)
    ensures Classify(name) == ResourceTag <==> name == "Resource"
  {
  }

  /** An open tag that leaves the project alone: not one of the file's elements, an unknown feature, a gated location. */
  predicate Ignored(unlocked: bool, tag: MasterTag, e: Element) {
    match tag
    case OtherTag => true
    case FeatureTag => !KnownFeature(Attribute(e, "Name"))
    case LocationTag => !unlocked
    case _ => false
  }

  /** The open tag is handled without an exception: the entry or resource it writes into exists. */
  predicate Accepts(p: Project, unlocked: bool, tag: MasterTag, e: Element) {
    if Ignored(unlocked, tag, e) then true
    else match tag
      case DatapointSubtypeTag => p.datapointLookupTable != []
      case DownwardCompatibleMaskTag | FeatureTag | ResourceTag => p.deviceMaskversionLookupTable != []
      case LocationTag | ResourceTypeTag | AccessRightsTag => HasLastResource(p.deviceMaskversionLookupTable)
      case _ => true
  }

  /** Only the master-data tables differ. */
  predicate OnlyMasterTablesChanged(p: Project, q: Project) {
    && q.topology == p.topology && q.buildings == p.buildings && q.groupRanges == p.groupRanges
    && q.productLookupTable == p.productLookupTable && q.deviceApplicationLookupTable == p.deviceApplicationLookupTable
  }

  /** A mask version with the field a known feature name selects set to the feature's value. */
  function WithFeature(m: MaskVersion, name: string, value: Number): (r: MaskVersion)
    requires KnownFeature(Some(name))
    ensures r.maxIndividualAddress == if name == "MaxIndividualAddress" then Some(value) else m.maxIndividualAddress
    ensures r.maxGroupAddress == if name == "MaxGroupAddress" then Some(value) else m.maxGroupAddress
    ensures r.unloadedIndividualAddress == if name == "UnloadedIndividualAddress" then Some(value) else m.unloadedIndividualAddress
    ensures r.id == m.id && r.resources == m.resources && r.compatibleMaskVersionIDs == m.compatibleMaskVersionIDs
  {
    if name == "MaxIndividualAddress" then m.(maxIndividualAddress := Some(value))
    else if name == "MaxGroupAddress" then m.(maxGroupAddress := Some(value))
    else m.(unloadedIndividualAddress := Some(value))
  }

  /** A resource with the location fields a `Location` element gives it. */
  function Located(r: Resource, e: Element): (l: Resource)
    ensures l.addressSpace == Attribute(e, "AddressSpace") && l.ptrResource == Attribute(e, "PtrResource")
    ensures l.startAddress == OrUndefined(ParseInt(Attribute(e, "StartAddress")))
    ensures l.name == r.name && l.access == r.access && l.length == r.length && l.flavour == r.flavour
  {
    r.(addressSpace := Attribute(e, "AddressSpace"),
      startAddress := OrUndefined(ParseInt(Attribute(e, "StartAddress"))),
      ptrResource := Attribute(e, "PtrResource"),
      interfaceObjectRef := OrUndefined(ParseInt(Attribute(e, "InterfaceObjectRef"))),
      propertyID := OrUndefined(ParseInt(Attribute(e, "PropertyID"))),
      occurrence := OrUndefined(ParseInt(Attribute(e, "Occurrence"))))
  }

  // ---------------------------------------------------------------------------
  // What each element writes
  // ---------------------------------------------------------------------------

  /** A manufacturer at the end of its table. */
  function ManufacturerAdded(p: Project, e: Element): Project {
    p.(manufacturerLookupTable := p.manufacturerLookupTable
      + [Manufacturer(Attribute(e, "Id"), Attribute(e, "KnxManufacturerId"), Attribute(e, "Name"))])
  }

  /** A datapoint type, with no subtypes yet, at the end of its table. */
  function DatapointTypeAdded(p: Project, e: Element): Project {
    p.(datapointLookupTable := p.datapointLookupTable + [DatapointType(Attribute(e, "Id"),
      ParseInt(Attribute(e, "Number")), Attribute(e, "Name"), Attribute(e, "Text"), ParseInt(Attribute(e, "SizeInBit")), [])])
  }

  /** A subtype at the end of the last datapoint type's subtypes. */
  function DatapointSubtypeAdded(p: Project, e: Element): Project
    requires p.datapointLookupTable != []
  {
    var t := p.datapointLookupTable;
    var d := Last(t);
    p.(datapointLookupTable := WithLast(t, d.(datapointSubtypes := d.datapointSubtypes
      + [DatapointSubtype(Attribute(e, "Id"), ParseInt(Attribute(e, "Number")), Attribute(e, "Name"), Attribute(e, "Text"))])))
  }

  /** A medium type at the end of its table. */
  function MediumTypeAdded(p: Project, e: Element): Project {
    p.(mediumTypeLookupTable := p.mediumTypeLookupTable + [MediumType(Attribute(e, "Id"),
      ParseInt(Attribute(e, "Number")), Attribute(e, "Name"), Attribute(e, "Text"), ParseInt(Attribute(e, "DomainAddressLength")))])
  }

  /** A mask version, with no features, resources or compatible masks yet, at the end of its table. */
  function MaskVersionAdded(p: Project, e: Element): Project {
    p.(deviceMaskversionLookupTable := p.deviceMaskversionLookupTable + [MaskVersion(Attribute(e, "Id"),
      ParseInt(Attribute(e, "MaskVersion")), Attribute(e, "Name"), Attribute(e, "ManagementModel"), None, None, None,
      Attribute(e, "MediumTypeRefId"), Attribute(e, "OtherMediumTypeRefId"), [], [])])
  }

  /** The `RefId` at the end of the last mask version's compatible masks. */
  function CompatibleMaskAdded(p: Project, e: Element): Project
    requires p.deviceMaskversionLookupTable != []
  {
    var t := p.deviceMaskversionLookupTable;
    var m := Last(t);
    p.(deviceMaskversionLookupTable := WithLast(t, m.(compatibleMaskVersionIDs := m.compatibleMaskVersionIDs + [Attribute(e, "RefId")])))
  }

  /** The field the feature's `Name` selects, on the last mask version, set to `parseInt(Value)`. */
  function FeatureSet(p: Project, e: Element): Project
    requires KnownFeature(Attribute(e, "Name")) && p.deviceMaskversionLookupTable != []
  {
    var t := p.deviceMaskversionLookupTable;
    p.(deviceMaskversionLookupTable := WithLast(t, WithFeature(Last(t), Attribute(e, "Name").value, ParseInt(Attribute(e, "Value")))))
  }

  /** A new resource with `Name` and `Access` at the end of the last mask version's resources. */
  function ResourceAdded(p: Project, e: Element): Project
    requires p.deviceMaskversionLookupTable != []
  {
    var t := p.deviceMaskversionLookupTable;
    var m := Last(t);
    p.(deviceMaskversionLookupTable := WithLast(t, m.(resources := m.resources + [NewResource(Attribute(e, "Name"), Attribute(e, "Access"))])))
  }

  /** `parseInt(Length)` and `Flavour` on the last resource of the last mask version. */
  function ResourceTypeSet(p: Project, e: Element): Project
    requires HasLastResource(p.deviceMaskversionLookupTable)
  {
    var t := p.deviceMaskversionLookupTable;
    p.(deviceMaskversionLookupTable := WithLastResource(t,
      LastResource(t).(length := Some(ParseInt(Attribute(e, "Length"))), flavour := Attribute(e, "Flavour"))))
  }

  /** `Read` and `Write` on the last resource of the last mask version. */
  function AccessRightsSet(p: Project, e: Element): Project
    requires HasLastResource(p.deviceMaskversionLookupTable)
  {
    var t := p.deviceMaskversionLookupTable;
    p.(deviceMaskversionLookupTable := WithLastResource(t,
      LastResource(t).(readRights := Attribute(e, "Read"), writeRights := Attribute(e, "Write"))))
  }

  /** The location fields on the last resource of the last mask version. */
  function LocationSet(p: Project, e: Element): Project
    requires HasLastResource(p.deviceMaskversionLookupTable)
  {
    var t := p.deviceMaskversionLookupTable;
    p.(deviceMaskversionLookupTable := WithLastResource(t, Located(LastResource(t), e)))
  }

  /** The project after an accepted open tag: the `case` the element's name selects. */
  function Written(p: Project, unlocked: bool, tag: MasterTag, e: Element): Project
    requires Accepts(p, unlocked, tag, e)
  {
    if Ignored(unlocked, tag, e) then p
    else match tag
      case ManufacturerTag => ManufacturerAdded(p, e)
      case DatapointTypeTag => DatapointTypeAdded(p, e)
      case DatapointSubtypeTag => DatapointSubtypeAdded(p, e)
      case MediumTypeTag => MediumTypeAdded(p, e)
      case MaskVersionTag => MaskVersionAdded(p, e)
      case DownwardCompatibleMaskTag => CompatibleMaskAdded(p, e)
      case FeatureTag => FeatureSet(p, e)
      case ResourceTag => ResourceAdded(p, e)
      case LocationTag => LocationSet(p, e)
      case ResourceTypeTag => ResourceTypeSet(p, e)
      case AccessRightsTag => AccessRightsSet(p, e)
      case OtherTag => p
  }

  /** Whatever the element, the pass writes only the master-data tables. */
  lemma WrittenOnlyMasterTables(p: Project, unlocked: bool, tag: MasterTag, e: Element)
    requires Accepts(p, unlocked, tag, e)
    ensures OnlyMasterTablesChanged(p, Written(p, unlocked, tag, e))
  {
  }

  /**
   * A resource goes at the end of the last mask version's resources: the earlier
   * resources and mask versions stay, and it becomes the resource the type, rights
   * and location elements that follow write into.
   */
  lemma ResourceAddedBecomesLast(p: Project, e: Element)
    requires p.deviceMaskversionLookupTable != []
    ensures var t := p.deviceMaskversionLookupTable; var t' := ResourceAdded(p, e).deviceMaskversionLookupTable;
      && |t'| == |t| && t'[..|t| - 1] == t[..|t| - 1]
      && Last(t').resources[..|Last(t).resources|] == Last(t).resources
      && HasLastResource(t') && LastResource(t') == NewResource(Attribute(e, "Name"), Attribute(e, "Access"))
  {
    var t := p.deviceMaskversionLookupTable;
    var m := Last(t);
    var m' := m.(resources := m.resources + [NewResource(Attribute(e, "Name"), Attribute(e, "Access"))]);
    assert Last(ResourceAdded(p, e).deviceMaskversionLookupTable) == m';
    assert m'.resources[..|m.resources|] == m.resources;
  }

  /** The listener state between events: the tables written so far and the location gate. */
  datatype MasterState = MasterState(project: Project, unlocked: bool)

  /** One event: an open tag throws or writes and may open the gate; a close tag only moves the gate. */
  function MasterStep(s: MasterState, ev: Event): Option<MasterState> {
    match ev
    case OpenTag(e) =>
      var tag := Classify(e.name);
      if !Accepts(s.project, s.unlocked, tag, e) then None
      else Some(MasterState(Written(s.project, s.unlocked, tag, e), tag == ResourceTag || s.unlocked))
    case CloseTag(name) => Some(s.(unlocked := name != "Resource" && s.unlocked))
  }

  /** The state after a stretch of events, or `None` once a listener has thrown. */
  function MasterEvents(s: MasterState, es: seq<Event>): Option<MasterState> {
    if es == [] then Some(s)
    else match MasterEvents(s, es[..|es| - 1])
      case None => None
      case Some(t) => MasterStep(t, Last(es))
  }

  /** Handling one more event is one more step. */
  lemma MasterEventsOneMore(s: MasterState, es: seq<Event>, i: nat)
    requires i < |es|
    ensures MasterEvents(s, es[..i + 1]) == match MasterEvents(s, es[..i]) case None => None case Some(t) => MasterStep(t, es[i])
  {
    assert es[..i + 1][..i] == es[..i];
  }

  /** After events handled without throwing, the gate is where `GateAfter` puts it and only the master tables changed. */
  lemma {:induction false} MasterEventsGate(s: MasterState, es: seq<Event>)
    requires MasterEvents(s, es).Some?
    ensures MasterEvents(s, es).value.unlocked == GateAfter(es, s.unlocked)
    ensures OnlyMasterTablesChanged(s.project, MasterEvents(s, es).value.project)
  {
    if es != [] {
      var init := es[..|es| - 1];
      MasterEventsGate(s, init);
      var t := MasterEvents(s, init).value;
      match Last(es)
      case OpenTag(e) =>
        ClassifyResource(e.name);
        WrittenOnlyMasterTables(t.project, t.unlocked, Classify(e.name), e);
      case CloseTag(name) =>
    }
  }

  /** The listener state of one pass: the builder written into and the location gate. */
  class MasterListener {
    const builder: Builder
    var resourceLocationUnlocked: bool

    constructor (b: Builder)
      ensures builder == b && !resourceLocationUnlocked
    {
      builder := b;
      resourceLocationUnlocked := false;
    }

    /** The tables and the gate as one value. */
    function State(): MasterState
      reads this, builder
    {
      MasterState(builder.project, resourceLocationUnlocked)
    }

    /**
     * The open-tag listener, given the element and its name as `Classify` reads it:
     * it throws exactly when the entry or resource it writes into is missing, and
     * then changes nothing; otherwise it writes what `Written` says. A `Resource`
     * element opens the gate.
     */
    method OnOpenTag(tag: MasterTag, e: Element) returns (ok: bool)
      modifies this`resourceLocationUnlocked, builder`project
      ensures resourceLocationUnlocked == (tag == ResourceTag || old(resourceLocationUnlocked))
      ensures ok <==> Accepts(old(builder.project), old(resourceLocationUnlocked), tag, e)
      ensures !ok ==> builder.project == old(builder.project)
      ensures ok ==> builder.project == Written(old(builder.project), old(resourceLocationUnlocked), tag, e)
    {
      ghost var p := builder.project;
      ghost var u := resourceLocationUnlocked;
      if tag == FeatureTag {
        ok := OnFeature(tag, e);
        assert ok ==> Written(p, u, tag, e) == if KnownFeature(Attribute(e, "Name")) then FeatureSet(p, e) else p;
      } else if tag == LocationTag {
        ok := OnLocation(tag, e);
        assert ok ==> Written(p, u, tag, e) == if u then LocationSet(p, e) else p;
      } else if tag == ResourceTag || tag == ResourceTypeTag || tag == AccessRightsTag {
        ok := OnResourcePart(tag, e);
      } else {
        ok := OnTableEntry(tag, e);
      }
    }

    /** The elements that add to the lookup tables or to the current mask version's compatible masks. */
    method OnTableEntry(tag: MasterTag, e: Element) returns (ok: bool)
      requires tag !in {FeatureTag, ResourceTag, LocationTag, ResourceTypeTag, AccessRightsTag}
      modifies builder`project
      ensures ok <==> Accepts(old(builder.project), resourceLocationUnlocked, tag, e)
      ensures !ok ==> builder.project == old(builder.project)
      ensures ok ==> builder.project == Written(old(builder.project), resourceLocationUnlocked, tag, e)
    {
      ghost var p := builder.project;
      ok := true;
      match tag {
        case ManufacturerTag =>
          AddLookupEntry(tag, e);
          assert Written(p, resourceLocationUnlocked, tag, e) == ManufacturerAdded(p, e);
        case DatapointTypeTag =>
          AddLookupEntry(tag, e);
          assert Written(p, resourceLocationUnlocked, tag, e) == DatapointTypeAdded(p, e);
        case DatapointSubtypeTag =>
          ok := AddDatapointSubtype(e);
          assert ok ==> Written(p, resourceLocationUnlocked, tag, e) == DatapointSubtypeAdded(p, e);
        case MediumTypeTag =>
          AddLookupEntry(tag, e);
          assert Written(p, resourceLocationUnlocked, tag, e) == MediumTypeAdded(p, e);
        case MaskVersionTag =>
          AddLookupEntry(tag, e);
          assert Written(p, resourceLocationUnlocked, tag, e) == MaskVersionAdded(p, e);
        case DownwardCompatibleMaskTag =>
          ok := AddCompatibleMask(e);
          assert ok ==> Written(p, resourceLocationUnlocked, tag, e) == CompatibleMaskAdded(p, e);
        case OtherTag =>
      }
    }

    /** Manufacturers, datapoint types, medium types and mask versions: a new entry at the end of their table. */
    method AddLookupEntry(tag: MasterTag, e: Element)
      requires tag in {ManufacturerTag, DatapointTypeTag, MediumTypeTag, MaskVersionTag}
      modifies builder`project
      ensures tag == ManufacturerTag ==> builder.project == ManufacturerAdded(old(builder.project), e)
      ensures tag == DatapointTypeTag ==> builder.project == DatapointTypeAdded(old(builder.project), e)
      ensures tag == MediumTypeTag ==> builder.project == MediumTypeAdded(old(builder.project), e)
      ensures tag == MaskVersionTag ==> builder.project == MaskVersionAdded(old(builder.project), e)
    {
      match tag
      case ManufacturerTag =>
        builder.AddManufacturerToManufacturerLookupTable(Attribute(e, "Id"), Attribute(e, "KnxManufacturerId"), Attribute(e, "Name"));
      case DatapointTypeTag =>
        builder.AddDatapointTypeToDatapointLookupTable(Attribute(e, "Id"), ParseInt(Attribute(e, "Number")),
          Attribute(e, "Name"), Attribute(e, "Text"), ParseInt(Attribute(e, "SizeInBit")));
      case MediumTypeTag =>
        builder.AddMediumTypeToMediumTypeLookupTable(Attribute(e, "Id"), ParseInt(Attribute(e, "Number")),
          Attribute(e, "Name"), Attribute(e, "Text"), ParseInt(Attribute(e, "DomainAddressLength")));
      case MaskVersionTag =>
        builder.AddEntryToDeviceMaskversionLookupTable(Attribute(e, "Id"), ParseInt(Attribute(e, "MaskVersion")),
          Attribute(e, "Name"), Attribute(e, "ManagementModel"), Attribute(e, "MediumTypeRefId"),
          Attribute(e, "OtherMediumTypeRefId"));
    }

    /** A subtype of the last datapoint type. */
    method AddDatapointSubtype(e: Element) returns (ok: bool)
      modifies builder`project
      ensures ok <==> old(builder.project.datapointLookupTable) != []
      ensures !ok ==> builder.project == old(builder.project)
      ensures ok ==> builder.project == DatapointSubtypeAdded(old(builder.project), e)
    {
      ok := builder.AddDatapointSubTypeToDatapointType(Attribute(e, "Id"), ParseInt(Attribute(e, "Number")),
        Attribute(e, "Name"), Attribute(e, "Text"));
    }

    /** The `RefId` of a compatible mask version, on the last mask version. */
    method AddCompatibleMask(e: Element) returns (ok: bool)
      modifies builder`project
      ensures ok <==> old(builder.project.deviceMaskversionLookupTable) != []
      ensures !ok ==> builder.project == old(builder.project)
      ensures ok ==> builder.project == CompatibleMaskAdded(old(builder.project), e)
    {
      ok := builder.AddCompatibleMaskversionIDToMaskversionEntry(Attribute(e, "RefId"));
    }

    /** A `Feature` element sets one of three mask-version fields by its `Name`; other names are ignored. */
    method OnFeature(tag: MasterTag, e: Element) returns (ok: bool)
      requires tag == FeatureTag
      modifies builder`project
      ensures ok <==> Accepts(old(builder.project), resourceLocationUnlocked, tag, e)
      ensures !ok || !KnownFeature(Attribute(e, "Name")) ==> builder.project == old(builder.project)
      ensures ok && KnownFeature(Attribute(e, "Name")) ==> builder.project == FeatureSet(old(builder.project), e)
    {
      ok := true;
      var name := Attribute(e, "Name");
      if KnownFeature(name) {
        ok := SetFeature(name.value, ParseInt(Attribute(e, "Value")));
      }
    }

    /** Sets the mask-version field a known feature name selects to `parseInt(Value)`. */
    method SetFeature(name: string, value: Number) returns (ok: bool)
      requires KnownFeature(Some(name))
      modifies builder`project
      ensures ok <==> old(builder.project.deviceMaskversionLookupTable) != []
      ensures !ok ==> builder.project == old(builder.project)
      ensures ok ==> var t := old(builder.project.deviceMaskversionLookupTable);
        builder.project == old(builder.project).(deviceMaskversionLookupTable := WithLast(t, WithFeature(Last(t), name, value)))
    {
      if name == "MaxIndividualAddress" {
        ok := builder.AddMaxIndividualAddressToMaskversionEntry(value);
      } else if name == "MaxGroupAddress" {
        ok := builder.AddMaxGroupAddressToMaskversionEntry(value);
      } else {
        ok := builder.AddUnloadedIndividualAddressToMaskversionEntry(value);
      }
    }

    /**
     * A resource of the current mask version, and the type and rights elements inside
     * it. The type and rights go to the last resource whether or not the gate is open.
     */
    method OnResourcePart(tag: MasterTag, e: Element) returns (ok: bool)
      requires tag in {ResourceTag, ResourceTypeTag, AccessRightsTag}
      modifies this`resourceLocationUnlocked, builder`project
      ensures resourceLocationUnlocked == (tag == ResourceTag || old(resourceLocationUnlocked))
      ensures ok <==> Accepts(old(builder.project), old(resourceLocationUnlocked), tag, e)
      ensures !ok ==> builder.project == old(builder.project)
      ensures ok ==> builder.project == Written(old(builder.project), old(resourceLocationUnlocked), tag, e)
    {
      ghost var p := builder.project;
      ghost var u := resourceLocationUnlocked;
      match tag {
        case ResourceTag =>
          resourceLocationUnlocked := true;
          ok := AddResource(e);
          assert ok ==> Written(p, u, tag, e) == ResourceAdded(p, e);
        case ResourceTypeTag =>
          ok := WriteResourceType(e);
          assert ok ==> Written(p, u, tag, e) == ResourceTypeSet(p, e);
        case AccessRightsTag =>
          ok := WriteAccessRights(e);
          assert ok ==> Written(p, u, tag, e) == AccessRightsSet(p, e);
      }
    }

    /** A new resource, with `Name` and `Access`, at the end of the last mask version's resources. */
    method AddResource(e: Element) returns (ok: bool)
      modifies builder`project
      ensures ok <==> old(builder.project.deviceMaskversionLookupTable) != []
      ensures !ok ==> builder.project == old(builder.project)
      ensures ok ==> builder.project == ResourceAdded(old(builder.project), e)
    {
      ok := builder.AddResourceToMaskversionEntry(Attribute(e, "Name"), Attribute(e, "Access"));
    }

    /** `parseInt(Length)` and `Flavour` of the current resource. */
    method WriteResourceType(e: Element) returns (ok: bool)
      modifies builder`project
      ensures ok <==> HasLastResource(old(builder.project.deviceMaskversionLookupTable))
      ensures !ok ==> builder.project == old(builder.project)
      ensures ok ==> builder.project == ResourceTypeSet(old(builder.project), e)
    {
      ok := builder.AddResourceTypeInformationToResource(ParseInt(Attribute(e, "Length")), Attribute(e, "Flavour"));
    }

    /** The `Read` and `Write` rights of the current resource. */
    method WriteAccessRights(e: Element) returns (ok: bool)
      modifies builder`project
      ensures ok <==> HasLastResource(old(builder.project.deviceMaskversionLookupTable))
      ensures !ok ==> builder.project == old(builder.project)
      ensures ok ==> builder.project == AccessRightsSet(old(builder.project), e)
    {
      ok := builder.AddAccessRightInformationToResource(Attribute(e, "Read"), Attribute(e, "Write"));
    }

    /** A `Location` element writes the current resource's location, but only while the gate is open. */
    method OnLocation(tag: MasterTag, e: Element) returns (ok: bool)
      requires tag == LocationTag
      modifies builder`project
      ensures ok <==> Accepts(old(builder.project), resourceLocationUnlocked, tag, e)
      ensures !ok || !resourceLocationUnlocked ==> builder.project == old(builder.project)
      ensures ok && resourceLocationUnlocked ==> builder.project == LocationSet(old(builder.project), e)
    {
      ok := true;
      if resourceLocationUnlocked {
        ok := WriteLocation(e);
      }
    }

    /** Writes the six location fields of the current resource, each read with `parseInt(x) || undefined` but the two names. */
    method WriteLocation(e: Element) returns (ok: bool)
      modifies builder`project
      ensures ok <==> HasLastResource(old(builder.project.deviceMaskversionLookupTable))
      ensures !ok ==> builder.project == old(builder.project)
      ensures ok ==> builder.project == LocationSet(old(builder.project), e)
    {
      ok := builder.AddLocationInformationToResource(Attribute(e, "AddressSpace"),
        OrUndefined(ParseInt(Attribute(e, "StartAddress"))), Attribute(e, "PtrResource"),
        OrUndefined(ParseInt(Attribute(e, "InterfaceObjectRef"))), OrUndefined(ParseInt(Attribute(e, "PropertyID"))),
        OrUndefined(ParseInt(Attribute(e, "Occurrence"))));
    }

    /** Leaving a `Resource` element closes the gate. */
    method OnCloseTag(name: string)
      modifies this`resourceLocationUnlocked
      ensures resourceLocationUnlocked == (name != "Resource" && old(resourceLocationUnlocked))
    {
      if name == "Resource" {
        resourceLocationUnlocked := false;
      }
    }

    /** One event to the listeners: the open-tag listener may throw and then changes nothing. */
    method Feed(ev: Event) returns (ok: bool)
      modifies this`resourceLocationUnlocked, builder`project
      ensures ok ==> MasterStep(old(State()), ev) == Some(State())
      ensures !ok ==> MasterStep(old(State()), ev) == None && ev.OpenTag? && builder.project == old(builder.project)
    {
      if ev.OpenTag? {
        ClassifyResource(ev.element.name);
        ok := OnOpenTag(Classify(ev.element.name), ev.element);
      } else {
        OnCloseTag(ev.name);
        ok := true;
      }
    }
  }

  /**
   * `parseKNXMasterFile`: every event goes to the listeners in order; the pass
   * returns the stream's error, or stops at the first event whose handler throws.
   * The tables end as `MasterEvents` says for the events handled, from a closed
   * gate, and the event the pass stopped at is one its listener throws on.
   */
  method ParseKnxMasterFile(b: Builder, doc: Document) returns (err: Option<PassError>)
    modifies b`project
    ensures err.None? ==> doc.outcome.Ended?
    ensures doc.outcome.Failed? ==> err.Some?
    ensures err.Some? && err.value.Reported? ==> doc.outcome == Failed(err.value.message)
    ensures var n := if err.Some? && err.value.HandlerThrew? then err.value.position else |doc.events|;
      && n <= |doc.events|
      && MasterEvents(MasterState(old(b.project), false), doc.events[..n]).Some?
      && var t := MasterEvents(MasterState(old(b.project), false), doc.events[..n]).value;
      && t.project == b.project
      && t.unlocked == GateAfter(doc.events[..n], false)
      && (n < |doc.events| ==> doc.events[n].OpenTag? && MasterStep(t, doc.events[n]).None?)
    ensures OnlyMasterTablesChanged(old(b.project), b.project)
  {
    var listener := new MasterListener(b);
    ghost var s := listener.State();
    var es := doc.events;
    var i := 0;
    while i < |es|
      invariant 0 <= i <= |es|
      invariant listener.builder == b
      invariant MasterEvents(s, es[..i]) == Some(listener.State())
    {
      MasterEventsOneMore(s, es, i);
      var ok := listener.Feed(es[i]);
      if !ok {
        MasterEventsGate(s, es[..i]);
        return Some(HandlerThrew(i));
      }
      i := i + 1;
    }
    assert es[..|es|] == es;
    MasterEventsGate(s, es);
    if doc.outcome.Failed? {
      return Some(Reported(doc.outcome.message));
    }
    return None;
  }
}
