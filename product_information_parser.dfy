/**
 * The pass over the hardware files (`M-XXXX/Hardware.xml`): every `Hardware`
 * element that carries attributes opens a product family in the product lookup
 * table, stamped with the `RefId` of the last `Manufacturer` element of the same
 * file; `Product` and `ApplicationProgramRef` elements complete the newest family.
 */
module ProductInformationParser {
  import opened Wrappers
  import opened JsValues
  import opened Lists
  import opened Sax
  import opened ProjectModel
  import opened ProjectStructure

  /** The elements of a hardware file the listener handles; every other name is `OtherTag`. */
  datatype HardwareFileTag = ManufacturerTag | HardwareTag | ProductTag | ApplicationProgramRefTag | OtherTag

  /** The `switch (element.name)` of the open-tag listener. */
  function Classify(name: string): HardwareFileTag
  {
    if name == "Manufacturer" then ManufacturerTag
    else if name == "Hardware" then HardwareTag
    else if name == "Product" then ProductTag
    else if name == "ApplicationProgramRef" then ApplicationProgramRefTag
    else OtherTag
  }

  lemma ClassifyNames(name: string)
    ensures Classify(name) == ManufacturerTag <==> name == "Manufacturer"
    ensures Classify(name) == HardwareTag <==> name == "Hardware"
  {
  }

  /** The listener's `currentManufacturer` after a stretch of events, starting from `start`. */
  function ManufacturerAfter(es: seq<Event>, start: Attr): Attr
  {
    LastAttribute(es, "Manufacturer", "RefId", start)
  }

  /** A `Hardware` element is worth an entry only when it has attributes. */
  predicate OpensFamily(e: Event) {
    OpensElement(e, "Hardware") && e.element.attributes != map[]
  }

  /** The family a `Hardware` element opens under the given manufacturer; bus current is kept as written. */
  function FamilyEntry(e: Element, manufacturerRefID: Attr): (r: ProductFamily)
    ensures r.info.id == Attribute(e, "Id") && r.info.manufacturerRefID == manufacturerRefID
    ensures r.info.flags.isCoupler == StrBool(Attribute(e, "IsCoupler"))
    ensures r.products == [] && r.info.applicationProgramRefID.None?
  {
    var flags := HardwareFlags(
      StrBool(Attribute(e, "IsAccessory")), StrBool(Attribute(e, "IsPowerSupply")), StrBool(Attribute(e, "IsChoke")),
      StrBool(Attribute(e, "IsCoupler")), StrBool(Attribute(e, "IsPowerLineRepeater")),
      StrBool(Attribute(e, "IsPowerLineSignalFilter")), StrBool(Attribute(e, "IsCable")),
      StrBool(Attribute(e, "IsIPEnabled")), StrBool(Attribute(e, "HasApplicationProgram")),
      StrBool(Attribute(e, "HasApplicationProgram2")), StrBool(Attribute(e, "HasIndividualAddress")),
      StrBool(Attribute(e, "NoDownloadWithoutPlugin")));
    ProductFamily(ProductFamilyInfo(Attribute(e, "Id"), Attribute(e, "Name"), Attribute(e, "BusCurrent"),
      Attribute(e, "SerialNumber"), flags, Attribute(e, "OriginalManufacturer"), manufacturerRefID, None), [])
  }

  /** What identifies a family: its hardware id and the manufacturer it was stamped with. */
  function Identity(f: ProductFamily): (Attr, Attr)
  {
    (f.info.id, f.info.manufacturerRefID)
  }

  function Identities(t: seq<ProductFamily>): (r: seq<(Attr, Attr)>)
    ensures |r| == |t| && forall k :: 0 <= k < |t| ==> r[k] == Identity(t[k])
  {
    seq(|t|, k requires 0 <= k < |t| => Identity(t[k]))
  }

  /** The identities of the families a stretch of events opens, in document order. */
  function FamiliesOf(es: seq<Event>, start: Attr): seq<(Attr, Attr)>
  {
    if es == [] then []
    else
      var init := es[..|es| - 1];
      FamiliesOf(init, start)
        + if OpensFamily(Last(es)) then [(Attribute(Last(es).element, "Id"), ManufacturerAfter(init, start))] else []
  }

  /** Every table but the product lookup table is as it was. */
  predicate OnlyProductTableChanged(p: Project, q: Project) {
    && q.topology == p.topology && q.buildings == p.buildings && q.groupRanges == p.groupRanges
    && q.manufacturerLookupTable == p.manufacturerLookupTable && q.datapointLookupTable == p.datapointLookupTable
    && q.mediumTypeLookupTable == p.mediumTypeLookupTable && q.deviceApplicationLookupTable == p.deviceApplicationLookupTable
    && q.deviceMaskversionLookupTable == p.deviceMaskversionLookupTable
  }

  /** Completing the newest family leaves every family's identity as it was. */
  lemma WithLastKeepsIdentities(t: seq<ProductFamily>, f: ProductFamily)
    requires t != [] && Identity(f) == Identity(Last(t))
    ensures Identities(WithLast(t, f)) == Identities(t)
  {
  }

  /** The open tag is handled without an exception: a family to complete exists. */
  predicate Accepts(p: Project, tag: HardwareFileTag) {
    tag in {ProductTag, ApplicationProgramRefTag} ==> p.productLookupTable != []
  }

  /** The listener state of one file: the builder written into and the current manufacturer. */
  class HardwareListener {
    const builder: Builder
    var currentManufacturer: Attr

    constructor (b: Builder)
      ensures builder == b && currentManufacturer == None
    {
      builder := b;
      currentManufacturer := None;
    }

    /** The open-tag listener, given the element and its name as `Classify` reads it. */
    method OnOpenTag(tag: HardwareFileTag, e: Element) returns (ok: bool)
      modifies this`currentManufacturer, builder`project
      ensures currentManufacturer == if tag == ManufacturerTag then Attribute(e, "RefId") else old(currentManufacturer)
      ensures ok <==> Accepts(old(builder.project), tag)
      ensures !ok ==> builder.project == old(builder.project)
      ensures OnlyProductTableChanged(old(builder.project), builder.project)
      ensures tag == HardwareTag && e.attributes != map[] ==>
        builder.project.productLookupTable == old(builder.project.productLookupTable) + [FamilyEntry(e, old(currentManufacturer))]
      ensures tag != HardwareTag || e.attributes == map[] ==>
        Identities(builder.project.productLookupTable) == Identities(old(builder.project.productLookupTable))
      ensures ok && tag == ProductTag ==>
        var t := old(builder.project.productLookupTable);
        builder.project.productLookupTable == WithLast(t, Last(t).(products := Last(t).products + [Product(
          Attribute(e, "Id"), Attribute(e, "Text"), Attribute(e, "VisibleDescription"), Attribute(e, "OrderNumber"))]))
      ensures ok && tag == ApplicationProgramRefTag ==>
        var t := old(builder.project.productLookupTable);
        builder.project.productLookupTable ==
          WithLast(t, Last(t).(info := Last(t).info.(applicationProgramRefID := Attribute(e, "RefId"))))
      ensures tag in {ManufacturerTag, OtherTag} || (tag == HardwareTag && e.attributes == map[]) ==>
        builder.project == old(builder.project)
    {
      ok := true;
      var t := builder.project.productLookupTable;
      match tag
      case ManufacturerTag =>
        currentManufacturer := Attribute(e, "RefId");
      case HardwareTag =>
        if e.attributes != map[] {
          var f := FamilyEntry(e, currentManufacturer);
          builder.AddEntryToProductLookupTable(f.info.id, f.info.name, f.info.busCurrent, f.info.serialNumber,
            f.info.flags.isAccessory, f.info.flags.isPowerSupply, f.info.flags.isChoke, f.info.flags.isCoupler,
            f.info.flags.isPowerLineRepeater, f.info.flags.isPowerLineSignalFilter, f.info.flags.isCable,
            f.info.flags.isIPEnabled, f.info.flags.hasApplicationProgram1, f.info.flags.hasApplicationProgram2,
            f.info.flags.hasIndividualAddress, f.info.originalManufacturerRefID, currentManufacturer,
            f.info.flags.noDownloadWithoutPlugin);
        }
      case ProductTag =>
        ok := builder.AddProductToProductLookupTableEntry(Attribute(e, "Id"), Attribute(e, "Text"),
          Attribute(e, "VisibleDescription"), Attribute(e, "OrderNumber"));
        if ok {
          WithLastKeepsIdentities(t, Last(t).(products := Last(t).products + [Product(Attribute(e, "Id"),
            Attribute(e, "Text"), Attribute(e, "VisibleDescription"), Attribute(e, "OrderNumber"))]));
        }
      case ApplicationProgramRefTag =>
        ok := builder.AddApplicationProgramRefIDToProductLookupTable(Attribute(e, "RefId"));
        if ok {
          WithLastKeepsIdentities(t, Last(t).(info := Last(t).info.(applicationProgramRefID := Attribute(e, "RefId"))));
        }
      case OtherTag =>
    }
  }

  /**
   * One hardware file: every event goes to the listener in order; the pass returns
   * the stream's error, or stops at the first event whose handler throws. The
   * manufacturer starts undefined in each file.
   */
  method ParseHardwareInformationFile(b: Builder, doc: Document) returns (err: Option<PassError>)
    modifies b`project
    ensures err.None? ==> doc.outcome.Ended?
    ensures doc.outcome.Failed? ==> err.Some?
    ensures err.Some? && err.value.Reported? ==> doc.outcome == Failed(err.value.message)
    ensures err.Some? && err.value.HandlerThrew? ==>
      err.value.position < |doc.events| && doc.events[err.value.position].OpenTag?
      && Classify(doc.events[err.value.position].element.name) in {ProductTag, ApplicationProgramRefTag}
    ensures OnlyProductTableChanged(old(b.project), b.project)
    ensures var n := if err.Some? && err.value.HandlerThrew? then err.value.position else |doc.events|;
      n <= |doc.events| &&
      Identities(b.project.productLookupTable) == Identities(old(b.project.productLookupTable)) + FamiliesOf(doc.events[..n], None)
  {
    var listener := new HardwareListener(b);
    var es := doc.events;
    var i := 0;
    while i < |es|
      invariant 0 <= i <= |es|
      invariant listener.builder == b
      invariant listener.currentManufacturer == ManufacturerAfter(es[..i], None)
      invariant OnlyProductTableChanged(old(b.project), b.project)
      invariant Identities(b.project.productLookupTable) == Identities(old(b.project.productLookupTable)) + FamiliesOf(es[..i], None)
    {
      assert es[..i + 1][..i] == es[..i];
      assert Last(es[..i + 1]) == es[i];
      if es[i].OpenTag? {
        ClassifyNames(es[i].element.name);
        var tag := Classify(es[i].element.name);
        var before := b.project.productLookupTable;
        var ok := listener.OnOpenTag(tag, es[i].element);
        if !ok {
          return Some(HandlerThrew(i));
        }
        if OpensFamily(es[i]) {
          assert Identities(b.project.productLookupTable) == Identities(before) + [Identity(FamilyEntry(es[i].element, ManufacturerAfter(es[..i], None)))];
        }
      }
      i := i + 1;
    }
    assert es[..|es|] == es;
    if doc.outcome.Failed? {
      return Some(Reported(doc.outcome.message));
    }
    return None;
  }

  // ---------------------------------------------------------------------------
  // Properties of the families a file opens
  // ---------------------------------------------------------------------------

  /** A `Hardware` element without attributes opens nothing. */
  lemma EmptyHardwareSkipped(pre: seq<Event>, e: Element, start: Attr)
    requires e.name == "Hardware" && e.attributes == map[]
    ensures FamiliesOf(pre + [OpenTag(e)], start) == FamiliesOf(pre, start)
  {
    assert (pre + [OpenTag(e)])[..|pre|] == pre;
  }

  /** Without a `Manufacturer` element every family keeps the starting manufacturer. */
  lemma {:induction false} FamiliesWithoutManufacturer(es: seq<Event>, start: Attr)
    requires forall i :: 0 <= i < |es| ==> !OpensElement(es[i], "Manufacturer")
    ensures forall f :: f in FamiliesOf(es, start) ==> f.1 == start
    decreases |es|
  {
    if es != [] {
      var init := es[..|es| - 1];
      FamiliesWithoutManufacturer(init, start);
      LastAttributeSkips([], init, "Manufacturer", "RefId", start);
      assert [] + init == init;
    }
  }

  lemma {:induction false} FamiliesConcat(a: seq<Event>, b: seq<Event>, start: Attr)
    ensures FamiliesOf(a + b, start) == FamiliesOf(a, start) + FamiliesOf(b, ManufacturerAfter(a, start))
    decreases |b|
  {
    if b == [] {
      assert a + b == a;
    } else {
      var b' := b[..|b| - 1];
      assert (a + b)[..|a + b| - 1] == a + b';
      assert Last(a + b) == Last(b);
      FamiliesConcat(a, b', start);
      LastAttributeConcat(a, b', "Manufacturer", "RefId", start);
    }
  }

  /** Families opened after a `Manufacturer` element, with no other one between, carry its `RefId`. */
  lemma ManufacturerStampsFollowingFamilies(pre: seq<Event>, m: Element, rest: seq<Event>, start: Attr)
    requires m.name == "Manufacturer"
    requires forall i :: 0 <= i < |rest| ==> !OpensElement(rest[i], "Manufacturer")
    ensures var all := FamiliesOf(pre + [OpenTag(m)] + rest, start); var before := |FamiliesOf(pre, start)|;
      before <= |all| && forall k :: before <= k < |all| ==> all[k].1 == Attribute(m, "RefId")
  {
    FamiliesConcat(pre + [OpenTag(m)], rest, start);
    FamiliesConcat(pre, [OpenTag(m)], start);
    assert [OpenTag(m)][..0] == [];
    LastAttributeConcat(pre, [OpenTag(m)], "Manufacturer", "RefId", start);
    FamiliesWithoutManufacturer(rest, Attribute(m, "RefId"));
  }
}
