/**
 * The pass over the application-information files (`M-XXXX/M-XXXX_A-*.xml`):
 * every `ApplicationProgram` element becomes an entry of the application lookup
 * table, stamped with the `RefId` of the last `Manufacturer` element read in the
 * same file.
 */
module ApplicationInformationParser {
  import opened Wrappers
  import opened JsValues
  import opened Lists
  import opened Sax
  import opened ProjectModel
  import opened ProjectStructure

  /** The elements of an application file the listener handles; every other name is `OtherTag`. */
  datatype ApplicationTag = ManufacturerTag | ApplicationProgramTag | OtherTag

  /** The `switch (element.name)` of the open-tag listener. */
  function Classify(name: string): ApplicationTag
  {
    if name == "Manufacturer" then ManufacturerTag
    else if name == "ApplicationProgram" then ApplicationProgramTag
    else OtherTag
  }

  /** The listener's `manufacturerRefID` after a stretch of events, starting from `start`. */
  function ManufacturerAfter(es: seq<Event>, start: Attr): Attr
  {
    LastAttribute(es, "Manufacturer", "RefId", start)
  }

  /** The entry an `ApplicationProgram` element makes under the given manufacturer. */
  function ProgramEntry(e: Element, manufacturerRefID: Attr): (r: ApplicationProgram)
    ensures r.id == Attribute(e, "Id") && r.manufacturerRefID == manufacturerRefID
    ensures r.number == ParseInt(Attribute(e, "ApplicationNumber"))
  {
    ApplicationProgram(Attribute(e, "Id"), Attribute(e, "Name"), ParseInt(Attribute(e, "ApplicationNumber")),
      Attribute(e, "ApplicationVersion"), Attribute(e, "ProgramType"), Attribute(e, "MaskVersion"), manufacturerRefID)
  }

  /** The entries a stretch of events adds, in document order. */
  function ProgramsOf(es: seq<Event>, start: Attr): seq<ApplicationProgram>
  {
    if es == [] then []
    else
      var init := es[..|es| - 1];
      ProgramsOf(init, start)
        + if OpensElement(Last(es), "ApplicationProgram") then [ProgramEntry(Last(es).element, ManufacturerAfter(init, start))] else []
  }

  /** Every table but the application lookup table is as it was. */
  predicate OnlyApplicationTableChanged(p: Project, q: Project) {
    && q.topology == p.topology && q.buildings == p.buildings && q.groupRanges == p.groupRanges
    && q.productLookupTable == p.productLookupTable && q.manufacturerLookupTable == p.manufacturerLookupTable
    && q.datapointLookupTable == p.datapointLookupTable && q.mediumTypeLookupTable == p.mediumTypeLookupTable
    && q.deviceMaskversionLookupTable == p.deviceMaskversionLookupTable
  }

  /** The listener state of one file: the builder written into and the current manufacturer. */
  class ApplicationListener {
    const builder: Builder
    var manufacturerRefID: Attr

    constructor (b: Builder)
      ensures builder == b && manufacturerRefID == None
    {
      builder := b;
      manufacturerRefID := None;
    }

    /** The open-tag listener, given the element and its name as `Classify` reads it. */
    method OnOpenTag(tag: ApplicationTag, e: Element)
      modifies this`manufacturerRefID, builder`project
      ensures manufacturerRefID == if tag == ManufacturerTag then Attribute(e, "RefId") else old(manufacturerRefID)
      ensures OnlyApplicationTableChanged(old(builder.project), builder.project)
      ensures builder.project.deviceApplicationLookupTable == old(builder.project.deviceApplicationLookupTable)
        + if tag == ApplicationProgramTag then [ProgramEntry(e, old(manufacturerRefID))] else []
    {
      match tag
      case ManufacturerTag =>
        manufacturerRefID := Attribute(e, "RefId");
      case ApplicationProgramTag =>
        builder.AddEntryToApplicationProgramLookupTable(Attribute(e, "Id"), Attribute(e, "Name"),
          ParseInt(Attribute(e, "ApplicationNumber")), Attribute(e, "ApplicationVersion"), Attribute(e, "ProgramType"),
          Attribute(e, "MaskVersion"), manufacturerRefID);
      case OtherTag =>
    }
  }

  /** The names "Manufacturer" and "ApplicationProgram", and only they, select their handlers. */
  lemma ClassifyNames(name: string)
    ensures Classify(name) == ManufacturerTag <==> name == "Manufacturer"
    ensures Classify(name) == ApplicationProgramTag <==> name == "ApplicationProgram"
  {
  }

  /** Hands one event to the listener: open tags go to the open-tag handler, close tags are ignored. */
  method Feed(listener: ApplicationListener, ev: Event)
    modifies listener`manufacturerRefID, listener.builder`project
    ensures listener.manufacturerRefID ==
      if OpensElement(ev, "Manufacturer") then Attribute(ev.element, "RefId") else old(listener.manufacturerRefID)
    ensures OnlyApplicationTableChanged(old(listener.builder.project), listener.builder.project)
    ensures listener.builder.project.deviceApplicationLookupTable == old(listener.builder.project.deviceApplicationLookupTable)
      + if OpensElement(ev, "ApplicationProgram") then [ProgramEntry(ev.element, old(listener.manufacturerRefID))] else []
  {
    if ev.OpenTag? {
      ClassifyNames(ev.element.name);
      listener.OnOpenTag(Classify(ev.element.name), ev.element);
    }
  }

  /**
   * One application file: every event goes to the listener in order, and the pass
   * returns the stream's error, if any. The manufacturer starts undefined in each file.
   */
  method ParseApplicationInformationFile(b: Builder, doc: Document) returns (err: Option<PassError>)
    modifies b`project
    ensures err.None? <==> doc.outcome.Ended?
    ensures err.Some? ==> err.value == Reported(doc.outcome.message)
    ensures OnlyApplicationTableChanged(old(b.project), b.project)
    ensures b.project.deviceApplicationLookupTable == old(b.project.deviceApplicationLookupTable) + ProgramsOf(doc.events, None)
  {
    var listener := new ApplicationListener(b);
    var es := doc.events;
    var i := 0;
    while i < |es|
      invariant 0 <= i <= |es|
      invariant listener.builder == b
      invariant listener.manufacturerRefID == ManufacturerAfter(es[..i], None)
      invariant OnlyApplicationTableChanged(old(b.project), b.project)
      invariant b.project.deviceApplicationLookupTable == old(b.project.deviceApplicationLookupTable) + ProgramsOf(es[..i], None)
    {
      ReadOneMore(es, i, None);
      Feed(listener, es[i]);
      i := i + 1;
    }
    assert es[..|es|] == es;
    if doc.outcome.Failed? {
      return Some(Reported(doc.outcome.message));
    }
    return None;
  }

  /** Reading one more event: the entry it adds, if any, and the manufacturer it leaves. */
  lemma ReadOneMore(es: seq<Event>, i: nat, start: Attr)
    requires i < |es|
    ensures ProgramsOf(es[..i + 1], start) == ProgramsOf(es[..i], start)
      + if OpensElement(es[i], "ApplicationProgram") then [ProgramEntry(es[i].element, ManufacturerAfter(es[..i], start))] else []
    ensures ManufacturerAfter(es[..i + 1], start) ==
      if OpensElement(es[i], "Manufacturer") then Attribute(es[i].element, "RefId") else ManufacturerAfter(es[..i], start)
  {
    assert es[..i + 1][..i] == es[..i];
    assert Last(es[..i + 1]) == es[i];
  }

  /** One event appended to a stretch: the entry it adds, if any. */
  lemma ProgramsSnoc(init: seq<Event>, ev: Event, start: Attr)
    ensures ProgramsOf(init + [ev], start) == ProgramsOf(init, start)
      + if OpensElement(ev, "ApplicationProgram") then [ProgramEntry(ev.element, ManufacturerAfter(init, start))] else []
  {
    assert (init + [ev])[..|init|] == init;
  }

  // ---------------------------------------------------------------------------
  // Properties of the entries a file adds
  // ---------------------------------------------------------------------------

  /** One entry per `ApplicationProgram` element. */
  lemma {:induction false} ProgramsCount(es: seq<Event>, start: Attr)
    ensures |ProgramsOf(es, start)| == Opens(es, "ApplicationProgram")
    decreases |es|
  {
    if es != [] {
      ProgramsCount(es[..|es| - 1], start);
    }
  }

  /** Reading two stretches in a row: the second starts from the manufacturer the first left. */
  lemma {:induction false} ProgramsConcat(a: seq<Event>, b: seq<Event>, start: Attr)
    ensures ProgramsOf(a + b, start) == ProgramsOf(a, start) + ProgramsOf(b, ManufacturerAfter(a, start))
    decreases |b|
  {
    if b == [] {
      assert a + b == a;
    } else {
      var b', ev := b[..|b| - 1], Last(b);
      assert b == b' + [ev];
      assert a + b == (a + b') + [ev];
      ProgramsSnoc(a + b', ev, start);
      ProgramsSnoc(b', ev, ManufacturerAfter(a, start));
      ProgramsConcat(a, b', start);
      LastAttributeConcat(a, b', "Manufacturer", "RefId", start);
    }
  }

  /** Without a `Manufacturer` element every entry keeps the starting manufacturer. */
  lemma {:induction false} ProgramsWithoutManufacturer(es: seq<Event>, start: Attr)
    requires forall i :: 0 <= i < |es| ==> !OpensElement(es[i], "Manufacturer")
    ensures forall p :: p in ProgramsOf(es, start) ==> p.manufacturerRefID == start
    decreases |es|
  {
    if es != [] {
      var init := es[..|es| - 1];
      ProgramsWithoutManufacturer(init, start);
      LastAttributeSkips([], init, "Manufacturer", "RefId", start);
      assert [] + init == init;
    }
  }

  /** A file that opens with one `Manufacturer` element stamps its `RefId` on every program. */
  lemma SingleManufacturerFile(m: Element, rest: seq<Event>)
    requires m.name == "Manufacturer"
    requires forall i :: 0 <= i < |rest| ==> !OpensElement(rest[i], "Manufacturer")
    ensures forall p :: p in ProgramsOf([OpenTag(m)] + rest, None) ==> p.manufacturerRefID == Attribute(m, "RefId")
    ensures |ProgramsOf([OpenTag(m)] + rest, None)| == Opens(rest, "ApplicationProgram")
  {
    ProgramsConcat([OpenTag(m)], rest, None);
    assert [OpenTag(m)][..0] == [];
    assert ManufacturerAfter([OpenTag(m)], None) == Attribute(m, "RefId");
    ProgramsWithoutManufacturer(rest, Attribute(m, "RefId"));
    ProgramsCount(rest, Attribute(m, "RefId"));
  }
}
