/**
 * The finished project as callers see it: on construction the topology's line and
 * device addresses are rewritten into dotted form, and the getters list lines,
 * devices, building parts, group addresses and products.
 */
module ParsedProject {
  import opened Wrappers
  import opened JsValues
  import opened Lists
  import opened Forest
  import opened ProjectModel

  // ---------------------------------------------------------------------------
  // Address normalisation
  // ---------------------------------------------------------------------------

  /**
   * A line address of one character is not yet qualified: it is prefixed with the
   * area address and a dot (an undefined area address reads as "undefined").
   */
  function NormalizeLineAddress(areaAddress: Attr, lineAddress: Attr): Attr
  {
    if Truthy(lineAddress) && |lineAddress.value| <= 1 then Some(JsString(areaAddress) + "." + lineAddress.value)
    else lineAddress
  }

  /** A device address of at most three characters is prefixed with the (rewritten) line address and a dot. */
  function NormalizeDeviceAddress(lineAddress: Attr, deviceAddress: Attr): Attr
  {
    if Truthy(deviceAddress) && |deviceAddress.value| <= 3 then Some(JsString(lineAddress) + "." + deviceAddress.value)
    else deviceAddress
  }

  function NormalizeDevices(lineAddress: Attr, devices: seq<Device>): seq<Device>
  {
    seq(|devices|, i requires 0 <= i < |devices| => devices[i].(address := NormalizeDeviceAddress(lineAddress, devices[i].address)))
  }

  function NormalizeLine(areaAddress: Attr, l: Line): Line
  {
    var address := NormalizeLineAddress(areaAddress, l.address);
    l.(address := address, devices := NormalizeDevices(address, l.devices))
  }

  function NormalizeArea(a: Area): Area
  {
    a.(lines := seq(|a.lines|, i requires 0 <= i < |a.lines| => NormalizeLine(a.address, a.lines[i])))
  }

  /**
   * `topologyResolveDeviceAddresses`: every area's lines, and every line's devices.
   * Only line and device addresses under the areas change: area fields, every other
   * line and device field, and the unassigned devices are untouched.
   */
  function NormalizeTopology(t: Topology): (r: Topology)
    ensures Skeleton(r) == Skeleton(t)
    ensures r.unassignedDevices == t.unassignedDevices && |r.areas| == |t.areas|
    ensures forall i :: 0 <= i < |t.areas| ==> r.areas[i].address == t.areas[i].address
  {
    var r := t.(areas := seq(|t.areas|, i requires 0 <= i < |t.areas| => NormalizeArea(t.areas[i])));
    assert Skeleton(r) == Skeleton(t) by {
      forall i | 0 <= i < |t.areas| ensures Skeleton(r).areas[i] == Skeleton(t).areas[i] {
        var a := t.areas[i];
        forall j | 0 <= j < |a.lines| ensures LineSkeleton(r.areas[i].lines[j]) == LineSkeleton(a.lines[j]) {
          var l := a.lines[j];
          var l' := r.areas[i].lines[j];
          assert LineSkeleton(l').devices == LineSkeleton(l).devices;
        }
      }
    }
    r
  }

  /** A line address after normalisation reads as at least two characters, unless it was the empty string. */
  lemma NormalizedLineAddressLength(areaAddress: Attr, lineAddress: Attr)
    requires lineAddress != Some("")
    ensures |JsString(NormalizeLineAddress(areaAddress, lineAddress))| >= 2
  {
    if Truthy(lineAddress) && |lineAddress.value| <= 1 {
      assert |JsString(areaAddress) + "." + lineAddress.value| == |JsString(areaAddress)| + 1 + |lineAddress.value|;
    }
  }

  /** A normalised line address is left alone by a second pass, whatever the area address. */
  lemma LineAddressStable(areaAddress: Attr, otherAreaAddress: Attr, lineAddress: Attr)
    ensures var once := NormalizeLineAddress(areaAddress, lineAddress);
      NormalizeLineAddress(otherAreaAddress, once) == once
  {
    var once := NormalizeLineAddress(areaAddress, lineAddress);
    if Truthy(lineAddress) && |lineAddress.value| <= 1 {
      assert |once.value| == |JsString(areaAddress)| + 1 + |lineAddress.value|;
    }
  }

  /** Under a line address of at least two characters, a normalised device address is left alone by a second pass. */
  lemma DeviceAddressStable(lineAddress: Attr, deviceAddress: Attr)
    requires |JsString(lineAddress)| >= 2
    ensures var once := NormalizeDeviceAddress(lineAddress, deviceAddress);
      NormalizeDeviceAddress(lineAddress, once) == once
  {
    var once := NormalizeDeviceAddress(lineAddress, deviceAddress);
    if Truthy(deviceAddress) && |deviceAddress.value| <= 3 {
      assert |once.value| == |JsString(lineAddress)| + 1 + |deviceAddress.value|;
    }
  }

  /** No line of the topology has the empty string as its address. */
  predicate NoEmptyLineAddress(t: Topology)
  {
    forall i, j :: 0 <= i < |t.areas| && 0 <= j < |t.areas[i].lines| ==> t.areas[i].lines[j].address != Some("")
  }

  lemma LineIdempotent(areaAddress: Attr, l: Line)
    requires l.address != Some("")
    ensures NormalizeLine(areaAddress, NormalizeLine(areaAddress, l)) == NormalizeLine(areaAddress, l)
  {
    var once := NormalizeLine(areaAddress, l);
    LineAddressStable(areaAddress, areaAddress, l.address);
    NormalizedLineAddressLength(areaAddress, l.address);
    forall k | 0 <= k < |once.devices|
      ensures NormalizeDeviceAddress(once.address, once.devices[k].address) == once.devices[k].address
    {
      DeviceAddressStable(once.address, l.devices[k].address);
    }
    assert NormalizeDevices(once.address, once.devices) == once.devices;
  }

  /**
   * Normalising a normalised topology changes nothing, provided no line address is
   * the empty string: a rewritten line address is at least two characters long, so
   * a rewritten device address is at least four.
   */
  lemma NormalizeIdempotent(t: Topology)
    requires NoEmptyLineAddress(t)
    ensures NormalizeTopology(NormalizeTopology(t)) == NormalizeTopology(t)
  {
    var once := NormalizeTopology(t);
    forall i | 0 <= i < |once.areas| ensures NormalizeArea(once.areas[i]) == once.areas[i] {
      var a := t.areas[i];
      forall j | 0 <= j < |a.lines| ensures NormalizeLine(a.address, once.areas[i].lines[j]) == once.areas[i].lines[j] {
        LineIdempotent(a.address, a.lines[j]);
      }
    }
  }

  /** An empty line address is the exception: a device under it gains one more dot on every pass. */
  lemma NormalizeNotIdempotentForEmptyLineAddress()
    ensures var d := NewDevice(None, None, None, None, Some("1"), None, false, false, false, false, false,
        None, None, None, None, false, NaN, NaN);
      var t := Topology([Area(None, None, Some("1"), [Line(None, None, Some(""), None, [d])])], []);
      && NormalizeTopology(t).areas[0].lines[0].devices[0].address == Some(".1")
      && NormalizeTopology(NormalizeTopology(t)).areas[0].lines[0].devices[0].address == Some("..1")
  {
    var d := NewDevice(None, None, None, None, Some("1"), None, false, false, false, false, false,
      None, None, None, None, false, NaN, NaN);
    var l := Line(None, None, Some(""), None, [d]);
    var a := Area(None, None, Some("1"), [l]);
    var t := Topology([a], []);
    assert JsString(Some("")) + "." + "1" == ".1";
    assert JsString(Some("")) + "." + ".1" == "..1";
    var l1 := NormalizeLine(Some("1"), l);
    assert l1.address == Some("");
    assert l1.devices[0].address == Some(".1");
    var l2 := NormalizeLine(Some("1"), l1);
    assert l2.devices[0].address == Some("..1");
    assert NormalizeTopology(t).areas[0].lines[0] == l1;
    assert NormalizeTopology(NormalizeTopology(t)).areas[0].lines[0] == l2;
  }

  /** Area "1" holding line "1" holding device "1": the line becomes "1.1" and the device "1.1.1", for good. */
  lemma NormalizeSingleDigitAddresses()
    ensures var d := NewDevice(None, None, None, None, Some("1"), None, false, false, false, false, false,
        None, None, None, None, false, NaN, NaN);
      var t := Topology([Area(None, None, Some("1"), [Line(None, None, Some("1"), None, [d])])], []);
      && NormalizeTopology(t).areas[0].lines[0].address == Some("1.1")
      && NormalizeTopology(t).areas[0].lines[0].devices[0].address == Some("1.1.1")
      && NormalizeTopology(NormalizeTopology(t)) == NormalizeTopology(t)
  {
    var d := NewDevice(None, None, None, None, Some("1"), None, false, false, false, false, false,
      None, None, None, None, false, NaN, NaN);
    var l := Line(None, None, Some("1"), None, [d]);
    var a := Area(None, None, Some("1"), [l]);
    var t := Topology([a], []);
    assert JsString(Some("1")) + "." + "1" == "1.1";
    assert JsString(Some("1.1")) + "." + "1" == "1.1.1";
    var l1 := NormalizeLine(Some("1"), l);
    assert l1.address == Some("1.1");
    assert l1.devices[0].address == Some("1.1.1");
    assert NormalizeTopology(t).areas[0].lines[0] == l1;
    assert NoEmptyLineAddress(t);
    NormalizeIdempotent(t);
  }

  // Everything but the line and device addresses

  function LineSkeleton(l: Line): Line
  {
    l.(address := None, devices := seq(|l.devices|, i requires 0 <= i < |l.devices| => l.devices[i].(address := None)))
  }

  /** The topology with every line and device address under the areas blanked out. */
  function Skeleton(t: Topology): Topology
  {
    t.(areas := seq(|t.areas|, i requires 0 <= i < |t.areas| =>
      t.areas[i].(lines := seq(|t.areas[i].lines|, j requires 0 <= j < |t.areas[i].lines| => LineSkeleton(t.areas[i].lines[j])))))
  }

  // ---------------------------------------------------------------------------
  // Flattened views
  // ---------------------------------------------------------------------------

  /** What `getBuildingParts` hands back: the nodes themselves, or copies without their sub-parts. */
  datatype BuildingPartList = Kept(nodes: seq<Tree<BuildingPart>>) | Stripped(parts: seq<BuildingPart>)

  /**
   * `getBuildingParts(keep)`: the top-level parts, then, for each in order, the
   * flattening of its sub-parts; without `keep` each entry loses its sub-parts.
   */
  function GetBuildingParts(buildings: seq<Tree<BuildingPart>>, keep: bool): (r: BuildingPartList)
    ensures r.Kept? <==> keep
    ensures keep ==> r.nodes == Flatten(buildings) && |r.nodes| == Size(buildings)
    ensures keep ==> multiset(r.nodes) == multiset(Preorder(buildings))
    ensures !keep ==> |r.parts| == Size(buildings) == |Flatten(buildings)|
    ensures !keep ==> forall i :: 0 <= i < |r.parts| ==> r.parts[i] == Flatten(buildings)[i].data
  {
    var nodes := Flatten(buildings);
    if keep then Kept(nodes) else Stripped(seq(|nodes|, i requires 0 <= i < |nodes| => nodes[i].data))
  }

  /** The group addresses a range holds itself. */
  function OwnAddresses(r: GroupRange): seq<GroupAddress>
  {
    r.groupAddresses
  }

  /**
   * `getGroupAddresses`: the group addresses of every range, those of its sub-ranges
   * first, then its own; every group address of every range appears exactly once.
   */
  function GetGroupAddresses(groupRanges: seq<Tree<GroupRange>>): (r: seq<GroupAddress>)
    ensures multiset(r) == multiset(ItemsOf(Preorder(groupRanges), OwnAddresses))
  {
    Collect(groupRanges, OwnAddresses)
  }

  /** A product together with its family's data (the family without its product list). */
  datatype ProductView = ProductView(product: Product, productFamilyInformation: ProductFamilyInfo)

  /** Every product of every family, family by family. */
  function Products(table: seq<ProductFamily>): seq<ProductView>
  {
    if table == [] then []
    else
      var e := Last(table);
      Products(table[..|table| - 1]) + seq(|e.products|, i requires 0 <= i < |e.products| => ProductView(e.products[i], e.info))
  }

  /** A product view is listed exactly when its product belongs to a family with that information. */
  lemma {:induction false} InProducts(table: seq<ProductFamily>, v: ProductView)
    ensures v in Products(table) <==>
      exists i :: 0 <= i < |table| && table[i].info == v.productFamilyInformation && v.product in table[i].products
  {
    if table != [] {
      var init := table[..|table| - 1];
      var e := Last(table);
      var own := seq(|e.products|, i requires 0 <= i < |e.products| => ProductView(e.products[i], e.info));
      InProducts(init, v);
      assert v in own <==> e.info == v.productFamilyInformation && v.product in e.products by {
        if v in own {
          var k :| 0 <= k < |own| && own[k] == v;
        }
        if e.info == v.productFamilyInformation && v.product in e.products {
          var k :| 0 <= k < |e.products| && e.products[k] == v.product;
          assert own[k] == v;
        }
      }
      if v in Products(table) {
        if v in Products(init) {
          var i :| 0 <= i < |init| && init[i].info == v.productFamilyInformation && v.product in init[i].products;
          assert table[i] == init[i];
        } else {
          assert table[|table| - 1] == e;
        }
      } else {
        forall i | 0 <= i < |table| ensures !(table[i].info == v.productFamilyInformation && v.product in table[i].products) {
          if i < |table| - 1 {
            assert table[i] == init[i];
          }
        }
      }
    }
  }

  /** A device is listed exactly when some line holds it. */
  lemma {:induction false} InDevicesOf(lines: seq<Line>, d: Device)
    ensures d in DevicesOf(lines) <==> exists i :: 0 <= i < |lines| && d in lines[i].devices
  {
    if lines != [] {
      var init := lines[..|lines| - 1];
      InDevicesOf(init, d);
      if d in DevicesOf(lines) {
        if d in DevicesOf(init) {
          var i :| 0 <= i < |init| && d in init[i].devices;
          assert lines[i] == init[i];
        } else {
          assert d in lines[|lines| - 1].devices;
        }
      } else {
        forall i | 0 <= i < |lines| ensures d !in lines[i].devices {
          if i < |lines| - 1 {
            assert lines[i] == init[i];
          }
        }
      }
    }
  }

  // ---------------------------------------------------------------------------
  // The document
  // ---------------------------------------------------------------------------

  class Document {
    var project: Project

    /** Takes over a built project and normalises its addresses. */
    constructor (p: Project)
      ensures project == p.(topology := NormalizeTopology(p.topology))
    {
      project := p;
      new;
      ResolveDeviceAddresses();
    }

    /** `topologyResolveDeviceAddresses`: the nested loops over areas, lines and devices. */
    method ResolveDeviceAddresses()
      modifies this`project
      ensures project == old(project).(topology := NormalizeTopology(old(project.topology)))
    {
      var source := project.topology.areas;
      var areas := source;
      var i := 0;
      while i < |areas|
        invariant 0 <= i <= |areas| == |source|
        invariant forall k :: 0 <= k < i ==> areas[k] == NormalizeArea(source[k])
        invariant forall k :: i <= k < |areas| ==> areas[k] == source[k]
      {
        var a := areas[i];
        var lines := a.lines;
        var j := 0;
        while j < |lines|
          invariant 0 <= j <= |lines| == |a.lines|
          invariant forall k :: 0 <= k < j ==> lines[k] == NormalizeLine(a.address, a.lines[k])
          invariant forall k :: j <= k < |lines| ==> lines[k] == a.lines[k]
        {
          var l := lines[j];
          if Truthy(l.address) && |l.address.value| <= 1 {
            l := l.(address := Some(JsString(a.address) + "." + l.address.value));
          }
          var devices := l.devices;
          var k := 0;
          while k < |devices|
            invariant 0 <= k <= |devices| == |l.devices|
            invariant forall m :: 0 <= m < k ==>
              devices[m] == l.devices[m].(address := NormalizeDeviceAddress(l.address, l.devices[m].address))
            invariant forall m :: k <= m < |devices| ==> devices[m] == l.devices[m]
          {
            var d := devices[k];
            if Truthy(d.address) && |d.address.value| <= 3 {
              d := d.(address := Some(JsString(l.address) + "." + d.address.value));
            }
            devices := devices[k := d];
            k := k + 1;
          }
          assert devices == NormalizeDevices(l.address, l.devices);
          lines := lines[j := l.(devices := devices)];
          j := j + 1;
        }
        assert lines == NormalizeArea(a).lines;
        areas := areas[i := a.(lines := lines)];
        i := i + 1;
      }
      project := project.(topology := project.topology.(areas := areas));
    }

    /** `getLines`: every area's lines, area by area. */
    method GetLines() returns (lines: seq<Line>)
      ensures lines == Lines(project.topology.areas)
    {
      var areas := project.topology.areas;
      lines := [];
      var i := 0;
      while i < |areas|
        invariant 0 <= i <= |areas|
        invariant lines == Lines(areas[..i])
      {
        assert areas[..i + 1][..i] == areas[..i];
        lines := lines + areas[i].lines;
        i := i + 1;
      }
      assert areas[..|areas|] == areas;
    }

    /** `getDevices`: every line's devices, line by line; the unassigned devices are not among them. */
    method GetDevices() returns (devices: seq<Device>)
      ensures devices == Devices(project.topology)
    {
      var lines := GetLines();
      devices := [];
      var i := 0;
      while i < |lines|
        invariant 0 <= i <= |lines|
        invariant devices == DevicesOf(lines[..i])
      {
        assert lines[..i + 1][..i] == lines[..i];
        devices := devices + lines[i].devices;
        i := i + 1;
      }
      assert lines[..|lines|] == lines;
    }

    /** `getProducts`: each product of each family, paired with its family's data. */
    method GetProducts() returns (products: seq<ProductView>)
      ensures products == Products(project.productLookupTable)
    {
      var table := project.productLookupTable;
      products := [];
      var i := 0;
      while i < |table|
        invariant 0 <= i <= |table|
        invariant products == Products(table[..i])
      {
        var e := table[i];
        var own := seq(|e.products|, k requires 0 <= k < |e.products| => ProductView(e.products[k], e.info));
        var j := 0;
        while j < |e.products|
          invariant 0 <= j <= |e.products|
          invariant products == Products(table[..i]) + own[..j]
        {
          assert own[..j + 1] == own[..j] + [ProductView(e.products[j], e.info)];
          products := products + [ProductView(e.products[j], e.info)];
          j := j + 1;
        }
        assert table[..i + 1][..i] == table[..i];
        assert own[..|e.products|] == own;
        i := i + 1;
      }
      assert table[..|table|] == table;
    }
  }
}
