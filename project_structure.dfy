/**
 * The project builder: one object holding the project under construction and
 * the three pieces of cursor state the element handlers drive (the building
 * depth, the group-range depth and whether devices being read are assigned to a
 * line). Every adder appends to, or overwrites a field of, the "current" element:
 * the last element of some list, or the node a depth counter resolves to.
 *
 * Where the source dereferences a missing current element (`_.last` of an empty
 * list, or a walk that runs out of children) it throws a TypeError and changes
 * nothing; here the adder returns `ok == false` and leaves the state as it was.
 */
module ProjectStructure {
  import opened Wrappers
  import opened JsValues
  import opened Lists
  import opened Forest
  import opened ProjectModel

  // ---------------------------------------------------------------------------
  // The pass-through flag of group ranges
  // ---------------------------------------------------------------------------

  /**
   * `getCurrentGroupRange(false).passTroughLineCoupler`: the current range's flag;
   * the root list itself has no such property (undefined, so falsy).
   */
  function ParentPassThrough(t: Target<GroupRange>): bool
  {
    t.At? && t.node.data.passThroughLineCoupler
  }

  /** Every group address of the range carries the range's pass-through flag. */
  predicate AddressesAgree(r: GroupRange) {
    forall i :: 0 <= i < |r.groupAddresses| ==>
      r.groupAddresses[i].passThroughLineCoupler == r.passThroughLineCoupler
  }

  /**
   * Under a parent whose flag is `parent`, the node passes through if the parent
   * does, its addresses agree with it, and the same holds all the way down.
   */
  ghost predicate NodeInherits(t: Tree<GroupRange>, parent: bool)
    decreases t, 1
  {
    && (parent ==> t.data.passThroughLineCoupler)
    && AddressesAgree(t.data)
    && FlagsInherited(t.children, t.data.passThroughLineCoupler)
  }

  /** The pass-through flag is inherited downwards through the whole forest. */
  ghost predicate FlagsInherited(f: seq<Tree<GroupRange>>, parent: bool)
    decreases f, 0
  {
    forall i :: 0 <= i < |f| ==> NodeInherits(f[i], parent)
  }

  lemma {:induction false} BelowInherits(t: Tree<GroupRange>, n: nat, parent: bool)
    requires NodeInherits(t, parent) && Below(t, n).At?
    ensures AddressesAgree(Below(t, n).node.data)
    ensures FlagsInherited(Below(t, n).node.children, Below(t, n).node.data.passThroughLineCoupler)
  {
    if n > 0 {
      assert NodeInherits(t.children[|t.children| - 1], t.data.passThroughLineCoupler);
      BelowInherits(Last(t.children), n - 1, t.data.passThroughLineCoupler);
    }
  }

  lemma {:induction false} ReplaceBelowInherits(t: Tree<GroupRange>, n: nat, x: Tree<GroupRange>, parent: bool)
    requires NodeInherits(t, parent) && Below(t, n).At?
    requires x.data.passThroughLineCoupler == Below(t, n).node.data.passThroughLineCoupler
    requires AddressesAgree(x.data) && FlagsInherited(x.children, x.data.passThroughLineCoupler)
    ensures NodeInherits(ReplaceBelow(t, n, x), parent)
  {
    if n > 0 {
      var c := t.children;
      var p := t.data.passThroughLineCoupler;
      assert NodeInherits(c[|c| - 1], p);
      ReplaceBelowInherits(Last(c), n - 1, x, p);
      var c' := WithLast(c, ReplaceBelow(Last(c), n - 1, x));
      forall i | 0 <= i < |c'| ensures NodeInherits(c'[i], p) {
        if i < |c| - 1 {
          assert c'[i] == c[i];
        }
      }
    }
  }

  /**
   * Replacing the current group range by one with the same flag, agreeing
   * addresses and inheriting children keeps the flags inherited.
   */
  lemma ReplaceCurrentInherits(f: seq<Tree<GroupRange>>, depth: int, y: Tree<GroupRange>)
    requires FlagsInherited(f, false) && Resolve(f, depth).At?
    requires y.data.passThroughLineCoupler == Resolve(f, depth).node.data.passThroughLineCoupler
    requires AddressesAgree(y.data) && FlagsInherited(y.children, y.data.passThroughLineCoupler)
    ensures FlagsInherited(ReplaceCurrent(f, depth, y), false)
  {
    assert NodeInherits(f[|f| - 1], false);
    ReplaceBelowInherits(Last(f), Steps(depth), y, false);
    var g := ReplaceCurrent(f, depth, y);
    forall i | 0 <= i < |g| ensures NodeInherits(g[i], false) {
      if i < |f| - 1 {
        assert g[i] == f[i];
      }
    }
  }

  /** The flag of the range `addGroupRangeToGroupRange` creates: its own, or its parent's when that is set. */
  function NewRangeFlag(f: seq<Tree<GroupRange>>, depth: int, passThroughLineCoupler: bool): bool
  {
    passThroughLineCoupler || ParentPassThrough(Resolve(f, depth))
  }

  /** Adding a group range as the builder does keeps the flags inherited. */
  lemma AppendRangeInherits(f: seq<Tree<GroupRange>>, depth: int, r: GroupRange)
    requires FlagsInherited(f, false) && !Resolve(f, depth).Undefined?
    requires r.groupAddresses == []
    requires ParentPassThrough(Resolve(f, depth)) ==> r.passThroughLineCoupler
    ensures FlagsInherited(AppendAt(f, depth, Tree(r, [])), false)
  {
    var x := Tree(r, []);
    assert NodeInherits(x, false);
    if f == [] {
      assert AppendAt(f, depth, x) == [x];
    } else {
      var cur := Resolve(f, depth).node;
      assert NodeInherits(f[|f| - 1], false);
      BelowInherits(Last(f), Steps(depth), false);
      var y := cur.(children := cur.children + [x]);
      assert NodeInherits(x, cur.data.passThroughLineCoupler);
      forall i | 0 <= i < |y.children| ensures NodeInherits(y.children[i], cur.data.passThroughLineCoupler) {
        if i < |cur.children| {
          assert y.children[i] == cur.children[i];
        }
      }
      ReplaceCurrentInherits(f, depth, y);
    }
  }

  /** Adding a group address that carries the current range's flag keeps the flags inherited. */
  lemma AppendAddressInherits(f: seq<Tree<GroupRange>>, depth: int, a: GroupAddress)
    requires FlagsInherited(f, false) && Resolve(f, depth).At?
    requires a.passThroughLineCoupler == Resolve(f, depth).node.data.passThroughLineCoupler
    ensures var cur := Resolve(f, depth).node;
      FlagsInherited(ReplaceCurrent(f, depth, cur.(data := cur.data.(groupAddresses := cur.data.groupAddresses + [a]))), false)
  {
    var cur := Resolve(f, depth).node;
    assert NodeInherits(f[|f| - 1], false);
    BelowInherits(Last(f), Steps(depth), false);
    var y := cur.(data := cur.data.(groupAddresses := cur.data.groupAddresses + [a]));
    assert AddressesAgree(y.data) by {
      forall i | 0 <= i < |y.data.groupAddresses|
        ensures y.data.groupAddresses[i].passThroughLineCoupler == y.data.passThroughLineCoupler
      {
        if i < |cur.data.groupAddresses| {
          assert y.data.groupAddresses[i] == cur.data.groupAddresses[i];
        }
      }
    }
    ReplaceCurrentInherits(f, depth, y);
  }

  /** The pass-through flag of a range, the key no builder operation rewrites. */
  function RangeFlag(r: GroupRange): bool { r.passThroughLineCoupler }

  /** Pushing a range leaves the flag of every existing range where it was. */
  lemma AddRangeKeepsFlags(f: seq<Tree<GroupRange>>, depth: int, r: GroupRange)
    requires !Resolve(f, depth).Undefined?
    ensures Keeps(f, AppendAt(f, depth, Tree(r, [])), RangeFlag)
  {
    KeepsAppendAt(f, depth, Tree(r, []), RangeFlag);
  }

  /** Adding an address to the current range leaves the flag of every range where it was. */
  lemma AddAddressKeepsFlags(f: seq<Tree<GroupRange>>, depth: int, a: GroupAddress)
    requires Resolve(f, depth).At?
    ensures var cur := Resolve(f, depth).node;
      Keeps(f, ReplaceCurrent(f, depth, cur.(data := cur.data.(groupAddresses := cur.data.groupAddresses + [a]))), RangeFlag)
  {
    var cur := Resolve(f, depth).node;
    KeepsReflexive(cur.children, RangeFlag);
    KeepsReplaceCurrent(f, depth, cur.(data := cur.data.(groupAddresses := cur.data.groupAddresses + [a])), RangeFlag);
  }

  // ---------------------------------------------------------------------------
  // The builder
  // ---------------------------------------------------------------------------

  class Builder {
    var project: Project
    /** How many last-child steps below the last building lead to the current building part. */
    var currentBuildingDepth: int
    /** How many last-child steps below the last top-level range lead to the current group range. */
    var currentGroupRangeDepth: int
    /** Whether devices being read go to the current line (true) or to the unassigned devices. */
    var comingDevicesAssigned: bool

    /** The group-range forest inherits pass-through flags downwards. */
    ghost predicate Valid()
      reads this
    {
      FlagsInherited(project.groupRanges, false)
    }

    constructor ()
      ensures project == EmptyProject()
      ensures currentBuildingDepth == -1 && currentGroupRangeDepth == -1
      ensures comingDevicesAssigned
      ensures Valid()
    {
      project := EmptyProject();
      currentBuildingDepth := -1;
      currentGroupRangeDepth := -1;
      comingDevicesAssigned := true;
    }

    // -------------------------------------------------------------------------
    // Topology
    // -------------------------------------------------------------------------

    method AddAreaToTopology(id: Attr, name: Attr, address: Attr)
      modifies this`project
      ensures var t := old(project.topology);
        project == old(project).(topology := t.(areas := t.areas + [Area(id, name, address, [])]))
    {
      var t := project.topology;
      project := project.(topology := t.(areas := t.areas + [Area(id, name, address, [])]));
    }

    method AddLineToArea(id: Attr, name: Attr, address: Attr, mediumTypeRefID: Attr) returns (ok: bool)
      modifies this`project
      ensures ok <==> old(project.topology.areas) != []
      ensures ok ==> var t := old(project.topology); var a := Last(t.areas);
        project == old(project).(topology := t.(areas := WithLast(t.areas,
          a.(lines := a.lines + [Line(id, name, address, mediumTypeRefID, [])]))))
      ensures !ok ==> project == old(project)
    {
      var t := project.topology;
      if t.areas == [] {
        return false;
      }
      var a := Last(t.areas);
      project := project.(topology := t.(areas := WithLast(t.areas,
        a.(lines := a.lines + [Line(id, name, address, mediumTypeRefID, [])]))));
      return true;
    }

    method UnassignedDevicesStart()
      modifies this`comingDevicesAssigned
      ensures !comingDevicesAssigned
    {
      comingDevicesAssigned := false;
    }

    method UnassignedDevicesStop()
      modifies this`comingDevicesAssigned
      ensures comingDevicesAssigned
    {
      comingDevicesAssigned := true;
    }

    /** Adds a device to the current line, or to the unassigned devices while those are being read. */
    method AddDeviceToLine(
      id: Attr, name: Attr, description: Attr, comment: Attr, address: Attr, serialNumber: Attr,
      applicationProgramLoaded: bool, communicationPartLoaded: bool, individualAddressLoaded: bool,
      parametersLoaded: bool, mediumConfigLoaded: bool, lastModified: Attr, lastDownload: Attr,
      productRefID: Attr, hardware2ProgramRefID: Attr, isComObjectVisibilityCalculated: bool,
      lastUsedAPDULength: Number, maxReadAPDULength: Number) returns (ok: bool)
      modifies this`project
      ensures ok <==> !comingDevicesAssigned || HasLastLine(old(project.topology))
      ensures ok ==> var t := old(project.topology);
        var d := NewDevice(id, name, description, comment, address, serialNumber,
          applicationProgramLoaded, communicationPartLoaded, individualAddressLoaded, parametersLoaded,
          mediumConfigLoaded, lastModified, lastDownload, productRefID, hardware2ProgramRefID,
          isComObjectVisibilityCalculated, lastUsedAPDULength, maxReadAPDULength);
        project == old(project).(topology :=
          if comingDevicesAssigned then WithLastLine(t, LastLine(t).(devices := LastLine(t).devices + [d]))
          else t.(unassignedDevices := t.unassignedDevices + [d]))
      ensures !ok ==> project == old(project)
    {
      var t := project.topology;
      var d := NewDevice(id, name, description, comment, address, serialNumber,
        applicationProgramLoaded, communicationPartLoaded, individualAddressLoaded, parametersLoaded,
        mediumConfigLoaded, lastModified, lastDownload, productRefID, hardware2ProgramRefID,
        isComObjectVisibilityCalculated, lastUsedAPDULength, maxReadAPDULength);
      if comingDevicesAssigned {
        if !HasLastLine(t) {
          return false;
        }
        var l := LastLine(t);
        project := project.(topology := WithLastLine(t, l.(devices := l.devices + [d])));
      } else {
        project := project.(topology := t.(unassignedDevices := t.unassignedDevices + [d]));
      }
      return true;
    }

    /**
     * Overwrites the security record of the current device: always the last device
     * of the last line, even while unassigned devices are being read.
     */
    method AddSecurityToDevice(sequenceNumber: Number, sequenceNumberTimestamp: Attr) returns (ok: bool)
      modifies this`project
      ensures ok <==> HasLastDevice(old(project.topology))
      ensures ok ==> var t := old(project.topology);
        project == old(project).(topology := WithLastDevice(t,
          LastDevice(t).(security := Security(sequenceNumber, sequenceNumberTimestamp))))
      ensures !ok ==> project == old(project)
    {
      var t := project.topology;
      if !HasLastDevice(t) {
        return false;
      }
      project := project.(topology := WithLastDevice(t,
        LastDevice(t).(security := Security(sequenceNumber, sequenceNumberTimestamp))));
      return true;
    }

    method AddParameterReferenceToDevice(parameterRefID: Attr, parameterValue: Attr) returns (ok: bool)
      modifies this`project
      ensures ok <==> HasLastDevice(old(project.topology))
      ensures ok ==> var t := old(project.topology); var d := LastDevice(t);
        project == old(project).(topology := WithLastDevice(t,
          d.(parameterReferences := d.parameterReferences + [ParameterReference(parameterRefID, parameterValue)])))
      ensures !ok ==> project == old(project)
    {
      var t := project.topology;
      if !HasLastDevice(t) {
        return false;
      }
      var d := LastDevice(t);
      project := project.(topology := WithLastDevice(t,
        d.(parameterReferences := d.parameterReferences + [ParameterReference(parameterRefID, parameterValue)])));
      return true;
    }

    method AddCommunicationReferenceToDevice(
      text: Attr, description: Attr, comObjectRefID: Attr, datapointType: Attr,
      readFlag: bool, transmitFlag: bool, updateFlag: bool, writeFlag: bool,
      priority: Attr, isActive: bool, channelID: Attr) returns (ok: bool)
      modifies this`project
      ensures ok <==> HasLastDevice(old(project.topology))
      ensures ok ==> var t := old(project.topology); var d := LastDevice(t);
        var c := ComObjectReference(comObjectRefID, text, description, datapointType,
          readFlag, transmitFlag, updateFlag, writeFlag, priority, isActive, channelID, []);
        project == old(project).(topology := WithLastDevice(t,
          d.(comObjectReferences := d.comObjectReferences + [c])))
      ensures !ok ==> project == old(project)
    {
      var t := project.topology;
      if !HasLastDevice(t) {
        return false;
      }
      var d := LastDevice(t);
      var c := ComObjectReference(comObjectRefID, text, description, datapointType,
        readFlag, transmitFlag, updateFlag, writeFlag, priority, isActive, channelID, []);
      project := project.(topology := WithLastDevice(t, d.(comObjectReferences := d.comObjectReferences + [c])));
      return true;
    }

    method AddConnectorToCommunicationReference() returns (ok: bool)
      modifies this`project
      ensures ok <==> HasLastDevice(old(project.topology)) && LastDevice(old(project.topology)).comObjectReferences != []
      ensures ok ==> var t := old(project.topology); var d := LastDevice(t); var c := Last(d.comObjectReferences);
        project == old(project).(topology := WithLastDevice(t,
          d.(comObjectReferences := WithLast(d.comObjectReferences, c.(connectors := c.connectors + [Connector([], [])])))))
      ensures !ok ==> project == old(project)
    {
      var t := project.topology;
      if !HasLastDevice(t) || LastDevice(t).comObjectReferences == [] {
        return false;
      }
      var d := LastDevice(t);
      var c := Last(d.comObjectReferences);
      project := project.(topology := WithLastDevice(t,
        d.(comObjectReferences := WithLast(d.comObjectReferences, c.(connectors := c.connectors + [Connector([], [])])))));
      return true;
    }

    method AddSendToConnector(groupAddressRefID: Attr) returns (ok: bool)
      modifies this`project
      ensures ok <==> HasLastDevice(old(project.topology)) && HasLastConnector(LastDevice(old(project.topology)))
      ensures ok ==> var t := old(project.topology); var d := LastDevice(t);
        var k := Last(Last(d.comObjectReferences).connectors);
        project == old(project).(topology := WithLastDevice(t, WithLastConnector(d, k.(send := k.send + [groupAddressRefID]))))
      ensures !ok ==> project == old(project)
    {
      var t := project.topology;
      if !HasLastDevice(t) || !HasLastConnector(LastDevice(t)) {
        return false;
      }
      var d := LastDevice(t);
      var k := Last(Last(d.comObjectReferences).connectors);
      project := project.(topology := WithLastDevice(t, WithLastConnector(d, k.(send := k.send + [groupAddressRefID]))));
      return true;
    }

    method AddReceiveToConnector(groupAddressRefID: Attr) returns (ok: bool)
      modifies this`project
      ensures ok <==> HasLastDevice(old(project.topology)) && HasLastConnector(LastDevice(old(project.topology)))
      ensures ok ==> var t := old(project.topology); var d := LastDevice(t);
        var k := Last(Last(d.comObjectReferences).connectors);
        project == old(project).(topology := WithLastDevice(t, WithLastConnector(d, k.(receive := k.receive + [groupAddressRefID]))))
      ensures !ok ==> project == old(project)
    {
      var t := project.topology;
      if !HasLastDevice(t) || !HasLastConnector(LastDevice(t)) {
        return false;
      }
      var d := LastDevice(t);
      var k := Last(Last(d.comObjectReferences).connectors);
      project := project.(topology := WithLastDevice(t, WithLastConnector(d, k.(receive := k.receive + [groupAddressRefID]))));
      return true;
    }

    // -------------------------------------------------------------------------
    // Buildings
    // -------------------------------------------------------------------------

    /**
     * A part of type 'Building' becomes a new root; any other part is added under the
     * current part (or becomes a root while there is none). The depth goes up by one.
     */
    method AddBuildingPartToBuildingPart(id: Attr, name: Attr, kind: Attr, defaultLine: Attr) returns (ok: bool)
      modifies this`project, this`currentBuildingDepth
      ensures var f := old(project.buildings); var d := old(currentBuildingDepth);
        ok <==> kind == Some("Building") || !Resolve(f, d).Undefined?
      ensures ok ==> var f := old(project.buildings); var d := old(currentBuildingDepth);
        var x := Tree(BuildingPart(id, name, kind, defaultLine, [], []), []);
        && project == old(project).(buildings := if kind == Some("Building") then f + [x] else AppendAt(f, d, x))
        && currentBuildingDepth == d + 1
      ensures ok ==> Size(project.buildings) == Size(old(project.buildings)) + 1
      ensures !ok ==> project == old(project) && currentBuildingDepth == old(currentBuildingDepth)
    {
      var x := Tree(BuildingPart(id, name, kind, defaultLine, [], []), []);
      assert Size([x]) == 1 by {
        assert [x][1..] == [];
      }
      if kind == Some("Building") {
        SizeConcat(project.buildings, [x]);
        project := project.(buildings := project.buildings + [x]);
      } else {
        var target := GetCurrent(project.buildings, currentBuildingDepth);
        if target.Undefined? {
          return false;
        }
        SizeAppendAt(project.buildings, currentBuildingDepth, x);
        project := project.(buildings := AppendAt(project.buildings, currentBuildingDepth, x));
      }
      currentBuildingDepth := currentBuildingDepth + 1;
      return true;
    }

    method FinishBuildingPart()
      modifies this`currentBuildingDepth
      ensures currentBuildingDepth == old(currentBuildingDepth) - 1
    {
      currentBuildingDepth := currentBuildingDepth - 1;
    }

    method AddDeviceReferenceToBuildingPart(deviceRefID: Attr) returns (ok: bool)
      modifies this`project
      ensures var r := Resolve(old(project.buildings), currentBuildingDepth);
        ok <==> r.At?
      ensures ok ==> var f := old(project.buildings); var cur := Resolve(f, currentBuildingDepth).node;
        project == old(project).(buildings := ReplaceCurrent(f, currentBuildingDepth,
          cur.(data := cur.data.(deviceReferences := cur.data.deviceReferences + [deviceRefID]))))
      ensures !ok ==> project == old(project)
    {
      var target := GetCurrent(project.buildings, currentBuildingDepth);
      if !target.At? {
        return false;
      }
      var cur := target.node;
      project := project.(buildings := ReplaceCurrent(project.buildings, currentBuildingDepth,
        cur.(data := cur.data.(deviceReferences := cur.data.deviceReferences + [deviceRefID]))));
      return true;
    }

    method AddFunctionToBuildingPart(id: Attr, name: Attr, kind: Attr) returns (ok: bool)
      modifies this`project
      ensures var r := Resolve(old(project.buildings), currentBuildingDepth);
        ok <==> r.At?
      ensures ok ==> var f := old(project.buildings); var cur := Resolve(f, currentBuildingDepth).node;
        project == old(project).(buildings := ReplaceCurrent(f, currentBuildingDepth,
          cur.(data := cur.data.(functions := cur.data.functions + [BuildingFunction(id, name, kind, [])]))))
      ensures !ok ==> project == old(project)
    {
      var target := GetCurrent(project.buildings, currentBuildingDepth);
      if !target.At? {
        return false;
      }
      var cur := target.node;
      project := project.(buildings := ReplaceCurrent(project.buildings, currentBuildingDepth,
        cur.(data := cur.data.(functions := cur.data.functions + [BuildingFunction(id, name, kind, [])]))));
      return true;
    }

    method AddGroupAddressReferenceToFunction(id: Attr, name: Attr, role: Attr, groupAddressRefID: Attr) returns (ok: bool)
      modifies this`project
      ensures var r := Resolve(old(project.buildings), currentBuildingDepth);
        ok <==> r.At? && r.node.data.functions != []
      ensures ok ==> var f := old(project.buildings); var cur := Resolve(f, currentBuildingDepth).node;
        var fn := Last(cur.data.functions);
        var fn' := fn.(groupAddressReferences := fn.groupAddressReferences + [GroupAddressReference(id, name, role, groupAddressRefID)]);
        project == old(project).(buildings := ReplaceCurrent(f, currentBuildingDepth,
          cur.(data := cur.data.(functions := WithLast(cur.data.functions, fn')))))
      ensures !ok ==> project == old(project)
    {
      var target := GetCurrent(project.buildings, currentBuildingDepth);
      if !target.At? || target.node.data.functions == [] {
        return false;
      }
      var cur := target.node;
      var fn := Last(cur.data.functions);
      var fn' := fn.(groupAddressReferences := fn.groupAddressReferences + [GroupAddressReference(id, name, role, groupAddressRefID)]);
      project := project.(buildings := ReplaceCurrent(project.buildings, currentBuildingDepth,
        cur.(data := cur.data.(functions := WithLast(cur.data.functions, fn')))));
      return true;
    }

    // -------------------------------------------------------------------------
    // Group ranges and group addresses
    // -------------------------------------------------------------------------

    /**
     * Adds a range under the current range (or as a root while there is none); it
     * passes through when asked to or when the range it is added under does.
     */
    method AddGroupRangeToGroupRange(id: Attr, rangeStart: Number, rangeEnd: Number, name: Attr,
      passThroughLineCoupler: bool) returns (ok: bool)
      modifies this`project, this`currentGroupRangeDepth
      ensures ok <==> !Resolve(old(project.groupRanges), old(currentGroupRangeDepth)).Undefined?
      ensures ok ==> var f := old(project.groupRanges); var d := old(currentGroupRangeDepth);
        var r := GroupRange(id, name, rangeStart, rangeEnd, NewRangeFlag(f, d, passThroughLineCoupler), []);
        && project == old(project).(groupRanges := AppendAt(f, d, Tree(r, [])))
        && currentGroupRangeDepth == d + 1
      ensures !ok ==> project == old(project) && currentGroupRangeDepth == old(currentGroupRangeDepth)
      ensures old(Valid()) ==> Valid()
    {
      var parent := GetCurrent(project.groupRanges, currentGroupRangeDepth);
      if parent.Undefined? {
        return false;
      }
      var flag := passThroughLineCoupler;
      if parent.At? && parent.node.data.passThroughLineCoupler {
        flag := true;
      }
      var r := GroupRange(id, name, rangeStart, rangeEnd, flag, []);
      if Valid() {
        AppendRangeInherits(project.groupRanges, currentGroupRangeDepth, r);
      }
      project := project.(groupRanges := AppendAt(project.groupRanges, currentGroupRangeDepth, Tree(r, [])));
      currentGroupRangeDepth := currentGroupRangeDepth + 1;
      return true;
    }

    method FinishGroupRange()
      modifies this`currentGroupRangeDepth
      ensures currentGroupRangeDepth == old(currentGroupRangeDepth) - 1
    {
      currentGroupRangeDepth := currentGroupRangeDepth - 1;
    }

    /**
     * Adds an address to the current range. Its pass-through flag is the range's;
     * the attribute passed for it is not used.
     */
    method AddGroupAddressToGroupRange(id: Attr, name: Attr, address: Number, description: Attr,
      datapointType: Attr, passThroughLineCoupler: Attr, central: bool) returns (ok: bool)
      modifies this`project
      ensures ok <==> Resolve(old(project.groupRanges), currentGroupRangeDepth).At?
      ensures ok ==> var f := old(project.groupRanges); var cur := Resolve(f, currentGroupRangeDepth).node;
        var a := GroupAddress(id, name, address, description, datapointType, cur.data.passThroughLineCoupler, central);
        project == old(project).(groupRanges := ReplaceCurrent(f, currentGroupRangeDepth,
          cur.(data := cur.data.(groupAddresses := cur.data.groupAddresses + [a]))))
      ensures !ok ==> project == old(project)
      ensures old(Valid()) ==> Valid()
    {
      var target := GetCurrent(project.groupRanges, currentGroupRangeDepth);
      if !target.At? {
        return false;
      }
      var cur := target.node;
      var a := GroupAddress(id, name, address, description, datapointType, cur.data.passThroughLineCoupler, central);
      if Valid() {
        AppendAddressInherits(project.groupRanges, currentGroupRangeDepth, a);
      }
      project := project.(groupRanges := ReplaceCurrent(project.groupRanges, currentGroupRangeDepth,
        cur.(data := cur.data.(groupAddresses := cur.data.groupAddresses + [a]))));
      return true;
    }

    // -------------------------------------------------------------------------
    // Product lookup table
    // -------------------------------------------------------------------------

    /** Adds a product family; its application program reference starts undefined. */
    method AddEntryToProductLookupTable(
      id: Attr, name: Attr, busCurrent: Attr, serialNumber: Attr,
      isAccessory: bool, isPowerSupply: bool, isChoke: bool, isCoupler: bool, isPowerLineRepeater: bool,
      isPowerLineSignalFilter: bool, isCable: bool, isIPEnabled: bool, hasApplicationProgram1: bool,
      hasApplicationProgram2: bool, hasIndividualAddress: bool, originalManufacturerRefID: Attr,
      manufacturerRefID: Attr, noDownloadWithoutPlugin: bool)
      modifies this`project
      ensures var flags := HardwareFlags(isAccessory, isPowerSupply, isChoke, isCoupler, isPowerLineRepeater,
          isPowerLineSignalFilter, isCable, isIPEnabled, hasApplicationProgram1, hasApplicationProgram2,
          hasIndividualAddress, noDownloadWithoutPlugin);
        var info := ProductFamilyInfo(id, name, busCurrent, serialNumber, flags, originalManufacturerRefID, manufacturerRefID, None);
        project == old(project).(productLookupTable := old(project.productLookupTable) + [ProductFamily(info, [])])
    {
      var flags := HardwareFlags(isAccessory, isPowerSupply, isChoke, isCoupler, isPowerLineRepeater,
        isPowerLineSignalFilter, isCable, isIPEnabled, hasApplicationProgram1, hasApplicationProgram2,
        hasIndividualAddress, noDownloadWithoutPlugin);
      var info := ProductFamilyInfo(id, name, busCurrent, serialNumber, flags, originalManufacturerRefID, manufacturerRefID, None);
      project := project.(productLookupTable := project.productLookupTable + [ProductFamily(info, [])]);
    }

    method AddApplicationProgramRefIDToProductLookupTable(applicationProgramRefID: Attr) returns (ok: bool)
      modifies this`project
      ensures ok <==> old(project.productLookupTable) != []
      ensures ok ==> var t := old(project.productLookupTable); var e := Last(t);
        project == old(project).(productLookupTable :=
          WithLast(t, e.(info := e.info.(applicationProgramRefID := applicationProgramRefID))))
      ensures !ok ==> project == old(project)
    {
      var t := project.productLookupTable;
      if t == [] {
        return false;
      }
      var e := Last(t);
      project := project.(productLookupTable := WithLast(t, e.(info := e.info.(applicationProgramRefID := applicationProgramRefID))));
      return true;
    }

    method AddProductToProductLookupTableEntry(id: Attr, text: Attr, visibleDescription: Attr, orderNumber: Attr) returns (ok: bool)
      modifies this`project
      ensures ok <==> old(project.productLookupTable) != []
      ensures ok ==> var t := old(project.productLookupTable); var e := Last(t);
        project == old(project).(productLookupTable :=
          WithLast(t, e.(products := e.products + [Product(id, text, visibleDescription, orderNumber)])))
      ensures !ok ==> project == old(project)
    {
      var t := project.productLookupTable;
      if t == [] {
        return false;
      }
      var e := Last(t);
      project := project.(productLookupTable := WithLast(t, e.(products := e.products + [Product(id, text, visibleDescription, orderNumber)])));
      return true;
    }

    // -------------------------------------------------------------------------
    // Manufacturer, datapoint, medium type and application tables
    // -------------------------------------------------------------------------

    method AddManufacturerToManufacturerLookupTable(id: Attr, knxManufacturerID: Attr, manufacturerName: Attr)
      modifies this`project
      ensures project == old(project).(manufacturerLookupTable :=
        old(project.manufacturerLookupTable) + [Manufacturer(id, knxManufacturerID, manufacturerName)])
    {
      project := project.(manufacturerLookupTable :=
        project.manufacturerLookupTable + [Manufacturer(id, knxManufacturerID, manufacturerName)]);
    }

    method AddDatapointTypeToDatapointLookupTable(id: Attr, dptNumber: Number, dptName: Attr, dptText: Attr, dptSizeInBit: Number)
      modifies this`project
      ensures project == old(project).(datapointLookupTable :=
        old(project.datapointLookupTable) + [DatapointType(id, dptNumber, dptName, dptText, dptSizeInBit, [])])
    {
      project := project.(datapointLookupTable :=
        project.datapointLookupTable + [DatapointType(id, dptNumber, dptName, dptText, dptSizeInBit, [])]);
    }

    method AddDatapointSubTypeToDatapointType(id: Attr, subDptNumber: Number, subDptName: Attr, subDptText: Attr) returns (ok: bool)
      modifies this`project
      ensures ok <==> old(project.datapointLookupTable) != []
      ensures ok ==> var t := old(project.datapointLookupTable); var e := Last(t);
        project == old(project).(datapointLookupTable := WithLast(t,
          e.(datapointSubtypes := e.datapointSubtypes + [DatapointSubtype(id, subDptNumber, subDptName, subDptText)])))
      ensures !ok ==> project == old(project)
    {
      var t := project.datapointLookupTable;
      if t == [] {
        return false;
      }
      var e := Last(t);
      project := project.(datapointLookupTable := WithLast(t,
        e.(datapointSubtypes := e.datapointSubtypes + [DatapointSubtype(id, subDptNumber, subDptName, subDptText)])));
      return true;
    }

    method AddMediumTypeToMediumTypeLookupTable(id: Attr, number: Number, name: Attr, text: Attr, domainAddressLength: Number)
      modifies this`project
      ensures project == old(project).(mediumTypeLookupTable :=
        old(project.mediumTypeLookupTable) + [MediumType(id, number, name, text, domainAddressLength)])
    {
      project := project.(mediumTypeLookupTable :=
        project.mediumTypeLookupTable + [MediumType(id, number, name, text, domainAddressLength)]);
    }

    method AddEntryToApplicationProgramLookupTable(id: Attr, name: Attr, number: Number, version: Attr,
      programType: Attr, maskVersion: Attr, manufacturerRefID: Attr)
      modifies this`project
      ensures project == old(project).(deviceApplicationLookupTable := old(project.deviceApplicationLookupTable)
        + [ApplicationProgram(id, name, number, version, programType, maskVersion, manufacturerRefID)])
    {
      project := project.(deviceApplicationLookupTable := project.deviceApplicationLookupTable
        + [ApplicationProgram(id, name, number, version, programType, maskVersion, manufacturerRefID)]);
    }

    // -------------------------------------------------------------------------
    // Mask version table
    // -------------------------------------------------------------------------

    /** Adds a mask version; its address features start undefined. */
    method AddEntryToDeviceMaskversionLookupTable(id: Attr, maskVersion: Number, name: Attr, managementModel: Attr,
      mediumTypeRefID: Attr, otherMediumTypeRefID: Attr)
      modifies this`project
      ensures project == old(project).(deviceMaskversionLookupTable := old(project.deviceMaskversionLookupTable)
        + [MaskVersion(id, maskVersion, name, managementModel, None, None, None, mediumTypeRefID, otherMediumTypeRefID, [], [])])
    {
      project := project.(deviceMaskversionLookupTable := project.deviceMaskversionLookupTable
        + [MaskVersion(id, maskVersion, name, managementModel, None, None, None, mediumTypeRefID, otherMediumTypeRefID, [], [])]);
    }

    method AddCompatibleMaskversionIDToMaskversionEntry(id: Attr) returns (ok: bool)
      modifies this`project
      ensures ok <==> old(project.deviceMaskversionLookupTable) != []
      ensures ok ==> var t := old(project.deviceMaskversionLookupTable); var m := Last(t);
        project == old(project).(deviceMaskversionLookupTable := WithLast(t,
          m.(compatibleMaskVersionIDs := m.compatibleMaskVersionIDs + [id])))
      ensures !ok ==> project == old(project)
    {
      var t := project.deviceMaskversionLookupTable;
      if t == [] {
        return false;
      }
      var m := Last(t);
      project := project.(deviceMaskversionLookupTable := WithLast(t, m.(compatibleMaskVersionIDs := m.compatibleMaskVersionIDs + [id])));
      return true;
    }

    method AddUnloadedIndividualAddressToMaskversionEntry(unloadedIndividualAddress: Number) returns (ok: bool)
      modifies this`project
      ensures ok <==> old(project.deviceMaskversionLookupTable) != []
      ensures ok ==> var t := old(project.deviceMaskversionLookupTable);
        project == old(project).(deviceMaskversionLookupTable := WithLast(t,
          Last(t).(unloadedIndividualAddress := Some(unloadedIndividualAddress))))
      ensures !ok ==> project == old(project)
    {
      var t := project.deviceMaskversionLookupTable;
      if t == [] {
        return false;
      }
      project := project.(deviceMaskversionLookupTable := WithLast(t, Last(t).(unloadedIndividualAddress := Some(unloadedIndividualAddress))));
      return true;
    }

    method AddMaxIndividualAddressToMaskversionEntry(maxIndividualAddress: Number) returns (ok: bool)
      modifies this`project
      ensures ok <==> old(project.deviceMaskversionLookupTable) != []
      ensures ok ==> var t := old(project.deviceMaskversionLookupTable);
        project == old(project).(deviceMaskversionLookupTable := WithLast(t,
          Last(t).(maxIndividualAddress := Some(maxIndividualAddress))))
      ensures !ok ==> project == old(project)
    {
      var t := project.deviceMaskversionLookupTable;
      if t == [] {
        return false;
      }
      project := project.(deviceMaskversionLookupTable := WithLast(t, Last(t).(maxIndividualAddress := Some(maxIndividualAddress))));
      return true;
    }

    method AddMaxGroupAddressToMaskversionEntry(maxGroupAddress: Number) returns (ok: bool)
      modifies this`project
      ensures ok <==> old(project.deviceMaskversionLookupTable) != []
      ensures ok ==> var t := old(project.deviceMaskversionLookupTable);
        project == old(project).(deviceMaskversionLookupTable := WithLast(t,
          Last(t).(maxGroupAddress := Some(maxGroupAddress))))
      ensures !ok ==> project == old(project)
    {
      var t := project.deviceMaskversionLookupTable;
      if t == [] {
        return false;
      }
      project := project.(deviceMaskversionLookupTable := WithLast(t, Last(t).(maxGroupAddress := Some(maxGroupAddress))));
      return true;
    }

    method AddResourceToMaskversionEntry(name: Attr, access: Attr) returns (ok: bool)
      modifies this`project
      ensures ok <==> old(project.deviceMaskversionLookupTable) != []
      ensures ok ==> var t := old(project.deviceMaskversionLookupTable); var m := Last(t);
        project == old(project).(deviceMaskversionLookupTable := WithLast(t,
          m.(resources := m.resources + [NewResource(name, access)])))
      ensures !ok ==> project == old(project)
    {
      var t := project.deviceMaskversionLookupTable;
      if t == [] {
        return false;
      }
      var m := Last(t);
      project := project.(deviceMaskversionLookupTable := WithLast(t, m.(resources := m.resources + [NewResource(name, access)])));
      return true;
    }

    /** Overwrites the six location fields of the current resource. */
    method AddLocationInformationToResource(addressSpace: Attr, startAddress: Option<int>, ptrResource: Attr,
      interfaceObjectRef: Option<int>, propertyID: Option<int>, occurrence: Option<int>) returns (ok: bool)
      modifies this`project
      ensures ok <==> HasLastResource(old(project.deviceMaskversionLookupTable))
      ensures ok ==> var t := old(project.deviceMaskversionLookupTable);
        project == old(project).(deviceMaskversionLookupTable := WithLastResource(t,
          LastResource(t).(addressSpace := addressSpace, startAddress := startAddress, ptrResource := ptrResource,
            interfaceObjectRef := interfaceObjectRef, propertyID := propertyID, occurrence := occurrence)))
      ensures !ok ==> project == old(project)
    {
      var t := project.deviceMaskversionLookupTable;
      if !HasLastResource(t) {
        return false;
      }
      project := project.(deviceMaskversionLookupTable := WithLastResource(t,
        LastResource(t).(addressSpace := addressSpace, startAddress := startAddress, ptrResource := ptrResource,
          interfaceObjectRef := interfaceObjectRef, propertyID := propertyID, occurrence := occurrence)));
      return true;
    }

    method AddResourceTypeInformationToResource(length: Number, flavour: Attr) returns (ok: bool)
      modifies this`project
      ensures ok <==> HasLastResource(old(project.deviceMaskversionLookupTable))
      ensures ok ==> var t := old(project.deviceMaskversionLookupTable);
        project == old(project).(deviceMaskversionLookupTable := WithLastResource(t,
          LastResource(t).(length := Some(length), flavour := flavour)))
      ensures !ok ==> project == old(project)
    {
      var t := project.deviceMaskversionLookupTable;
      if !HasLastResource(t) {
        return false;
      }
      project := project.(deviceMaskversionLookupTable := WithLastResource(t, LastResource(t).(length := Some(length), flavour := flavour)));
      return true;
    }

    method AddAccessRightInformationToResource(readRights: Attr, writeRights: Attr) returns (ok: bool)
      modifies this`project
      ensures ok <==> HasLastResource(old(project.deviceMaskversionLookupTable))
      ensures ok ==> var t := old(project.deviceMaskversionLookupTable);
        project == old(project).(deviceMaskversionLookupTable := WithLastResource(t,
          LastResource(t).(readRights := readRights, writeRights := writeRights)))
      ensures !ok ==> project == old(project)
    {
      var t := project.deviceMaskversionLookupTable;
      if !HasLastResource(t) {
        return false;
      }
      project := project.(deviceMaskversionLookupTable := WithLastResource(t, LastResource(t).(readRights := readRights, writeRights := writeRights)));
      return true;
    }
  }

  // ---------------------------------------------------------------------------
  // Concrete runs of the builder
  // ---------------------------------------------------------------------------

  // A run is a chain of the steps below; each one is `addGroupRangeToGroupRange` on a
  // forest of a known shape (a range's name is its id here).

  /** Into an empty forest: the range becomes the only root. */
  method OpenFirstRange(b: Builder, id: Attr, start: Number, end: Number, flag: bool)
    requires b.project.groupRanges == [] && b.currentGroupRangeDepth == -1
    modifies b`project, b`currentGroupRangeDepth
    ensures b.project.groupRanges == [Tree(GroupRange(id, id, start, end, flag, []), [])]
    ensures b.currentGroupRangeDepth == 0
  {
    AppendToEmptyForest(-1, Tree(GroupRange(id, id, start, end, flag, []), []));
    var ok := b.AddGroupRangeToGroupRange(id, start, end, id, flag);
  }

  /** Under the only root at depth -1 or 0: the range becomes the root's last child and inherits its flag. */
  method OpenUnderSingleRoot(b: Builder, root: GroupRange, cs: seq<Tree<GroupRange>>,
    id: Attr, start: Number, end: Number, flag: bool)
    requires b.project.groupRanges == [Tree(root, cs)] && b.currentGroupRangeDepth <= 0
    modifies b`project, b`currentGroupRangeDepth
    ensures b.project.groupRanges ==
      [Tree(root, cs + [Tree(GroupRange(id, id, start, end, flag || root.passThroughLineCoupler, []), [])])]
    ensures b.currentGroupRangeDepth == old(b.currentGroupRangeDepth) + 1
  {
    AppendUnderSingleRoot(root, cs, b.currentGroupRangeDepth,
      Tree(GroupRange(id, id, start, end, flag || root.passThroughLineCoupler, []), []));
    var ok := b.AddGroupRangeToGroupRange(id, start, end, id, flag);
  }

  /** Under the root's only child at depth 1: the range becomes that child's child and inherits its flag. */
  method OpenUnderOnlyChild(b: Builder, root: GroupRange, child: GroupRange,
    id: Attr, start: Number, end: Number, flag: bool)
    requires b.project.groupRanges == [Tree(root, [Tree(child, [])])] && b.currentGroupRangeDepth == 1
    modifies b`project, b`currentGroupRangeDepth
    ensures b.project.groupRanges ==
      [Tree(root, [Tree(child, [Tree(GroupRange(id, id, start, end, flag || child.passThroughLineCoupler, []), [])])])]
    ensures b.currentGroupRangeDepth == 2
  {
    AppendUnderOnlyChild(root, child, Tree(GroupRange(id, id, start, end, flag || child.passThroughLineCoupler, []), []));
    var ok := b.AddGroupRangeToGroupRange(id, start, end, id, flag);
  }

  /**
   * Range Sub (flag set) holding address GA1 whose own `Unfiltered` attribute says
   * false: GA1 passes through, because an address takes its range's flag.
   */
  method AddressFlagRun() returns (ga1PassesThrough: bool)
    ensures ga1PassesThrough
  {
    var sub := GroupRange(Some("Sub"), Some("Sub"), Int(0), Int(255), true, []);
    var ga1 := GroupAddress(Some("GA1"), Some("GA1"), Int(1), None, None, true, false);

    var b := new Builder();
    OpenFirstRange(b, Some("Sub"), Int(0), Int(255), true);

    assert Resolve([Tree(sub, [])], 0) == At(Tree(sub, []));
    assert sub.groupAddresses + [ga1] == [ga1];
    var ok := b.AddGroupAddressToGroupRange(Some("GA1"), Some("GA1"), Int(1), None, None, Some("false"), false);
    assert ok;
    assert b.project.groupRanges == [Tree(sub.(groupAddresses := [ga1]), [])];

    ga1PassesThrough := b.project.groupRanges[0].data.groupAddresses[0].passThroughLineCoupler;
  }

  /**
   * Main (no flag) holding Sub (flag set) holding range Deep (no flag of its own):
   * Deep passes through because Sub does, whatever the ranges are called and span.
   */
  method InheritedRangeFlagRun(mainId: Attr, subId: Attr, deepId: Attr, start: Number, end: Number)
    returns (deepPassesThrough: bool)
    ensures deepPassesThrough
  {
    var b := new Builder();
    OpenFirstRange(b, mainId, start, end, false);
    var main := GroupRange(mainId, mainId, start, end, false, []);
    OpenUnderSingleRoot(b, main, [], subId, start, end, true);
    var sub := GroupRange(subId, subId, start, end, true, []);
    assert [] + [Tree(sub, [])] == [Tree(sub, [])];
    OpenUnderOnlyChild(b, main, sub, deepId, start, end, false);
    deepPassesThrough := b.project.groupRanges[0].children[0].children[0].data.passThroughLineCoupler;
  }

  /**
   * Main (no flag) holding Sub (flag set) and, after Sub closes, Sub2 (no flag):
   * Sub2 does not pass through, since siblings do not inherit from each other.
   */
  method SiblingFlagRun(mainId: Attr, subId: Attr, sub2Id: Attr, start: Number, end: Number)
    returns (subPassesThrough: bool, sub2PassesThrough: bool)
    ensures subPassesThrough && !sub2PassesThrough
  {
    var b := new Builder();
    OpenFirstRange(b, mainId, start, end, false);
    var main := GroupRange(mainId, mainId, start, end, false, []);
    OpenUnderSingleRoot(b, main, [], subId, start, end, true);
    var sub := GroupRange(subId, subId, start, end, true, []);
    assert [] + [Tree(sub, [])] == [Tree(sub, [])];
    b.FinishGroupRange();
    OpenUnderSingleRoot(b, main, [Tree(sub, [])], sub2Id, start, end, false);
    subPassesThrough := b.project.groupRanges[0].children[0].data.passThroughLineCoupler;
    sub2PassesThrough := b.project.groupRanges[0].children[1].data.passThroughLineCoupler;
  }

  /**
   * A device read inside the unassigned section goes to the unassigned devices and
   * not to the line; a parameter reference read there still goes to the last device
   * of the line. Closing the section restores the assigned mode.
   */
  method UnassignedDevicesRun() returns (lineDevices: nat, unassigned: nat, lineDeviceParameters: nat,
    unassignedDeviceParameters: nat, assignedAfterwards: bool)
    ensures lineDevices == 1 && unassigned == 1
    ensures lineDeviceParameters == 1 && unassignedDeviceParameters == 0
    ensures assignedAfterwards
  {
    var d0 := NewDevice(Some("D0"), None, None, None, Some("1"), None, false, false, false, false, false,
      None, None, None, None, false, NaN, NaN);
    var d1 := NewDevice(Some("D1"), None, None, None, None, None, false, false, false, false, false,
      None, None, None, None, false, NaN, NaN);
    var p1 := ParameterReference(Some("P1"), Some("7"));
    var line := Line(Some("L1"), Some("Line"), Some("1"), None, []);
    var area := Area(Some("A1"), Some("Area"), Some("1"), []);

    var b := new Builder();
    b.AddAreaToTopology(Some("A1"), Some("Area"), Some("1"));
    assert b.project.topology == Topology([area], []);
    assert area.lines + [line] == [line];
    assert WithLast([area], area.(lines := [line])) == [area.(lines := [line])];
    var ok := b.AddLineToArea(Some("L1"), Some("Line"), Some("1"), None);
    assert b.project.topology == Topology([area.(lines := [line])], []);
    ok := b.AddDeviceToLine(Some("D0"), None, None, None, Some("1"), None, false, false, false, false, false,
      None, None, None, None, false, NaN, NaN);
    var t1 := Topology([area.(lines := [line.(devices := [d0])])], []);
    assert line.devices + [d0] == [d0];
    assert WithLastLine(Topology([area.(lines := [line])], []), line.(devices := [d0])) == t1;
    assert b.project.topology == t1;
    b.UnassignedDevicesStart();
    ok := b.AddDeviceToLine(Some("D1"), None, None, None, None, None, false, false, false, false, false,
      None, None, None, None, false, NaN, NaN);
    var t2 := t1.(unassignedDevices := [d1]);
    assert b.project.topology == t2;
    assert HasLastDevice(t2) && LastDevice(t2) == d0;
    ok := b.AddParameterReferenceToDevice(Some("P1"), Some("7"));
    var t3 := Topology([area.(lines := [line.(devices := [d0.(parameterReferences := [p1])])])], [d1]);
    assert d0.parameterReferences + [p1] == [p1];
    assert WithLastDevice(t2, d0.(parameterReferences := [p1])) == t3;
    assert b.project.topology == t3;
    b.UnassignedDevicesStop();
    var t := b.project.topology;
    lineDevices := |t.areas[0].lines[0].devices|;
    unassigned := |t.unassignedDevices|;
    lineDeviceParameters := |t.areas[0].lines[0].devices[0].parameterReferences|;
    unassignedDeviceParameters := |t.unassignedDevices[0].parameterReferences|;
    assignedAfterwards := b.comingDevicesAssigned;
  }

  /**
   * Two top-level group ranges in a row: after the first closes, the depth is back
   * at -1, which resolves to the first range, so the second is stored as its child.
   */
  method SecondTopLevelRangeRun(firstId: Attr, secondId: Attr, start: Number, end: Number)
    returns (roots: nat, childrenOfFirst: nat)
    ensures roots == 1 && childrenOfFirst == 1
  {
    var b := new Builder();
    OpenFirstRange(b, firstId, start, end, false);
    b.FinishGroupRange();
    OpenUnderSingleRoot(b, GroupRange(firstId, firstId, start, end, false, []), [], secondId, start, end, false);
    b.FinishGroupRange();
    roots := |b.project.groupRanges|;
    childrenOfFirst := |b.project.groupRanges[0].children|;
  }
}
