# ets_proj_parser in Dafny

This project models the core of `ets_proj_parser`, a JavaScript library that reads
an ETS project export (a KNX building-automation project) and turns it into one
project object. The modelled core has six parts:

- **The project structure builder** (`ProjectStructure.Builder`). It holds the
  project and three counters. The first two are the building depth and the
  group-range depth, which say where the next building part or group range goes
  in its tree. The third is the flag that sends devices either to the current
  line or to the unassigned devices. Every `add…` operation of the structure
  (all but `addInformationToProject`, which is left out) is a method here. Each method states the whole new state and the condition under
  which the source would throw instead. The two trees are one generic forest
  (`Forest`); the walk down to the insertion point is `Forest.GetCurrent`,
  proved against `Forest.Resolve`.
- **The pass over the project file `0.xml`** (`EtsProjParser`): the open- and
  close-tag listeners and the fold over a document's events. It also models
  `strBool` and the chain of stages `parse` runs.
- **The pass over `knx_master.xml`** (`KnxMasterParser`), with its
  resource-location gate.
- **The per-file passes over the hardware files** (`ProductInformationParser`)
  **and the application files** (`ApplicationInformationParser`). Both track the
  current manufacturer.
- **The parsed project** (`ParsedProject`), with three parts:
  - the address normaliser run when it is built;
  - the getters that flatten the building tree, collect group addresses and
    list lines, devices and products;
  - `getValByKey` (`JsonPath`).

The XML stream is given as a list of open- and close-tag events plus how the
stream ended (`Sax.Document`). An element's attributes are a map. A JavaScript
value that may be `undefined` is an `Option` (`Attr` for attribute strings).
`parseInt` without a radix is modelled on unbounded integers (`JsValues.ParseInt`):
leading white space, a sign, a `0x` prefix, and the longest run of digits. The
double it returns in JavaScript is not modelled (see "Left out").

The main properties proved:

- The pass-through flag of group ranges is inherited downwards and never
  rewritten. This is `Builder.Valid`, kept by every operation.
- Replaying the open and close events of a forest with the builder's walk
  rebuilds that forest (`Forest.RunEventsOf`).
- The address normaliser is idempotent when no line address is the empty
  string, and a concrete project shows the condition is needed.
- Each open tag's listener writes exactly what its element says (`EtsProjParser.Written`,
  `KnxMasterParser.Written`), and each pass ends with the fold of its listeners over
  the events handled; a parsed project is the master-file fold over the
  project-file fold, with its addresses normalised.
- The getters return every building part and every group address exactly once.
- The master-file gate is open exactly inside a `Resource` element.
- Each hardware family and application program is stamped with the `RefId` of
  the last `Manufacturer` element of its own file.

## Model

| member | source | states |
|---|---|---|
| JsValues.JsString | src/parsedProject.js:374-385 | an attribute used in string concatenation reads as itself, and undefined reads as "undefined" |
| JsValues.TrimStart | src/etsProjParser.js:217-218 | `parseInt`'s leading white space is removed: the result is a suffix of the input, everything dropped is white space or a line terminator (every Unicode space separator included), and the result does not start with one |
| JsValues.DigitPrefix | src/etsProjParser.js:217-218 | the digits `parseInt` reads form a prefix of the input, and the character after them is not a digit |
| JsValues.DecimalString | src/parsedProject.js:10-30 | the decimal spelling of a number is non-empty and all digits |
| JsValues.DecimalStringValue | src/parsedProject.js:10-30 | reading the decimal spelling of a number back gives the number |
| JsValues.DigitPrefixOfDigits | src/etsProjParser.js:296-297 | a string of digits is read whole |
| JsValues.ParseDecimalDigits | src/etsProjParser.js:296-297 | a non-empty string of decimal digits parses to its value |
| JsValues.ParseIntDigits | src/etsProjParser.js:296-297 | `parseInt` of a non-empty string of decimal digits is the number they spell |
| JsValues.ParseIntDecimal | src/etsProjParser.js:306 | `parseInt` of a number's decimal spelling is that number (round trip) |
| JsValues.OrUndefined | src/knxMasterXMLParser.js:120-132 | `parseInt(x) \|\| undefined` is defined exactly when the parse gave a non-zero number, and then holds it |
| JsValues.ToLowerAscii | src/etsProjParser.js:38-40 | the case-insensitive match lowers each character and keeps the length |
| JsValues.MatchesIgnoringCaseIsLowerEqual | src/etsProjParser.js:38-40 | matching `/^w$/i` for a lower-case word `w` is comparing the lower-cased text with `w` |
| JsValues.StrBool | src/etsProjParser.js:38-40 | `strBool` is true exactly for "true" and "enabled" in any letter case and for "1"; undefined and "" are false |
| ProjectModel.EmptyProject | src/projectStructure.js:8-51 | a fresh project has every tree and table empty |
| ProjectModel.InLines | src/parsedProject.js:63-73 | a line is listed exactly when some area holds it |
| ProjectModel.WithLastDeviceInDevices | src/projectStructure.js:152-207 | the device the detail operations write to is the last of all devices, and writing it changes only that entry of the device list |
| Forest.Steps | src/projectStructure.js:222-243 | the walk takes `max(depth, 0)` last-child steps |
| Forest.Below | src/projectStructure.js:233-239 | walking down a tree never gives the root list |
| Forest.Resolve | src/projectStructure.js:222-243 | the insertion point is the root list exactly when the forest is empty |
| Forest.GetCurrent | src/projectStructure.js:222-243 | the `while (wayToGo > 0)` loop ends at the node `Resolve` names (the last root, then `max(depth,0)` last children), or finds it missing |
| Forest.BelowReplaceBelow | src/projectStructure.js:283-305 | after writing the current node, the walk finds the written node |
| Forest.ResolveReplaceCurrent | src/projectStructure.js:283-305 | after writing the current node of a forest, resolving again at the same depth finds the written node |
| Forest.BelowOneMore | src/projectStructure.js:233-239 | one more step lands on the current node's last child |
| Forest.AppendAtBecomesCurrent | src/projectStructure.js:251-274 | a node appended at a non-negative depth, or as the first root, is the current node at the next depth |
| Forest.AppendedIsCurrent | src/projectStructure.js:251-274 | wherever the insertion point is, the appended node is the current node one step further down, and a first root is current at depth 0 |
| Forest.RunConcat | src/etsProjParser.js:263-330 | replaying two stretches of events is replaying one after the other |
| Forest.ReplaceBelowSame | src/projectStructure.js:283-305 | writing back the node that is there changes nothing |
| Forest.ReplaceBelowTwice | src/projectStructure.js:283-305 | of two writes to the same node, the last one wins |
| Forest.ReplaceCurrentTwice | src/projectStructure.js:283-305 | of two writes to the current node of a forest, the last one wins |
| Forest.ReplaceBelowChild | src/projectStructure.js:251-274 | writing the current node's last child is writing the current node with that child replaced |
| Forest.CloseAfterChildren | src/projectStructure.js:277-280 | opening a node, building its children and closing it leaves the node as the last child of the current node |
| Forest.RunOneTree | src/etsProjParser.js:263-330 | replaying the events of one tree at the current node appends that tree to it and returns to the same depth |
| Forest.RunEventsOf | src/etsProjParser.js:263-330 | replaying the events of a list of trees at the current node appends them all, in order, and returns to the same depth |
| Forest.RunSingleTree | src/projectStructure.js:251-280 | from an empty forest, the events of one tree rebuild exactly that tree |
| Forest.SecondTopLevelNodeNested | src/projectStructure.js:222-243 | from an empty forest, a second top-level node becomes the last child of the first root, because the depth returns to -1 and the walk treats -1 as 0 |
| Forest.AppendToEmptyForest | src/projectStructure.js:251-274 | in an empty forest the insertion point is the root list, at any depth, and the new node becomes the only root |
| Forest.AppendUnderSingleRoot | src/projectStructure.js:222-274 | with one root and a depth of at most 0, the insertion point is that root and the new node becomes its last child |
| Forest.AppendUnderOnlyChild | src/projectStructure.js:222-274 | at depth 1 under a root with one leaf child, the new node becomes that child's only child |
| Forest.KeepsReflexive | src/projectStructure.js:347-366 | every forest keeps its own flags |
| Forest.KeepsExtended | src/projectStructure.js:347-366 | appending roots keeps the flags of the existing nodes |
| Forest.KeepsReplaceBelow | src/projectStructure.js:375-385 | writing a node with the same flag and kept children keeps every flag of the tree |
| Forest.KeepsReplaceCurrent | src/projectStructure.js:375-385 | the same for the current node of a forest |
| Forest.KeepsAppendAt | src/projectStructure.js:347-366 | appending a node anywhere keeps the flags of every existing node |
| Forest.SizeConcat | src/parsedProject.js:120-151 | the node count of two forests adds up |
| Forest.SizeReplaceBelow | src/projectStructure.js:251-274 | writing a node changes the node count by the difference in its subtree's size |
| Forest.SizeAppendAt | src/projectStructure.js:251-274 | appending a tree adds exactly its nodes to the forest |
| Forest.PreorderLength | src/parsedProject.js:120-136 | the pre-order listing has one entry per node |
| Forest.Flatten | src/parsedProject.js:120-136 | the flattening lists every node of the forest exactly as often as the pre-order walk, so each node once, and has one entry per node |
| Forest.FlattenChildren | src/parsedProject.js:123-131 | the top-level list together with the flattenings of its nodes' children holds every node exactly once |
| Forest.ItemsOfConcat | src/parsedProject.js:187-206 | the items of two node lists add up |
| Forest.Collect | src/parsedProject.js:187-206 | collecting yields each item of each node exactly once, in some order |
| ProjectStructure.BelowInherits | src/projectStructure.js:347-385 | inside a tree whose flags are inherited, the current node's addresses agree with it and its subtree inherits its flag |
| ProjectStructure.ReplaceBelowInherits | src/projectStructure.js:375-385 | writing a node with the same flag, agreeing addresses and inheriting children keeps the tree inheriting |
| ProjectStructure.ReplaceCurrentInherits | src/projectStructure.js:375-385 | the same for the current node of a forest |
| ProjectStructure.AppendRangeInherits | src/projectStructure.js:347-366 | a new empty range whose flag is at least its parent's keeps the forest inheriting |
| ProjectStructure.AppendAddressInherits | src/projectStructure.js:375-385 | an address that copies the current range's flag keeps the forest inheriting, and the address agrees with its range |
| ProjectStructure.AddRangeKeepsFlags | src/projectStructure.js:347-366 | adding a range never rewrites the flag of an existing range |
| ProjectStructure.AddAddressKeepsFlags | src/projectStructure.js:375-385 | adding a group address never rewrites the flag of any range |
| ProjectStructure.Builder.constructor | src/projectStructure.js:8-51 | a fresh builder has every tree and table empty, both depths at -1 and devices assigned to lines |
| ProjectStructure.Builder.AddAreaToTopology | src/projectStructure.js:76-83 | appends one area with no lines; nothing else changes |
| ProjectStructure.Builder.AddLineToArea | src/projectStructure.js:86-96 | appends a line to the last area's lines; throws, changing nothing, when there is no area |
| ProjectStructure.Builder.UnassignedDevicesStart | src/projectStructure.js:99-101 | devices now go to the unassigned devices |
| ProjectStructure.Builder.UnassignedDevicesStop | src/projectStructure.js:104-106 | devices now go to the current line |
| ProjectStructure.Builder.AddDeviceToLine | src/projectStructure.js:109-149 | appends the device to the last line of the last area while devices are assigned, otherwise to the unassigned devices, leaving the other list alone; throws when assigned and there is no line |
| ProjectStructure.Builder.AddSecurityToDevice | src/projectStructure.js:152-157 | sets the security of the last device of the last line, whatever the assignment flag; throws when there is none |
| ProjectStructure.Builder.AddParameterReferenceToDevice | src/projectStructure.js:160-165 | appends a parameter reference to that device |
| ProjectStructure.Builder.AddCommunicationReferenceToDevice | src/projectStructure.js:168-183 | appends a communication-object reference with no connectors to that device |
| ProjectStructure.Builder.AddConnectorToCommunicationReference | src/projectStructure.js:186-193 | gives that device's last communication-object reference a connector with empty send and receive lists; throws when there is none |
| ProjectStructure.Builder.AddSendToConnector | src/projectStructure.js:196-200 | appends a send reference to that connector; throws when there is no connector |
| ProjectStructure.Builder.AddReceiveToConnector | src/projectStructure.js:203-207 | appends a receive reference to that connector |
| ProjectStructure.Builder.AddBuildingPartToBuildingPart | src/projectStructure.js:251-274 | a `Building` becomes a new root, any other part the last child of the current part, and the depth goes up by one; the forest grows by one node |
| ProjectStructure.Builder.FinishBuildingPart | src/projectStructure.js:277-280 | the building depth goes down by one |
| ProjectStructure.Builder.AddDeviceReferenceToBuildingPart | src/projectStructure.js:283-285 | appends a device reference to the current part only; throws when there is none |
| ProjectStructure.Builder.AddFunctionToBuildingPart | src/projectStructure.js:288-295 | appends a function with no references to the current part |
| ProjectStructure.Builder.AddGroupAddressReferenceToFunction | src/projectStructure.js:298-305 | appends a reference to the current part's last function; throws when there is none |
| ProjectStructure.Builder.AddGroupRangeToGroupRange | src/projectStructure.js:347-366 | appends a range whose flag is its argument or its parent's flag, raises the depth by one and keeps the flags inherited |
| ProjectStructure.Builder.FinishGroupRange | src/projectStructure.js:369-372 | the group-range depth goes down by one |
| ProjectStructure.Builder.AddGroupAddressToGroupRange | src/projectStructure.js:375-385 | appends an address that carries the current range's flag, ignoring its own flag argument, and keeps the flags inherited |
| ProjectStructure.Builder.AddEntryToProductLookupTable | src/projectStructure.js:397-428 | appends one product family with no products and no application reference |
| ProjectStructure.Builder.AddApplicationProgramRefIDToProductLookupTable | src/projectStructure.js:430-432 | overwrites the last family's application reference only; throws on an empty table |
| ProjectStructure.Builder.AddProductToProductLookupTableEntry | src/projectStructure.js:435-442 | appends a product to the last family only |
| ProjectStructure.Builder.AddManufacturerToManufacturerLookupTable | src/projectStructure.js:449-455 | appends one manufacturer |
| ProjectStructure.Builder.AddDatapointTypeToDatapointLookupTable | src/projectStructure.js:462-471 | appends one datapoint type with no subtypes |
| ProjectStructure.Builder.AddDatapointSubTypeToDatapointType | src/projectStructure.js:474-481 | appends a subtype to the last datapoint type only |
| ProjectStructure.Builder.AddMediumTypeToMediumTypeLookupTable | src/projectStructure.js:488-496 | appends one medium type |
| ProjectStructure.Builder.AddEntryToApplicationProgramLookupTable | src/projectStructure.js:503-513 | appends one application program |
| ProjectStructure.Builder.AddEntryToDeviceMaskversionLookupTable | src/projectStructure.js:520-534 | appends one mask version with no features and no resources |
| ProjectStructure.Builder.AddCompatibleMaskversionIDToMaskversionEntry | src/projectStructure.js:537-539 | appends a compatible mask to the last mask version only |
| ProjectStructure.Builder.AddUnloadedIndividualAddressToMaskversionEntry | src/projectStructure.js:542-544 | sets one field of the last mask version only |
| ProjectStructure.Builder.AddMaxIndividualAddressToMaskversionEntry | src/projectStructure.js:550-552 | sets one field of the last mask version only |
| ProjectStructure.Builder.AddMaxGroupAddressToMaskversionEntry | src/projectStructure.js:558-560 | sets one field of the last mask version only |
| ProjectStructure.Builder.AddResourceToMaskversionEntry | src/projectStructure.js:563-578 | appends a resource with every location field undefined to the last mask version |
| ProjectStructure.Builder.AddLocationInformationToResource | src/projectStructure.js:581-588 | writes exactly six location fields of the last resource of the last mask version |
| ProjectStructure.Builder.AddResourceTypeInformationToResource | src/projectStructure.js:591-594 | writes the length and flavour of that resource |
| ProjectStructure.Builder.AddAccessRightInformationToResource | src/projectStructure.js:597-600 | writes the read and write rights of that resource |
| ProjectStructure.OpenFirstRange | src/projectStructure.js:347-366 | the first range of an empty group-address tree becomes its only root, with the flag it is given, and the depth goes from -1 to 0 |
| ProjectStructure.OpenUnderSingleRoot | src/projectStructure.js:347-366 | under a single root at depth at most 0, a new range becomes the root's last child and passes through when its own flag or the root's is set |
| ProjectStructure.OpenUnderOnlyChild | src/projectStructure.js:347-366 | at depth 1 under a root with one leaf child, a new range becomes that child's only child and passes through when its own flag or the child's is set |
| ProjectStructure.AddressFlagRun | src/projectStructure.js:375-385 | for any ids and bounds, an address added under a flagged range passes through although its own argument says it does not |
| ProjectStructure.InheritedRangeFlagRun | src/projectStructure.js:347-366 | for any ids and bounds, a range two levels below a flagged range passes through |
| ProjectStructure.SiblingFlagRun | src/projectStructure.js:347-372 | for any ids and bounds, a range opened after a flagged sibling was closed does not inherit from that sibling |
| ProjectStructure.UnassignedDevicesRun | src/projectStructure.js:99-165 | a device read between start and stop goes to the unassigned devices, and the next parameter reference still goes to the last line's device |
| ProjectStructure.SecondTopLevelRangeRun | src/projectStructure.js:320-366 | for any ids and bounds, a second top-level range becomes a child of the first |
| ParsedProject.NormalizedLineAddressLength | src/parsedProject.js:374-378 | a line address other than "" reads with at least two characters after normalising |
| ParsedProject.LineAddressStable | src/parsedProject.js:374-378 | a normalised line address is not rewritten again, whatever the area address |
| ParsedProject.DeviceAddressStable | src/parsedProject.js:380-385 | under a line address of two or more characters, a normalised device address is not rewritten again |
| ParsedProject.LineIdempotent | src/parsedProject.js:374-385 | normalising a line twice is normalising it once |
| ParsedProject.NormalizeIdempotent | src/parsedProject.js:370-389 | normalising a topology twice is normalising it once when no line address is "" |
| ParsedProject.NormalizeNotIdempotentForEmptyLineAddress | src/parsedProject.js:374-385 | with an empty line address, a device "1" becomes ".1" and then "..1" |
| ParsedProject.NormalizeSingleDigitAddresses | src/parsedProject.js:374-385 | area "1", line "1" and device "1" become "1.1" and "1.1.1", and stay so |
| ParsedProject.NormalizeTopology | src/parsedProject.js:370-389 | normalising changes only line and device addresses under the areas; area fields, every other line and device field, and the unassigned devices are untouched |
| ParsedProject.GetBuildingParts | src/parsedProject.js:120-151 | keeps the nodes or strips their sub-part lists as asked; the list is the flattening of the forest with one entry per node, and with `keep` every building part of the forest appears exactly once |
| ParsedProject.GetGroupAddresses | src/parsedProject.js:187-206 | every group address of every range appears exactly once |
| ParsedProject.InProducts | src/parsedProject.js:231-250 | a product view is listed exactly when some family holds that product, paired with that family's information |
| ParsedProject.InDevicesOf | src/parsedProject.js:93-104 | a device is listed exactly when some line holds it, so unassigned devices are never listed |
| ParsedProject.Document.constructor | src/parsedProject.js:370-395 | the parsed project is the given project with its topology normalised |
| ParsedProject.Document.ResolveDeviceAddresses | src/parsedProject.js:370-389 | the nested loops rewrite the topology to its normal form and change nothing else |
| ParsedProject.Document.GetLines | src/parsedProject.js:63-73 | the loop yields the lines of all areas in order |
| ParsedProject.Document.GetDevices | src/parsedProject.js:93-104 | the loop yields the devices of all lines in order |
| ParsedProject.Document.GetProducts | src/parsedProject.js:231-250 | the nested loop yields every product of every family with that family's information |
| JsonPath.ArrayIndex | src/parsedProject.js:10-30 | a property name read as an array index is a non-empty string of digits |
| JsonPath.DecimalStringLeadingDigit | src/parsedProject.js:10-30 | the spelling of a positive number has no leading zero |
| JsonPath.ArrayIndexOfDecimal | src/parsedProject.js:10-30 | the spelling of a number is the array index it names |
| JsonPath.Get | src/parsedProject.js:10-30 | a property of an object is undefined exactly when it is absent or undefined; a property of a boolean or number is undefined |
| JsonPath.GetValByKey | src/parsedProject.js:10-30 | the loop walks the path from its first key and stops at the first falsy value |
| JsonPath.WalkConcat | src/parsedProject.js:10-30 | walking a path in two pieces is walking the whole path |
| JsonPath.SingleKeyPath | src/parsedProject.js:10-30 | a path of one key reads what the bare key reads |
| JsonPath.PathExtension | src/parsedProject.js:10-30 | one more key steps into the value reached so far, unless that value is falsy |
| JsonPath.ReadFirstAreaAddress | src/parsedProject.js:10-30 | `["topology", "areas", "0", "address"]` reads the first area's address, and a missing key gives undefined |
| Sax.Attribute | src/etsProjParser.js:174-313 | an attribute is defined exactly when the element carries it |
| Sax.NestingConcat | src/etsProjParser.js:316-330 | opens minus closes over two stretches add up |
| Sax.ElementNesting | src/etsProjParser.js:316-330 | a well-nested element does not change the nesting of any name |
| Sax.NestingOneMore | src/etsProjParser.js:316-330 | reading one more event moves the nesting of a name by that event alone |
| Sax.LastAttributeConcat | src/productInformationParser.js:74-86 | a variable set on each element with a given name, read over two stretches, carries the first stretch's value into the second |
| Sax.LastAttributeSkips | src/productInformationParser.js:74-86 | stretches without such an element leave the variable as it was |
| KnxMasterParser.GateOpenExactlyInsideResource | src/knxMasterXMLParser.js:32-154 | starting closed, the gate is open exactly when a `Resource` element was opened and not closed since |
| KnxMasterParser.ClassifyResource | src/knxMasterXMLParser.js:111-118 | only the name "Resource" selects the resource handler |
| KnxMasterParser.WithFeature | src/knxMasterXMLParser.js:96-107 | a known feature name sets exactly its own field of the mask version and keeps the id, resources and compatible masks |
| KnxMasterParser.Located | src/knxMasterXMLParser.js:123-129 | a location writes `AddressSpace`, `PtrResource` and `parseInt(StartAddress) \|\| undefined`, and keeps the resource's name, access, length and flavour |
| KnxMasterParser.WrittenOnlyMasterTables | src/knxMasterXMLParser.js:41-146 | whatever the element, the open-tag listener writes only the master-data tables |
| KnxMasterParser.ResourceAddedBecomesLast | src/knxMasterXMLParser.js:111-118 | a resource goes at the end of the last mask version's resources: earlier mask versions and resources stay, and the new one, with the element's `Name` and `Access`, is the last resource that type, rights and location elements write |
| KnxMasterParser.MasterEventsOneMore | src/knxMasterXMLParser.js:41-154 | handling one more event is one more step of the listeners |
| KnxMasterParser.MasterEventsGate | src/knxMasterXMLParser.js:32-154 | after events handled without an exception, the gate is open exactly as `GateAfter` says and only the master tables changed |
| KnxMasterParser.MasterListener.constructor | src/knxMasterXMLParser.js:32 | the gate starts closed |
| KnxMasterParser.MasterListener.OnOpenTag | src/knxMasterXMLParser.js:41-146 | opens the gate on `Resource`; throws exactly when the entry or resource written to is missing, and then changes nothing; otherwise the tables become what the element writes: an entry appended to its table, a subtype or compatible mask on the last entry, a known feature's field, a new last resource, its type or rights, or its location while the gate is open; unknown elements, unknown features and locations outside a resource change nothing |
| KnxMasterParser.MasterListener.OnTableEntry | src/knxMasterXMLParser.js:43-93 | manufacturers, datapoint types, medium types and mask versions are appended to their tables, subtypes to the last datapoint type and compatible masks to the last mask version; throws, changing nothing, exactly when that last entry is missing |
| KnxMasterParser.MasterListener.AddLookupEntry | src/knxMasterXMLParser.js:43-89 | a manufacturer, datapoint type (with no subtypes), medium type or mask version (with the element's `Id` and no resources or compatible masks) is appended to its own table, and nothing else changes |
| KnxMasterParser.MasterListener.AddDatapointSubtype | src/knxMasterXMLParser.js:61-68 | throws, changing nothing, exactly when there is no datapoint type; otherwise appends the subtype to the last type's subtypes |
| KnxMasterParser.MasterListener.AddCompatibleMask | src/knxMasterXMLParser.js:91-93 | throws, changing nothing, exactly when there is no mask version; otherwise appends the element's `RefId` to the last mask version's compatible masks |
| KnxMasterParser.MasterListener.OnFeature | src/knxMasterXMLParser.js:95-109 | the three known feature names set their own field of the last mask version from `parseInt(Value)`; other names change nothing |
| KnxMasterParser.MasterListener.SetFeature | src/knxMasterXMLParser.js:96-107 | throws, changing nothing, exactly when there is no mask version, and otherwise sets the field the name selects on the last one |
| KnxMasterParser.MasterListener.OnResourcePart | src/knxMasterXMLParser.js:111-144 | `Resource` opens the gate and appends a resource to the last mask version; `ResourceType` and `AccessRights` write the last resource whether or not the gate is open; throws, changing nothing, exactly when the entry is missing |
| KnxMasterParser.MasterListener.AddResource | src/knxMasterXMLParser.js:111-118 | throws, changing nothing, exactly when there is no mask version; otherwise appends a new resource with the element's `Name` and `Access` to the last mask version's resources |
| KnxMasterParser.MasterListener.WriteResourceType | src/knxMasterXMLParser.js:134-139 | throws, changing nothing, exactly when there is no resource; otherwise the last resource gets `parseInt(Length)` and `Flavour` |
| KnxMasterParser.MasterListener.WriteAccessRights | src/knxMasterXMLParser.js:141-144 | throws, changing nothing, exactly when there is no resource; otherwise the last resource gets `Read` and `Write` |
| KnxMasterParser.MasterListener.OnLocation | src/knxMasterXMLParser.js:120-132 | a location is written only while the gate is open |
| KnxMasterParser.MasterListener.WriteLocation | src/knxMasterXMLParser.js:122-130 | throws, changing nothing, exactly when there is no resource; otherwise the last resource becomes `Located` of it |
| KnxMasterParser.MasterListener.OnCloseTag | src/knxMasterXMLParser.js:148-154 | closing `Resource` closes the gate; other closes leave it |
| KnxMasterParser.MasterListener.Feed | src/knxMasterXMLParser.js:41-154 | one event moves the tables and the gate by one `MasterStep`; a throwing open tag changes no table |
| KnxMasterParser.ParseKnxMasterFile | src/knxMasterXMLParser.js:22-166 | returns no error only when the stream ended, and the stream's error when it failed; the tables end as the listeners' fold over the events handled, from a closed gate, and the gate ends open exactly inside a `Resource` element; a handler that throws stops the pass at an open tag; only master tables change |
| EtsProjParser.ClassifyNestingNames | src/etsProjParser.js:263-330 | only "BuildingPart", "GroupRange" and "UnassignedDevices" select their handlers |
| EtsProjParser.GroupRangeAddedIsCurrent | src/etsProjParser.js:293-300 | the range a `GroupRange` element adds is the current range one level down, empty, with the element's `Id` and `Name`, and passes through exactly when `strBool(Unfiltered)` says so or its parent passes through |
| EtsProjParser.WrittenKeepsOtherRanges | src/etsProjParser.js:174-291 | only a range or an address changes the group-address tree |
| EtsProjParser.WrittenKeepsFlags | src/etsProjParser.js:293-311 | every accepted open tag keeps the pass-through flags inherited down the group-address tree |
| EtsProjParser.OnTopologyTag | src/etsProjParser.js:179-219 | throws, changing nothing, exactly when the line or area written to is missing; otherwise an area is appended, a line is appended to the last area, or the device record read from the element goes to the last line or to the unassigned devices; the assignment flag turns off on `UnassignedDevices` |
| EtsProjParser.OnDeviceInstance | src/etsProjParser.js:199-219 | a device is accepted exactly when devices are unassigned or a line exists, and a rejected one changes nothing; an accepted one, with its ids, addresses and `strBool` flags read from the element, is appended to the last line or to the unassigned devices |
| EtsProjParser.OnDeviceDetailTag | src/etsProjParser.js:221-260 | throws, changing nothing, exactly when the device, reference or connector written to is missing; otherwise sets the last device's security, appends a parameter or communication-object reference (with `strBool` flags), gives the last reference an empty connector, or appends a send or receive group address to that connector |
| EtsProjParser.OnSecurity | src/etsProjParser.js:221-225 | the last device's security becomes the element's `parseInt(SequenceNumber)` and timestamp exactly when there is a last device; otherwise nothing changes |
| EtsProjParser.OnParameterInstanceRef | src/etsProjParser.js:227-231 | the element's parameter reference is appended to the last device exactly when there is one; otherwise nothing changes |
| EtsProjParser.OnComObjectInstanceRef | src/etsProjParser.js:233-246 | the element's communication-object reference, with its `strBool` flags and no connectors, is appended to the last device exactly when there is one; otherwise nothing changes |
| EtsProjParser.OnBuildingTag | src/etsProjParser.js:263-291 | throws, changing nothing, exactly when the current part (or its last function) is missing; otherwise a building part is added as a root or under the current part and the depth rises by one, or a device reference, function or group address reference is appended to the current part |
| EtsProjParser.OnBuildingPart | src/etsProjParser.js:263-269 | a part is added exactly when it is a `Building` or the current part exists: a `Building` becomes a new root, any other part the last child of the current part, with the element's attributes and nothing below it; the depth rises by one and the tree by one node; otherwise nothing changes |
| EtsProjParser.OnDeviceInstanceRef | src/etsProjParser.js:271-273 | the element's device reference is appended to the current part exactly when it exists; otherwise nothing changes |
| EtsProjParser.OnFunction | src/etsProjParser.js:275-280 | a function with the element's attributes and no references is appended to the current part exactly when it exists; otherwise nothing changes |
| EtsProjParser.OnGroupAddressRef | src/etsProjParser.js:282-288 | the element's group address reference is appended to the current part's last function exactly when both exist; otherwise nothing changes |
| EtsProjParser.OnGroupTag | src/etsProjParser.js:293-313 | throws, changing nothing, exactly when the range written to is missing; otherwise a range is added at the insertion point with the flag `strBool(Unfiltered)` or its parent's, and the range depth rises by one, or an address is appended to the current range |
| EtsProjParser.OnGroupRange | src/etsProjParser.js:293-300 | a range is added exactly when the insertion point exists, with the element's attributes and the flag `strBool(Unfiltered)` or its parent's; then the depth rises by one; the flags stay inherited |
| EtsProjParser.OnGroupAddress | src/etsProjParser.js:302-311 | an address is added to the current range exactly when there is one, carrying that range's flag and `strBool(Central)`; the flags stay inherited |
| EtsProjParser.OnOpenTag | src/etsProjParser.js:174-313 | the listener throws exactly when the element it writes to is missing, and then changes nothing; otherwise the project becomes what the element's tag writes (`Written`); unknown elements change nothing; the depths and the assignment flag move as the tag says |
| EtsProjParser.OnCloseTag | src/etsProjParser.js:316-330 | closing a building part or a range lowers its depth by one; closing `UnassignedDevices` turns the assignment flag on |
| EtsProjParser.AssignedAfterSkips | src/etsProjParser.js:194-199 | events that neither open nor close `UnassignedDevices` leave the assignment flag alone |
| EtsProjParser.UnassignedSection | src/etsProjParser.js:194-199 | devices read inside an `UnassignedDevices` element are unassigned whatever came before, and are assigned again after its close |
| EtsProjParser.ReadOneMore | src/etsProjParser.js:194-330 | reading one more event moves the building and range nesting by that event alone, and sets the assignment flag only on an `UnassignedDevices` tag |
| EtsProjParser.HandleEventsOneMore | src/etsProjParser.js:174-330 | handling one more event is one more step of the listeners |
| EtsProjParser.HandleEventsCursor | src/etsProjParser.js:194-330 | over events handled without an exception, the depths move by the opens minus the closes of `BuildingPart` and `GroupRange`, and the assignment flag is the one the last `UnassignedDevices` tag left |
| EtsProjParser.HandleEventsKeepsFlags | src/etsProjParser.js:293-311 | events handled without an exception keep the pass-through flags inherited |
| EtsProjParser.Feed | src/etsProjParser.js:174-330 | one event moves the project, the depths and the assignment flag by one step of the listeners; a throwing open tag changes nothing |
| EtsProjParser.ParseProjectFile | src/etsProjParser.js:158-345 | returns the stream's error or the position of the handler that threw; the project and the cursors end as the listeners' fold over the events handled says; the depths end at their start plus opens minus closes of `BuildingPart` and `GroupRange`; the assignment flag is the one the last `UnassignedDevices` tag left; the flags stay inherited |
| EtsProjParser.Construct | src/productInformationParser.js:12-21 | `new` gives the parser exactly when discovery found files |
| EtsProjParser.StageAsWritten | src/etsProjParser.js:361 | as written, the stage throws exactly when discovery failed, and otherwise returns the pass's result |
| EtsProjParser.DiscoveryErrorIsLost | src/etsProjParser.js:361 | as written, a failed hardware discovery is not returned as the stage's error |
| EtsProjParser.StageError | src/etsProjParser.js:361-368 | as intended, a stage fails exactly when discovery or the pass failed, with the discovery error first |
| EtsProjParser.Chain | src/etsProjParser.js:355-371 | the application stage is in the chain exactly when asked for |
| EtsProjParser.ReadProjectFile | src/etsProjParser.js:360 | the project-data stage starts from a fresh builder; without an error the project is the listeners' fold over all the events, with its flags inherited |
| EtsProjParser.ParseLaterStages | src/etsProjParser.js:361-370 | the stages after the project data run in order, stopping at the first error; a parsed project is the master file's fold over the earlier project, with its topology normalised |
| EtsProjParser.Parse | src/etsProjParser.js:355-371 | the stages run in order and the first error is returned as it is; the stages run are a prefix of the chain ending at the failing one; the application stage runs only when asked for; a parsed project had no error anywhere, is the master-file fold over the project-file fold, with its topology normalised, and has its flags inherited |
| ProductInformationParser.ClassifyNames | src/productInformationParser.js:84-90 | only "Manufacturer" and "Hardware" select their handlers |
| ProductInformationParser.FamilyEntry | src/productInformationParser.js:93-111 | a family carries the element's `Id`, the given manufacturer and the `strBool` flags, with no products and no application reference |
| ProductInformationParser.Identities | src/productInformationParser.js:93-111 | one identity per family, in order |
| ProductInformationParser.WithLastKeepsIdentities | src/productInformationParser.js:116-127 | completing the newest family leaves every family's id and manufacturer as they were |
| ProductInformationParser.HardwareListener.constructor | src/productInformationParser.js:74 | the current manufacturer starts undefined |
| ProductInformationParser.HardwareListener.OnOpenTag | src/productInformationParser.js:83-131 | `Manufacturer` sets the current manufacturer; `Hardware` with attributes appends its family under the current manufacturer, and without attributes adds nothing; `Product` appends to the last family; `ApplicationProgramRef` overwrites the last family's application reference with `RefId`; other elements change nothing; only the product table changes; the handler throws exactly when `Product` or `ApplicationProgramRef` finds no family |
| ProductInformationParser.ParseHardwareInformationFile | src/productInformationParser.js:71-141 | the families a file adds are, in order, its `Hardware` elements with attributes, each with the `RefId` of the last `Manufacturer` before it; it returns the stream's error, or stops where a handler threw; only the product table changes |
| ProductInformationParser.EmptyHardwareSkipped | src/productInformationParser.js:90-92 | a `Hardware` element without attributes adds no family |
| ProductInformationParser.FamiliesWithoutManufacturer | src/productInformationParser.js:74-111 | without a `Manufacturer` element every family keeps the starting manufacturer, which is undefined for a file |
| ProductInformationParser.FamiliesConcat | src/productInformationParser.js:83-131 | a file read in two pieces adds the first piece's families, then the second's under the manufacturer the first left |
| ProductInformationParser.ManufacturerStampsFollowingFamilies | src/productInformationParser.js:85-111 | every family after a `Manufacturer` element, with no other one between, carries its `RefId` |
| ApplicationInformationParser.ProgramEntry | src/applicationInformationParser.js:106-114 | an entry carries the element's `Id`, `parseInt(ApplicationNumber)` and the given manufacturer |
| ApplicationInformationParser.ClassifyNames | src/applicationInformationParser.js:101-106 | only "Manufacturer" and "ApplicationProgram" select their handlers |
| ApplicationInformationParser.ApplicationListener.constructor | src/applicationInformationParser.js:91 | the manufacturer starts undefined |
| ApplicationInformationParser.ApplicationListener.OnOpenTag | src/applicationInformationParser.js:100-116 | `Manufacturer` sets the manufacturer; `ApplicationProgram` appends one entry under it; other elements change nothing; only the application table changes |
| ApplicationInformationParser.Feed | src/applicationInformationParser.js:100-116 | an event adds an entry exactly when it opens `ApplicationProgram`, and moves the manufacturer exactly when it opens `Manufacturer` |
| ApplicationInformationParser.ParseApplicationInformationFile | src/applicationInformationParser.js:83-127 | the table grows by exactly the entries of the file's `ApplicationProgram` elements, in order; it returns the stream's error exactly when there is one |
| ApplicationInformationParser.ReadOneMore | src/applicationInformationParser.js:100-116 | reading one more event adds at most that event's entry and moves the manufacturer only on a `Manufacturer` element |
| ApplicationInformationParser.ProgramsSnoc | src/applicationInformationParser.js:106-114 | one event appended to a stretch adds at most its own entry, under the manufacturer the stretch left |
| ApplicationInformationParser.ProgramsCount | src/applicationInformationParser.js:106-114 | a file adds one entry per `ApplicationProgram` element |
| ApplicationInformationParser.ProgramsConcat | src/applicationInformationParser.js:100-116 | a file read in two pieces adds the first piece's entries, then the second's under the manufacturer the first left |
| ApplicationInformationParser.ProgramsWithoutManufacturer | src/applicationInformationParser.js:91-114 | without a `Manufacturer` element every entry keeps the starting manufacturer, which is undefined for a file |
| ApplicationInformationParser.SingleManufacturerFile | src/applicationInformationParser.js:102-114 | a file that starts with one `Manufacturer` element stamps its `RefId` on every entry, one entry per program |

## Findings

| source | as written | input that shows it | evidently intended | confidence | as-written member | corrected member |
|---|---|---|---|---|---|---|
| src/etsProjParser.js:361 | The constructor of `ProductInformationParser` returns the discovery result (src/productInformationParser.js:21). When discovery fails, that result is an `Error` object, so `new` evaluates to the Error. The call to `parseHardwareInformationFiles` on it then throws a TypeError. | a workdir with no `M-*` folder holding `Hardware.xml` | `parse` returns the discovery error like every other stage error | high (JavaScript semantics of `new`), not executed | EtsProjParser.StageAsWritten, EtsProjParser.DiscoveryErrorIsLost | EtsProjParser.Parse |
| src/etsProjParser.js:366 | The same holds for `ApplicationInformationParser` (src/applicationInformationParser.js:26) when no application file is found. | vendor folders with no file whose name starts with `M-`, with application parsing asked for | `parse` returns the discovery error | high (JavaScript semantics of `new`), not executed | EtsProjParser.StageAsWritten, EtsProjParser.DiscoveryErrorIsLost | EtsProjParser.Parse |

## Left out

- Extracting the archive, finding the project and vendor folders, discovering the hardware and application files, and opening the streams are left out; they are file-system I/O. `Parse` takes each stage's discovery error and its pass result as inputs.
- The multi-file loops over the hardware and application files start every stream at once and resolve on the first end or error. That is concurrency. Only the per-file passes are modelled, and `Parse` takes these two stages' results as inputs.
- The project-information pass (`parseProjectInformation`) and `addInformationToProject` only copy fields into the project; `Parse` takes that stage's result as an input.
- `exportToJson`, reloading a project from JSON, and the deep copy through `JSON.stringify` are left out; they are I/O, and values in this model are already copies.
- `parseFloat` on `BusCurrent` is floating point. The attribute string is kept as it is.
- The `get…ByKey` filters, `getFunctions`, `getDatapointSubTypes` and the getters that only return one table are left out; they select data that is already assembled.
- An exception thrown by a listener is not caught by the source; it escapes the stream callback. The model stops the pass at that event and reports its position (`HandlerThrew`), with the project as the earlier events left it.
- `ParsedProject.Document.ResolveDeviceAddresses`: the normaliser's `.length <= 1` tests count characters, where JavaScript counts UTF-16 code units; the two differ only for a one-character address outside the Basic Multilingual Plane, which JavaScript keeps and the model rewrites.
- `ParsedProject.Document.constructor`: the same character-versus-UTF-16 difference in the normaliser it runs.
- `JsValues.ParseDecimalDigits`: the value is an exact integer at every length; JavaScript's `parseInt` returns a double, which rounds above 2^53 (`parseInt("9007199254740993")` is 9007199254740992).
- `JsValues.ParseIntDigits`: the same exact-integer reading; it agrees with JavaScript up to 2^53.
- `JsValues.ParseIntDecimal`: the round trip holds on exact integers; in JavaScript it fails above 2^53.
- `JsonPath.Get`: string lengths count characters, not UTF-16 code units, and properties inherited from prototypes are not modelled.
- `EtsProjParser.Parse` labels each error with its stage; the source returns only the error value.
- The closing handlers lower a depth without a check, so an unbalanced document can drive a depth below -1. The model follows the source and keeps the depth as an unbounded integer.
- The depth counters start at -1, and the walk treats -1 like 0. A second top-level building part (of a type other than `Building`) or a second top-level group range is therefore nested under the first root. The model keeps this behaviour (`Forest.SecondTopLevelNodeNested`, `ProjectStructure.SecondTopLevelRangeRun`).
- `strBool` appears twice in the source (src/etsProjParser.js:38-40 and src/productInformationParser.js:25-27) with the same body; the model has one `JsValues.StrBool`.
