# Proofs about libdxfrw's DWG and DXF core

This project models five components of libdxfrw and proves what their callers rely on. Untrusted binary or graph
data goes in, and validated structure that can be written again comes out.

- **DataStorage reader** (`src/drw_datastorage.cpp`): the fail-soft parser of the DWG section
  `AcDb:AcDsPrototype_1b` (Open Design Specification for .dwg files, section 24). Modules `DataStorage*`.
- **ACIS SAB decoder** (`src/drw_acis.cpp`): bit-shifted signature search, the tag stream, pointer resolution and the
  cycle-guarded walks. Modules `Acis*`.
- **HEADER codec** (`src/drw_header.cpp`): encoder and parser of the DWG header variables over data, handle and string
  streams (the same specification, section 9). Modules `Header*`.
- **Export preflight** (`dwg2dxf/dx_iface.cpp`): the extension-object graph, proxy and typed history closures, class
  ordinals, the ACDSDATA projection and the handle plan. Modules `ExtensionGraph`, `ProxyObjects`, `ProxyHistory`,
  `ClassOrdinals`, `BoxHistory`, `AcdsGroups`, `AcdsSection`,
  `AcdsParsed`, `HandleRemap`.
- **Handle allocator** (`src/handle_allocator.h`). Module `HandleAllocators`.

`Words`, `Text`, `Lists`, `Handles`, `Formats` and `HexChunks` are shared: machine words and byte order, decimal and
hexadecimal text, lists without repetition, items by handle, and formats with their inverse laws.

Code that moves a cursor, fills vectors or rewrites fields is a class or a method with loops, each proved against a
function of its input; the laws of these functions are lemmas. Doubles are eight opaque bytes in the SAB stream and
reals in the header. Integer widths, casts and overflow checks are written out.

Where the code and its own words differ, the code is followed:

- the type of a SAB record is its first entity type that is not empty (the comment speaks of the first one);
- a SAB signature at a bit offset may use the zero bits that `peekBitAlignedByte` supplies behind the data;
- encoding a parsed header does not always give the first encoding back: from R2004 on a colour index above 256 comes
  back as 256, and the law holds exactly without such an index (`HeaderSection.HeaderReencodes`);
- from R2007 on the parser moves its handle buffer to the position that the size preamble names. If that buffer is
  also the data buffer, as its parameters allow, the data cursor moves with it: parsing an encoded header then fails
  exactly if the seek passes over any token (`HeaderSection.HeaderRoundTrip`). With buffers of their own, and up to
  R2004 also with a shared one, the round trip holds;
- an extension graph with a back-reference into its own container is accepted or refused depending on which node is
  entered first (`ExtensionGraph.OrderDecides`). In general the preflight therefore succeeds exactly as its reference
  walk does; containment among what it accepts is always ordered, it accepts every graph that is not broken, and
  where no back-reference is followed it accepts no other (`ExtensionGraph.PrepareExtensionObjectGraph`).

`dafny verify dfyconfig.toml` checks the whole project.

## Model

| member | source | states |
|---|---|---|
| `HandleAllocators.RunKeepsHighWater` | src/handle_allocator.h:82-135 | over every run of reservations, mintings and resets the next candidate is max(0x30, 1 + largest reserved or minted handle), the last 32-bit handle excepted |
| `HandleAllocators.MintedHandlesAreFreshAndIncreasing` | src/handle_allocator.h:96-109 | between resets minted handles strictly increase and none was reserved or minted before |
| `HandleAllocators.ResetEqualsFreshAllocator` | src/handle_allocator.h:115-125 | a reset allocator equals a new one given the same reservations in any order |
| `HandleAllocators.HandleAllocator.Reserve` | src/handle_allocator.h:82-92 | the reservation, and its overflow exception for the last handle, as one step of the state machine |
| `HandleAllocators.HandleAllocator.Next` | src/handle_allocator.h:97-109 | the least handle above everything known; the skip loop takes no step; exhaustion is reported |
| `HandleAllocators.HandleAllocator.ResetGenerated` | src/handle_allocator.h:115-125 | minted handles are forgotten and the candidate falls back to the high-water mark of the reservations |
| `HandleRemap.ReserveSources` | dwg2dxf/dx_iface.cpp:1998-2054 | the reservations succeed exactly if no claimed handle is repeated, zero where zero is refused, or the last one; then exactly the listed handles are added |
| `HandleRemap.MintReplacements` | dwg2dxf/dx_iface.cpp:2056-2080 | each listed fixed handle gets one replacement; the remap stays injective and outside everything taken; it stops only when the allocator is exhausted |
| `HandleRemap.PlanHandles` | dwg2dxf/dx_iface.cpp:1998-2081 | the remap has exactly the listed fixed handles as keys, is injective, and avoids every earlier, kept or canonical low handle; failure means unacceptable lists or exhaustion |
| `HandleRemap.RenameIsInjective` | dwg2dxf/dx_iface.cpp:2056-2081 | after renaming, distinct reserved or fixed handles are still distinct |
| `DataStorage.CheckedAdd` | src/drw_datastorage.cpp:187-192 | a sum of offsets is given exactly if it does not wrap at 64 bits |
| `DataStorage.CheckedMultiply` | src/drw_datastorage.cpp:194-201 | a product is given exactly if it does not wrap at 64 bits |
| `DataStorage.IsRangeWithin` | src/drw_datastorage.cpp:203-206 | the subtraction form of the test means offset + size <= limit over the integers |
| `DataStorage.RoundsToLeastMultiple` | src/drw_datastorage.cpp:208-213 | rounding gives the least multiple of sixteen not below n and fails exactly when n + 15 wraps |
| `DataStorage.CapCount` | src/drw_datastorage.cpp:253-273 | the largest entry count within the declaration, the bytes that remain and the hard ceiling |
| `DataStorageSegments.ReadSlot` | src/drw_datastorage.cpp:319-420 | under the capped count every field of the entry is in bounds, so the truncation branch never runs; the decoded segment is the one the table describes |
| `DataStorageSegments.AppendSlot` | src/drw_datastorage.cpp:386-442 | the segment is appended and the section stays sound exactly if its bounds hold and no earlier header stored its index |
| `DataStorageSegments.ReadSegmentIndex` | src/drw_datastorage.cpp:275-445 | the section gains exactly the segment table, and is sound exactly if extent, slots and header indexes are |
| `DataStorageSegments.SegmentTableIsDense` | src/drw_datastorage.cpp:312-442 | slot i of the table has index i |
| `DataStorageSegments.KnownKindsHaveDistinctOffsets` | src/drw_datastorage.cpp:386-422 | no two slots with an accepted identity share an offset, because one header stores one index |
| `DataStorageDataIndex.KeptTargetsAreDistinct` | src/drw_datastorage.cpp:506-541 | no two kept index entries share segment and local offset |
| `DataStorageDataIndex.KeptTargetsAreComplete` | src/drw_datastorage.cpp:506-541 | every target of the raw index is kept, and nothing else |
| `DataStorageDataIndex.KeySeenIffTargetSeen` | src/drw_datastorage.cpp:506-541 | the text key seg:offset was seen exactly if the target was |
| `DataStorageDataIndex.ReadDataIndex` | src/drw_datastorage.cpp:455-543 | the entries are the first occurrences of the entries of the located table, with the soundness the reader reports |
| `DataStorageBlobs.PagesArePlaced` | src/drw_datastorage.cpp:1297-1440 | every accepted page lies in its own blob segment and starts where the earlier pages end |
| `DataStorageBlobs.AcceptedTotal` | src/drw_datastorage.cpp:1386-1429 | a non-empty accepted blob is (pages - 1) * pageSize + lastPageSize bytes long |
| `DataStorageBlobs.AssembledPage` | src/drw_datastorage.cpp:1443-1458 | page k of the assembled payload is the bytes of that page, at the sum of the earlier lengths |
| `DataStorageBlobs.CheckPages` | src/drw_datastorage.cpp:1343-1429 | the page loop accepts exactly the pages that each pass on their own and add up to the declared total |
| `DataStorageBlobs.CollectPayload` | src/drw_datastorage.cpp:1443-1458 | the copied payload is the concatenation of the page bytes, none of them cut short |
| `DataStorageRecords.PackedRun` | src/drw_datastorage.cpp:1154-1173 | the packed-header count is the length of a run of recognised headers that no further one continues; every position has one |
| `DataStorageRecords.CountPackedRecordHeaders` | src/drw_datastorage.cpp:1154-1173 | the counting loop computes that run |
| `DataStorageRecords.FindMarker` | src/drw_datastorage.cpp:33-53 | the least position of the SAB marker in a payload, or none |
| `DataStorageRecords.CacheStaysSound` | src/drw_datastorage.cpp:1227-1247 | a region cached under its offset alone equals the region of whatever data segment asks for that offset |
| `DataStorageRecords.ReadEntry` | src/drw_datastorage.cpp:1186-1520 | with a sound cache, an entry decodes as it does on its own, and the cache stays sound |
| `DataStorageRecords.RetainedBlob` | src/drw_datastorage.cpp:1297-1480 | a blob descriptor lies in its segment and its declared total is (pages - 1) * page size + last page; a retained payload is the concatenation of its pages, each starting at the sum of the earlier lengths |
| `DataStorageRecords.KeptPayloadIsSound` | src/drw_datastorage.cpp:1297-1516 | of every entry that is kept: data bounds within segment and buffer, the plain payload as that slice or the blob payload as its pages, and the marker position |
| `DataStorageRecords.ProcessTakesFirst` | src/drw_datastorage.cpp:1175-1521 | the loop with its skips and cap yields the first maxRecords of the records that the entries decode to one by one |
| `DataStorageRecords.KeptRecordNamesItsEntry` | src/drw_datastorage.cpp:1186-1296 | a record names an existing data segment, the local offset of its entry, and its handle in hexadecimal |
| `DataStorageRecords.RecordTargetsAreDistinct` | src/drw_datastorage.cpp:1175-1521 | no two records share segment and local offset |
| `DataStorageRecords.ReadDataRecords` | src/drw_datastorage.cpp:1175-1521 | the section gains exactly those records and is sound exactly if none was dropped |
| `DataStorageRecordIndex.PositionsPartition` | src/drw_datastorage.cpp:1542-1607 | the grouped lists hold every position of their key, ascending |
| `DataStorageRecordIndex.ChosenIsEarliestGreatest` | src/drw_datastorage.cpp:1523-1540 | the preferred record is the lexicographically greatest by (has revision, revision, data offset, segment), the earliest of equals |
| `DataStorageRecordIndex.TextAgrees` | src/drw_datastorage.cpp:180-185 | the index by handle and the index by hexadecimal text agree |
| `DataStorageRecordIndex.RepeatedIsExact` | src/drw_datastorage.cpp:1582-1598 | the duplicate list holds exactly the keys with two or more records |
| `DataStorageRecordIndex.RepeatedHasNoDuplicates` | src/drw_datastorage.cpp:1582-1598 | and each of them once |
| `DataStorageRecordIndex.BuildRecordIndex` | src/drw_datastorage.cpp:1542-1609 | all five indexes are exact; only a record count beyond an int is refused |
| `DataStorageSchemas.SchemaRoundTrip` | src/drw_datastorage.cpp:892-1074 | encoding any well-formed schema and decoding it gives the schema back and stops at the encoded length |
| `DataStorageSchemas.SchemaReencodes` | src/drw_datastorage.cpp:892-1074 | what decodes is well formed and encodes to the bytes it came from |
| `DataStorageSchemaReader.SchemaIsReadIffEncoded` | src/drw_datastorage.cpp:892-1074 | the reader yields a schema at a reference exactly if its encoding stands there within the segment |
| `DataStorageSchemaReader.ReadProperties` | src/drw_datastorage.cpp:923-1060 | the property loop agrees with the format at every cursor, never passing the end |
| `DataStorageSchemaReader.ReadSchema` | src/drw_datastorage.cpp:892-1074 | the reader returns what stands at the reference, and reports unsound names, truncation and empty schemas |
| `DataStorageSchemaIndex.ReadTables` | src/drw_datastorage.cpp:611-722 | the two reference tables of a schema index, each cut to what fits |
| `DataStorageSchemaIndex.ReadSchemaIndex` | src/drw_datastorage.cpp:590-723 | the section gains exactly the references of the located segment |
| `DataStorageSchemaData.ReadSchemaNames` | src/drw_datastorage.cpp:725-783 | the names are the longest run of terminated texts within count and end |
| `DataStorageSchemaData.ReferencedAreInBoundsAndDistinct` | src/drw_datastorage.cpp:785-890 | referenced unknown properties lie in their segment and are distinct |
| `DataStorageSchemaData.ReadUnknownProperties` | src/drw_datastorage.cpp:785-890 | referenced properties if the segment has references, else the leading ones before the first schema |
| `DataStorageSchemaData.SchemasComeFromReferences` | src/drw_datastorage.cpp:1076-1152 | a schema is in the result exactly if a reference reads as it |
| `DataStorageSchemaData.ReadSchemaData` | src/drw_datastorage.cpp:1076-1152 | names, properties and schemas of all referenced segments, each reference once |
| `DataStorageParse.ParsedDataOffsetsAreDistinct` | src/drw_datastorage.cpp:1227-1247 | after any parse no two data segments share an offset, so the region cache is sound |
| `DataStorageParse.ParsedRecordIsSound` | src/drw_datastorage.cpp:1611-1680 | every record of any parse names a data segment and an index entry, carries the text of its handle, and its data bounds and payload (in place or spread over pages) are sound |
| `DataStorageParse.ParsedRecordTargetsAreDistinct` | src/drw_datastorage.cpp:1611-1680 | no two records of any parse share a target |
| `DataStorageParse.Parse` | src/drw_datastorage.cpp:1611-1680 | for every input buffer the section holds what all stages give in order (segments, both schema tables, property names, unknown properties, schemas, entries, and sound records with exact indexes), or failed as the reader says |
| `AcisSignature.PeekedIffEmbedded` | src/drw_acis.cpp:646-652 | bytes peeked at a bit offset are s exactly if the bits of s stand there, zero bits following the data |
| `AcisSignature.SignatureMatchesIffEmbedded` | src/drw_acis.cpp:654-665 | a signature matches exactly if its bits stand at the offset and its length fits |
| `AcisSignature.FindSignature` | src/drw_acis.cpp:667-682 | the least match in (signature, bit, offset) order, and failure only if there is none |
| `AcisSignature.RealignSignature` | src/drw_acis.cpp:684-699 | the whole bytes from the bit position on |
| `AcisSignature.RealignedIsEmbedded` | src/drw_acis.cpp:684-699 | conversely, what realigning gives stands in the data at that bit position |
| `AcisSignature.RealignmentRecovers` | src/drw_acis.cpp:684-699 | a byte string embedded after whole bytes and up to seven bits comes back, exactly if nothing follows it |
| `AcisItems.TakeOfPutItem` | src/drw_acis.cpp:146-216 | every tagged item written is read back, of any tag |
| `AcisItems.PutOfTakeItem` | src/drw_acis.cpp:146-216 | every item read is well formed and was written as those bytes |
| `AcisItems.SabByteReader.ReadItem` | src/drw_acis.cpp:146-216 | the tag switch reads what the item format says, refusing negative lengths and unknown tags |
| `AcisSab.TakeOfPutRecord` | src/drw_acis.cpp:131-231 | any well-formed record written is read with the same type, tokens and subtype depths |
| `AcisSab.TakenRecordIsSound` | src/drw_acis.cpp:131-231 | a read record has balanced subtype brackets, numbered by depth, and a type |
| `AcisSab.StreamRoundTrip` | src/drw_acis.cpp:456-480 | header and any list of well-formed records decode to themselves |
| `AcisSab.AcceptedStreamIsEncoded` | src/drw_acis.cpp:456-480 | every accepted stream is the encoding of what it decodes to, followed by ignored bytes |
| `AcisSab.AcceptedStreamIsSound` | src/drw_acis.cpp:456-480 | an end marker only comes last, and the record count equals a non-negative declared one |
| `AcisSab.ReadRecord` | src/drw_acis.cpp:131-231 | the record loop over the moving reader |
| `AcisSab.ReadHeader` | src/drw_acis.cpp:105-126 | signature, four numbers, three texts and three doubles, or failure |
| `AcisSab.ReadRecords` | src/drw_acis.cpp:464-469 | records up to the end marker or the end of the data |
| `AcisSab.ParseSab` | src/drw_acis.cpp:456-480 | the parse is the decoding, and nothing for a missing buffer |
| `AcisRecords.RecordIsReadIffSound` | src/drw_acis.cpp:131-231 | a record comes out of the reader for some bytes exactly if its brackets are balanced and numbered, its type is its first non-empty name, and every token can be written |
| `AcisRecords.StreamIsDecodedIffSound` | src/drw_acis.cpp:456-480 | a header with records comes out of the decoder for some bytes exactly if header and records are sound, only the last record is an end marker and the count fits |
| `AcisRecords.ShortNameFits` | src/drw_acis.cpp:179-194 | a type name of at most 255 bytes can always be written |
| `AcisRings.BuildModel` | src/drw_acis.cpp:493-519 | a node for each record; every resolved reference lies in [-1, node count) |
| `AcisRings.RefOfType` | src/drw_acis.cpp:246-252 | the first reference whose type is or ends in the suffix |
| `AcisRings.AllOfTypeHolds` | src/drw_acis.cpp:255-262 | the list of exact-type references holds those of the type and no others, and starts with the first |
| `AcisRings.RefsOfType` | src/drw_acis.cpp:255-262 | the loop gathers that whole list, in order |
| `AcisRings.WalkFollows` | src/drw_acis.cpp:435-448 | the cycle-guarded walk follows the next table without repetition until it meets the end or itself |
| `AcisRings.WalkIsOrbit` | src/drw_acis.cpp:435-448 | the walk visits exactly the orbit of its start |
| `AcisRings.WalkCountsOrbit` | src/drw_acis.cpp:435-448 | its length is the number of distinct nodes of the orbit |
| `AcisRings.LoopCoedgeCount` | src/drw_acis.cpp:435-448 | the coedge count is the length of the orbit of the first coedge, on every pointer graph |
| `AcisRings.ReadFaceLoops` | src/drw_acis.cpp:598-614 | the loop list of a face is the repeat-free orbit of its first loop, with their coedge counts |
| `AcisDecode.EmbeddedStreamIsDecoded` | src/drw_acis.cpp:703-721 | a stream embedded at any bit offset decodes to what was encoded |
| `AcisDecode.DecodeModel` | src/drw_acis.cpp:703-721 | the least signature match alone decides; the model is that of the realigned stream |
| `HeaderTimes.SplitOfJoin` | src/drw_header.cpp:2731-2743 | a rejoined day and millisecond pair splits exactly |
| `HeaderTimes.JoinOfSplit` | src/drw_header.cpp:2731-2743 | any real time moves by at most half a millisecond |
| `HeaderCodec.VarReadsBack` | src/drw_header.cpp:2653-2728 | what one variable writes is read back as its normalised value, whatever follows on the streams |
| `HeaderCodec.ScheduleReadsBack` | src/drw_header.cpp:1936-2516 | aligned schedules of any length consume exactly the tokens written |
| `HeaderCodec.ScheduleReencodes` | src/drw_header.cpp:2746-3222 | a parsed header encodes to the same tokens exactly if every slot is stable |
| `HeaderSection.SchedulesAlign` | src/drw_header.cpp:1936-2516 | parser and encoder schedules match slot by slot, in all six versions, including the slots whose reading depends on the data |
| `HeaderSection.HeaderRoundTrip` | src/drw_header.cpp:1936-2516 | for every version, header, sharing of streams and seek, parsing consumes every written token and none is left, unless a buffer shared by data and handles is sought past any token from R2007 on; then it fails |
| `HeaderSection.HeaderReencodes` | src/drw_header.cpp:2746-3222 | whenever the encoded header parses, encode(parse(encode(h))) = encode(h) exactly if, from R2004 on, no written colour index exceeds 256 modulo 65536 |
| `HeaderSection.ReencodingCanDiffer` | src/drw_header.cpp:2108-2133 | colour 300 is a well-typed header for which it fails from R2004 on |
| `HeaderSection.VariableComesBack` | src/drw_header.cpp:1936-2516 | whenever the encoded header parses, every parsed variable has its normalised source value |
| `HeaderSection.DateComesBackClose` | src/drw_header.cpp:2881-2931 | every date of a well-typed header comes back within half a millisecond |
| `HeaderSection.LineWeightComesBackUnsigned` | src/drw_header.cpp:2403 | the default line weight -2 comes back as 65534 |
| `HeaderSection.StringStreamIsNeeded` | src/drw_header.cpp:3203-3218 | without a string stream parsing succeeds exactly up to R2004, where texts are inline, whatever it seeks |
| `HeaderSection.EncodeDwg` | src/drw_header.cpp:2746-3222 | the encoder fills its buffers with the tokens of the schedule, in the six versions and no other |
| `HeaderSection.DwgHeader.ParseDwg` | src/drw_header.cpp:1936-2516 | the parser stores what the schedule reads behind the seek, and clears the variables on failure |
| `ExtensionGraph.IndexSources` | dwg2dxf/dx_iface.cpp:1411-1436 | accepted exactly if no source handle is repeated; the maps then hold every source object |
| `ExtensionGraph.EnterKeepsSound` | dwg2dxf/dx_iface.cpp:1444-1508 | entering a node keeps the invariant of the walk |
| `ExtensionGraph.FinishKeepsSound` | dwg2dxf/dx_iface.cpp:1488-1553 | finishing a node after all it contains keeps the invariant |
| `ExtensionGraph.ContainmentIsAcyclic` | dwg2dxf/dx_iface.cpp:1493-1553 | every node finished after all its containment targets, so containment has no cycle |
| `ExtensionGraph.ExtensionWalk.VisitXRecord` | dwg2dxf/dx_iface.cpp:1444-1492 | the record is finished and listed once; failure means a broken graph; the visit is the reference walk; unentered nodes shrink |
| `ExtensionGraph.ExtensionWalk.VisitDictionary` | dwg2dxf/dx_iface.cpp:1493-1553 | the dictionary is finished after its contents; failure means a broken graph; the visit is the reference walk |
| `ExtensionGraph.ExtensionWalk.VisitLineTypes` | dwg2dxf/dx_iface.cpp:1555-1573 | success finishes every root; failure means a broken graph or a root that is no dictionary; success and lists are those of the reference walk |
| `ExtensionGraph.WalkIsComplete` | dwg2dxf/dx_iface.cpp:1438-1573 | a finished walk lists, once each, exactly the reachable dictionaries and extension records |
| `ExtensionGraph.ReactorFreeWalkIsExact` | dwg2dxf/dx_iface.cpp:1438-1573 | where no back-reference is followed, success excludes every reason for failure, so the walk decides exactly |
| `ExtensionGraph.OrderDecides` | dwg2dxf/dx_iface.cpp:1438-1573 | one graph, the same two linetypes: accepted in one order and refused in the other |
| `ExtensionGraph.CheckAnchors` | dwg2dxf/dx_iface.cpp:1575-1659 | accepted exactly if every parent and every handle value points at something known |
| `ExtensionGraph.PrepareExtensionObjectGraph` | dwg2dxf/dx_iface.cpp:1401-1665 | accepted exactly if handles are well claimed, the walk succeeds and its lists are anchored; success gives completeness and containment order; the walk succeeds on every unbroken graph with fitting roots, and on no other where no back-reference is followed |
| `HexChunks.ChunksDecode` | dwg2dxf/dx_iface.cpp:361-379 | decoding the hexadecimal chunks gives the bytes back |
| `HexChunks.ChunksFit` | dwg2dxf/dx_iface.cpp:361-379 | no chunk is empty or longer than 127 bytes, and all but the last are full |
| `HexChunks.MakeChunks` | dwg2dxf/dx_iface.cpp:361-379 | the chunk loop makes exactly these chunks |
| `ProxyObjects.MakeRawProxyObject` | dwg2dxf/dx_iface.cpp:381-484 | refused exactly if the proxy cannot be written again, else the groups of the proxy |
| `ProxyObjects.OneClassId` | dwg2dxf/dx_iface.cpp:441-443 | a written proxy has one class-identifier group, in front of its data |
| `ProxyObjects.BinaryDataDecodes` | dwg2dxf/dx_iface.cpp:444-473 | the binary groups hold graphics, object data and unknown data, in that order |
| `ProxyHistory.FoundClassIsUnique` | dwg2dxf/dx_iface.cpp:546-565 | the source class number belongs to the only entry of the class, and that entry is qualified |
| `ProxyHistory.SourceClassId` | dwg2dxf/dx_iface.cpp:546-565 | the loop finds that number, or none if it is ambiguous or unqualified |
| `ProxyHistory.WalkGraph` | dwg2dxf/dx_iface.cpp:588-704 | the worklist finds the three linked proxies of a modeler, and fails exactly if it has no closure |
| `ProxyHistory.ClosuresAreDisjoint` | dwg2dxf/dx_iface.cpp:588-704 | closures of different modelers share no proxy, by owner and by class at each depth |
| `ProxyHistory.LinkedModelers` | dwg2dxf/dx_iface.cpp:1032-1057 | exactly the entities with DataStorage, refused exactly if one is neither solid nor region |
| `ProxyHistory.CountForcesBijection` | dwg2dxf/dx_iface.cpp:1078-1081 | distinct emitted proxies, as many as there are, are all of them |
| `ProxyHistory.CollectProxyObjects` | dwg2dxf/dx_iface.cpp:1027-1082 | succeeds exactly if all modelers suit and their closures use up the proxies; then every proxy is emitted once |
| `ClassOrdinals.ReplaceChangesOne` | dwg2dxf/dx_iface.cpp:1887 | rewriting the class identifier leaves every other group as it was |
| `ClassOrdinals.CountClasses` | dwg2dxf/dx_iface.cpp:1842-1888 | succeeds exactly if every object has one supported source class; the counts are the numbers of objects |
| `ClassOrdinals.MakeClasses` | dwg2dxf/dx_iface.cpp:1890-1907 | ordinals and classes name each other, with the counts; only a missing template is refused |
| `ClassOrdinals.AssignOrdinals` | dwg2dxf/dx_iface.cpp:1919-1952 | each object points at the class of its proxy's source name; refused exactly if some object cannot be |
| `ClassOrdinals.RenumberClasses` | dwg2dxf/dx_iface.cpp:1833-1953 | the whole renumbering, with a material class that shifts no ordinal |
| `ClassOrdinals.CountsMatchOrdinals` | dwg2dxf/dx_iface.cpp:1890-1952 | the instance count of a class is the number of objects that point at it |
| `ClassOrdinals.ExportProxies` | dwg2dxf/dx_iface.cpp:1770-1953 | after collection and renumbering every proxy is written once and points at its class; every proxy class of the table is pointed at and counts exactly those objects |
| `BoxHistory.HistoryIsWritten` | dwg2dxf/dx_iface.cpp:1215-1230 | the groups of a history object determine its fields |
| `BoxHistory.BoxIsWritten` | dwg2dxf/dx_iface.cpp:1231-1261 | the groups of a box object determine its frame, lengths, material and version |
| `BoxHistory.FindChain` | dwg2dxf/dx_iface.cpp:1276-1367 | follows history, graph and box by handle; fails exactly if the modeler has no chain |
| `BoxHistory.ChainIsUnique` | dwg2dxf/dx_iface.cpp:1276-1367 | a modeler has at most one chain |
| `BoxHistory.AddChain` | dwg2dxf/dx_iface.cpp:1369-1385 | a chain is added exactly if it shares no part with an earlier one |
| `BoxHistory.ChainIsWritten` | dwg2dxf/dx_iface.cpp:1374-1380 | each chain is written as its history, its box and its graph, in order |
| `BoxHistory.MaterialsAreListedOnce` | dwg2dxf/dx_iface.cpp:1381-1384 | every material of a box is listed, once |
| `BoxHistory.CountsForcePartition` | dwg2dxf/dx_iface.cpp:1387-1391 | the final counts hold exactly if the chains use every ACSH object and every graph once |
| `BoxHistory.TypedExport.Collect` | dwg2dxf/dx_iface.cpp:1085-1398 | succeeds exactly if the chains use up the drawing; on failure the three lists are unchanged |
| `AcdsGroups.SectionDecodes` | dwg2dxf/dx_iface.cpp:961-1020 | the written groups read back as each record's key, role and payload, in order |
| `AcdsGroups.BinaryGroupsFit` | dwg2dxf/dx_iface.cpp:1003-1018 | every binary group holds one to 127 bytes |
| `AcdsGroups.WriteSection` | dwg2dxf/dx_iface.cpp:961-1020 | the emission loop writes these groups; the length check never fails |
| `AcdsSection.InspectBlocks` | dwg2dxf/dx_iface.cpp:781-819 | exactly the linked modelers, refused exactly if a kind is wrong or a handle zero or repeated |
| `AcdsSection.CheckRecords` | dwg2dxf/dx_iface.cpp:915-954 | the record loop accepts exactly records of distinct keys and owners that are thumbnails or owned |
| `AcdsSection.CountsDecide` | dwg2dxf/dx_iface.cpp:955-959 | the three final counts mean that every modeler owns a record and every orphan is a thumbnail |
| `AcdsSection.AcceptedIsOneToOne` | dwg2dxf/dx_iface.cpp:898-959 | modelers and modeler records correspond one to one by handle, key and payload |
| `AcdsSection.AppendAcdsData` | dwg2dxf/dx_iface.cpp:768-1022 | the projection succeeds exactly under its conditions, appends one section that decodes to the records, and else changes nothing |
| `AcdsParsed.ParsedComesFrom` | src/drw_datastorage.cpp:1611-1680 | what the projection is given of a parsed section has sound records and the exact duplicate list |
| `AcdsParsed.ParsedRecordFits` | dwg2dxf/dx_iface.cpp:915-947 | of a parsed record the checks of key, size and marker bounds never fail; the others are what decides |
| `AcdsParsed.ParsedKeysAreDistinct` | dwg2dxf/dx_iface.cpp:881-919 | a parse lists no duplicate exactly if no two of its records share a key |
| `AcdsParsed.ProjectionWritesFileBytes` | dwg2dxf/dx_iface.cpp:961-1020 | what an accepted parse writes reads back, record by record, as the bytes of the file under the record handle |

## Left out

- ExtensionGraph.PrepareExtensionObjectGraph: on graphs with followed back-references success depends on the order of
  entry, so it is tied to the reference walk and not to a condition on the graph alone.
- HandleAllocators.HandleAllocator.Next: the skip loop is modelled by its guard, which is proved false.
- DataStorageParse.Parse: allocation is taken to succeed, and diagnostics are reduced to soundness and replay
  permission.
- AcisDecode.DecodeModel: stops at the node model; wireframe extraction beyond loops and coedge counts (vertices, edges,
  curves, surfaces, bounding box) is left out.
- HeaderSection.EncodeDwg: one token stands for one value of the bit-level codec, which is taken as lossless; sentinels,
  sizes and CRCs are not part of this model, nor are the bit offset of the hand seed, its fixed width and the
  65534-character limit of a text.
- HeaderSection.DwgHeader.ParseDwg: the seek is given as a number of whole tokens behind the preamble, so a seek
  backwards or into the middle of a value is not modelled; headers before R2000 are not read; a variable stored
  with another type than the lookup expects reads as its default.
- AcdsSection.AppendAcdsData: the schema fingerprint is an input, the two roles or nothing.
- ClassOrdinals.ExportProxies: class templates are a lookup that returns a class of the requested name, and the
  dictionary that decides which materials are written is a function of the materials that are named.
- BoxHistory.TypedExport.Collect: the drawing's blocks are given in the order of inspection, the main block first; the
  same holds for the other collections.
- ExtensionGraph.ExtensionWalk.VisitDictionary: whether the entries of a dictionary are complete is one boolean.
- AcisItems.SabByteReader.ReadItem: subtype depth is an unbounded number.
- `HandleAllocator::seedReserved`, which reserves the canonical handles below 0x30 one by one.
- `DRW_Header::write` and `DRW_Header::parseCode`, long lists of independent emissions and reads.
- The façades `dxfRW` and `dwgR`, the bit buffers, `dx_data`, entity records, callbacks, command line and file access.
- Class tables of a typed export and of drawings without DataStorage, which are plain copies.
