/** The projection of a parsed section: what its checks come to, and which bytes of the file it writes. */
module AcdsParsed {
  import opened Words
  import opened Lists
  import opened AcdsGroups
  import opened AcdsSection
  import DataStorage
  import Parse = DataStorageParse
  import RecordIndex = DataStorageRecordIndex
  import Text

  /** A storage whose records and duplicate list a parse found in the bytes. */
  ghost predicate ComesFrom(storage: Storage, r: DataStorage.ByteReader, segments: seq<DataStorage.Segment>,
                            entries: seq<DataStorage.IndexEntry>) {
    && Parse.AllSound(r, storage.records, segments, entries)
    && storage.duplicateKeys == RecordIndex.Repeated(RecordIndex.Keys(storage.records))
  }

  /** What the projection is given of a parsed section. */
  ghost function StorageOf(section: DataStorage.Section, name: string, version: int, orphans: nat): Storage
    reads section
  {
    Storage(name, version, section.parseFailed, section.structurallyValid, section.replayAllowed,
            section.payloadsRetained, section.duplicateRecordHandleKeys, orphans, section.records)
  }

  lemma ParsedComesFrom(section: DataStorage.Section, r: DataStorage.ByteReader, v: Parse.Stages, headerSound: bool,
                        name: string, version: int, orphans: nat)
    requires Parse.Parsed(section, r, v, headerSound)
    ensures ComesFrom(StorageOf(section, name, version, orphans), r, section.segments, section.dataIndexEntries)
  {
  }

  /** Of a parsed record, the projection's checks of key, size and marker bounds never fail. */
  lemma ParsedRecordFits(r: DataStorage.ByteReader, segments: seq<DataStorage.Segment>,
                         entries: seq<DataStorage.IndexEntry>, roles: Roles, record: Record)
    requires Parse.RecordSound(r, record, segments, entries)
    ensures RecordFits(record)
            <==> record.isHandleSafe && record.blob.None? && record.handle != 0 && record.payload != []
    ensures IsModelerRecord(roles, record)
            <==> record.schemaIndex == roles.modeler && record.payloadMarker.Some? && record.handle <= U32_MAX
  {
    assert record.handleKey == Text.Hex(record.handle) != "";
  }

  lemma {:induction false} NothingRepeated(ks: seq<string>)
    ensures RecordIndex.Repeated(ks) == [] <==> Distinct(ks)
  {
    if ks == [] {
    } else {
      var n := |ks| - 1;
      assert ks == ks[..n] + [ks[n]];
      NothingRepeated(ks[..n]);
      RecordIndex.PositionsPartition(ks[..n], ks[n]);
      RecordIndex.RepeatedIsExact(ks[..n], ks[n]);
      if Distinct(ks) {
        DistinctPrefix(ks[..n], [ks[n]]);
      }
      if Distinct(ks[..n]) {
        DistinctNext(ks[..n], ks[n]);
        assert ks[n] in ks[..n] <==> RecordIndex.Positions(ks[..n], ks[n]) != [] by {
          if RecordIndex.Positions(ks[..n], ks[n]) != [] {
            assert RecordIndex.Positions(ks[..n], ks[n])[0] in RecordIndex.Positions(ks[..n], ks[n]);
          }
        }
      }
    }
  }

  /** Without a listed duplicate no two parsed records share a key, so the projection never refuses one for that. */
  lemma ParsedKeysAreDistinct(storage: Storage, r: DataStorage.ByteReader, segments: seq<DataStorage.Segment>,
                              entries: seq<DataStorage.IndexEntry>)
    requires ComesFrom(storage, r, segments, entries)
    ensures storage.duplicateKeys == [] <==> Distinct(Keys(storage.records))
  {
    forall i | 0 <= i < |storage.records|
      ensures RecordIndex.KeyOf(storage.records[i]) == storage.records[i].handleKey
    {
      assert Parse.RecordSound(r, storage.records[i], segments, entries);
    }
    assert RecordIndex.Keys(storage.records) == Keys(storage.records);
    NothingRepeated(Keys(storage.records));
  }

  /** The bytes of the file that a parsed record stored in place covers. */
  function BytesOf(r: DataStorage.ByteReader, record: Record): seq<u8>
    requires record.dataOffset as int + record.dataByteLength as int <= |r.data|
  {
    r.Slice(record.dataOffset, record.dataByteLength)
  }

  ghost predicate WritesBytes(r: DataStorage.ByteReader, roles: Roles, record: Record, decoded: Decoded) {
    && record.dataOffset as int + record.dataByteLength as int <= |r.data|
    && decoded == Decoded(Text.Hex(record.handle), IsThumbnail(roles, record), BytesOf(r, record))
  }

  /** A record that the projection takes is stored in place, and its payload is that part of the file. */
  lemma TakenRecordIsPlain(r: DataStorage.ByteReader, segments: seq<DataStorage.Segment>,
                           entries: seq<DataStorage.IndexEntry>, record: Record)
    requires Parse.RecordSound(r, record, segments, entries) && RecordFits(record)
    ensures record.handleKey == Text.Hex(record.handle)
    ensures record.dataOffset as int + record.dataByteLength as int <= |r.data|
    ensures record.payload == BytesOf(r, record)
  {
  }

  /** What an accepted parse writes reads back, record by record, as the file's own bytes under its handle. */
  lemma ProjectionWritesFileBytes(storage: Storage, r: DataStorage.ByteReader, segments: seq<DataStorage.Segment>,
                                  entries: seq<DataStorage.IndexEntry>, roles: Roles, linked: seq<Modeler>,
                                  section: Section)
    requires ComesFrom(storage, r, segments, entries) && Projects(roles, storage, section)
    requires RecordsFit(roles, linked, storage.records)
    ensures var decoded := DecodeSection(section.groups);
            && decoded.Some? && |decoded.value| == |storage.records|
            && forall i :: 0 <= i < |storage.records| ==>
                 WritesBytes(r, roles, storage.records[i], decoded.value[i])
  {
    forall i | 0 <= i < |storage.records|
      ensures WritesBytes(r, roles, storage.records[i], DecodeSection(section.groups).value[i])
    {
      assert RoleOf(roles, linked, storage.records[i]) != Refused;
      TakenRecordIsPlain(r, segments, entries, storage.records[i]);
    }
  }
}
