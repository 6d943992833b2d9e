/** The cursor-driven reader of one schema, proved equal to the format's parser. */
module DataStorageSchemaReader {
  import opened Words
  import opened Formats
  import opened DataStorage
  import opened DataStorageSchemas

  /** What a cursor-driven read yields: a value and the cursor behind it, or a failure. */
  datatype Read<+T> = Failed | Read(value: T, cursor: u64)

  /** The unread bytes. */
  function Rest(r: ByteReader, cursor: u64, end: u64): seq<u8>
    requires end <= |r.data|
  {
    if cursor <= end then r.data[cursor..end] else []
  }

  lemma RestSplits(r: ByteReader, at: u64, end: u64, n: u64)
    requires at + n <= end <= |r.data|
    ensures n <= |Rest(r, at, end)| && Rest(r, at, end)[..n] == r.Slice(at, n)
    ensures Rest(r, at, end)[n..] == Rest(r, at + n, end)
  {
  }

  /** The read agrees with a parse of the unread bytes, and its cursor has not passed the end. */
  ghost predicate Agrees<T(!new)>(out: Read<T>, t: Taken<T>, r: ByteReader, end: u64)
    requires end <= |r.data|
  {
    match out
    case Failed => t.Short?
    case Read(value, cursor) => cursor <= end && t == Took(value, Rest(r, cursor, end))
  }

  method ReadWord(r: ByteReader, cursor: u64, end: u64, n: u64) returns (out: Read<nat>)
    requires cursor <= end <= |r.data| && (n == 2 || n == 4)
    ensures Agrees(out, TakeWord(Rest(r, cursor, end), n), r, end)
    ensures out.Read? ==> out.value < Limit(n)
  {
    if !IsRangeWithin(cursor, n, end) || !r.Has(cursor, n) {
      return Failed;
    }
    RestSplits(r, cursor, end, n);
    LeBound(Rest(r, cursor, end)[..n]);
    return Read(if n == 2 then r.U16(cursor) else r.U32(cursor), cursor + n);
  }

  // ---------------------------------------------------------------------------------------------
  // Counted lists, element by element

  /** Elements of one size are all there exactly when their total is: the bulk check before the loop. */
  lemma {:induction false} SizedListFits<T(!new)>(take: Parser<T>, size: nat, b: seq<u8>, count: nat)
    requires forall b' :: take(b').Took? <==> size <= |b'|
    requires forall b' :: take(b').Took? ==> |take(b').rest| == |b'| - size
    ensures TakeMany(take, b, count).Took? <==> Times(count, size) <= |b|
    decreases count
  {
    if count == 0 {
    } else {
      TimesStep(count, size);
      if take(b).Took? {
        SizedListFits(take, size, take(b).rest, count - 1);
      } else {
        ProductMonotonic(size, 1, count);
      }
    }
  }

  /** The parser takes the 64-bit word at the cursor. */
  ghost predicate TakesWords(take: Parser<u64>, r: ByteReader, end: u64)
    requires end <= |r.data|
  {
    forall at: u64 {:trigger r.U64(at)} :: at + 8 <= end ==>
      take(Rest(r, at, end)) == Took(r.U64(at), Rest(r, at + 8, end))
  }

  lemma IndexParserTakesWords(r: ByteReader, end: u64)
    requires end <= |r.data|
    ensures TakesWords(IndexParser(), r, end)
  {
    forall at: u64 | at + 8 <= end
      ensures TakeU64(Rest(r, at, end)) == Took(r.U64(at), Rest(r, at + 8, end))
    {
      RestSplits(r, at, end, 8);
    }
  }

  /** The parser takes the next size bytes at the cursor. */
  ghost predicate TakesSlices(take: Parser<seq<u8>>, r: ByteReader, end: u64, size: u32)
    requires end <= |r.data|
  {
    forall at: u64 {:trigger r.Slice(at, size)} :: at + size <= end ==>
      take(Rest(r, at, end)) == Took(r.Slice(at, size), Rest(r, at + size, end))
  }

  lemma ValueParserTakesSlices(r: ByteReader, end: u64, size: u32)
    requires end <= |r.data|
    ensures TakesSlices(ValueParser(size), r, end, size)
  {
    forall at: u64 | at + size <= end
      ensures Take(Rest(r, at, end), size) == Took(r.Slice(at, size), Rest(r, at + size, end))
    {
      RestSplits(r, at, end, size);
    }
  }

  method ReadIndexValues(r: ByteReader, cursor: u64, end: u64, count: u16) returns (out: Read<seq<u64>>)
    requires cursor <= end <= |r.data|
    ensures Agrees(out, TakeMany(IndexParser(), Rest(r, cursor, end), count), r, end)
  {
    SizedListFits(IndexParser(), 8, Rest(r, cursor, end), count);
    var bytes := CheckedMultiply(count, 8);
    if bytes.None? || !IsRangeWithin(cursor, bytes.value, end) || !r.Has(cursor, bytes.value) {
      return Failed;
    }
    IndexParserTakesWords(r, end);
    out := CopyIndexes(r, cursor, end, count, IndexParser());
  }

  method CopyIndexes(r: ByteReader, cursor: u64, end: u64, count: u16, ghost take: Parser<u64>)
    returns (out: Read<seq<u64>>)
    requires end <= |r.data| && cursor + 8 * count <= end
    requires TakesWords(take, r, end)
    ensures Agrees(out, TakeMany(take, Rest(r, cursor, end), count), r, end)
  {
    var values: seq<u64> := [];
    var at: u64 := cursor;
    var i: u16 := 0;
    while i < count
      invariant i <= count && at + 8 * (count - i) <= end
      invariant TakeMany(take, Rest(r, cursor, end), count)
                == Prepend(values, TakeMany(take, Rest(r, at, end), count - i))
    {
      PrependNext(take, Rest(r, at, end), count - i, values);
      values := values + [r.U64(at)];
      at := at + 8;
      i := i + 1;
    }
    return Read(values, at);
  }

  method ReadValues(r: ByteReader, cursor: u64, end: u64, count: u16, size: u32) returns (out: Read<seq<seq<u8>>>)
    requires cursor <= end <= |r.data|
    ensures Agrees(out, TakeMany(ValueParser(size), Rest(r, cursor, end), count), r, end)
  {
    SizedListFits(ValueParser(size), size, Rest(r, cursor, end), count);
    var bytes := CheckedMultiply(count, size);
    if bytes.None? || !IsRangeWithin(cursor, bytes.value, end) || !r.Has(cursor, bytes.value) {
      return Failed;
    }
    ValueParserTakesSlices(r, end, size);
    out := CopyValues(r, cursor, end, count, size, ValueParser(size));
  }

  method CopyValues(r: ByteReader, cursor: u64, end: u64, count: u16, size: u32, ghost take: Parser<seq<u8>>)
    returns (out: Read<seq<seq<u8>>>)
    requires end <= |r.data| && cursor + Times(count, size) <= end
    requires TakesSlices(take, r, end, size)
    ensures Agrees(out, TakeMany(take, Rest(r, cursor, end), count), r, end)
  {
    var values: seq<seq<u8>> := [];
    var at: u64 := cursor;
    var i: u16 := 0;
    while i < count
      invariant i <= count && at + Times(count - i, size) <= end
      invariant TakeMany(take, Rest(r, cursor, end), count)
                == Prepend(values, TakeMany(take, Rest(r, at, end), count - i))
    {
      TimesStep(count - i, size);
      PrependNext(take, Rest(r, at, end), count - i, values);
      values := values + [r.Slice(at, size)];
      at := at + size;
      i := i + 1;
    }
    return Read(values, at);
  }

  lemma TimesStep(n: nat, size: nat)
    requires n > 0
    ensures Times(n, size) == Times(n - 1, size) + size
  {
  }

  // ---------------------------------------------------------------------------------------------
  // One property

  method ReadUnknowns(r: ByteReader, cursor: u64, end: u64, flags: u32, kind: u32, custom: u32)
    returns (out: Read<Layout>)
    requires cursor <= end <= |r.data|
    ensures Agrees(out, TakeUnknowns(flags, Rest(r, cursor, end), kind, custom), r, end)
  {
    if flags == 1 || flags == 8 {
      LimitValues();
      var word := ReadWord(r, cursor, end, 4);
      if word.Failed? {
        return Failed;
      }
      return Read(if flags == 1 then Layout(kind, custom, word.value, 0) else Layout(kind, custom, 0, word.value),
                  word.cursor);
    }
    return Read(Layout(kind, custom, 0, 0), cursor);
  }

  method ReadLayout(r: ByteReader, cursor: u64, end: u64, flags: u32) returns (out: Read<Layout>)
    requires cursor <= end <= |r.data| && FlagsValid(flags)
    ensures Agrees(out, TakeLayout(flags, Rest(r, cursor, end)), r, end)
  {
    LimitValues();
    var at, kind: u32, custom: u32 := cursor, 0, 0;
    if flags != 2 {
      var word := ReadWord(r, at, end, 4);
      if word.Failed? || word.value >= SCHEMA_PROPERTY_TYPE_COUNT {
        return Failed;
      }
      kind, at := word.value, word.cursor;
      if kind == CUSTOM_TYPE {
        var size := ReadWord(r, at, end, 4);
        if size.Failed? {
          return Failed;
        }
        custom, at := size.value, size.cursor;
      }
    }
    out := ReadUnknowns(r, at, end, flags, kind, custom);
  }

  method ReadValueList(r: ByteReader, cursor: u64, end: u64, size: u32) returns (out: Read<seq<seq<u8>>>)
    requires cursor <= end <= |r.data|
    ensures Agrees(out, TakeValueList(Rest(r, cursor, end), size), r, end)
  {
    LimitValues();
    var count := ReadWord(r, cursor, end, 2);
    if count.Failed? {
      return Failed;
    }
    out := ReadValues(r, count.cursor, end, count.value, size);
  }

  method ReadProperty(r: ByteReader, cursor: u64, end: u64, names: seq<string>) returns (out: Read<Property>)
    requires cursor <= end <= |r.data|
    ensures Agrees(out, TakeProperty(Rest(r, cursor, end), names), r, end)
  {
    LimitValues();
    var flags := ReadWord(r, cursor, end, 4);
    if flags.Failed? {
      return Failed;
    }
    var nameIndex := ReadWord(r, flags.cursor, end, 4);
    if nameIndex.Failed? || !FlagsValid(flags.value) {
      return Failed;
    }
    var layout := ReadLayout(r, nameIndex.cursor, end, flags.value);
    if layout.Failed? {
      return Failed;
    }
    var values := ReadValueList(r, layout.cursor, end, TypeSize(flags.value, layout.value));
    if values.Failed? {
      return Failed;
    }
    ValueCountBound(Rest(r, layout.cursor, end), TypeSize(flags.value, layout.value));
    return Read(MakeProperty(flags.value, nameIndex.value, layout.value, values.value, names), values.cursor);
  }

  ghost predicate NamesSound(ps: seq<Property>, names: seq<string>) {
    forall p :: p in ps ==> NameIndexSound(names, p.nameIndex)
  }

  lemma NamesSoundNext(ps: seq<Property>, p: Property, names: seq<string>)
    ensures NamesSound(ps + [p], names) == (NamesSound(ps, names) && NameIndexSound(names, p.nameIndex))
  {
    assert forall q :: q in ps + [p] <==> q in ps || q == p;
  }

  ghost predicate ParsesProperties(take: Parser<Property>, names: seq<string>) {
    forall b {:trigger TakeProperty(b, names)} :: take(b) == TakeProperty(b, names)
  }

  /** An out-of-range name index leaves the name empty and withdraws the replay permission, nothing more. */
  method ReadNamedProperty(r: ByteReader, cursor: u64, end: u64, names: seq<string>, section: Section,
                           ghost take: Parser<Property>)
    returns (out: Read<Property>)
    requires cursor <= end <= |r.data| && section.Valid() && ParsesProperties(take, names)
    modifies section`structurallyValid, section`replayAllowed
    ensures section.Valid() && Agrees(out, take(Rest(r, cursor, end)), r, end)
    ensures out.Read? ==> section.structurallyValid ==
                          (old(section.structurallyValid) && NameIndexSound(names, out.value.nameIndex))
    ensures section.structurallyValid ==> old(section.structurallyValid)
  {
    out := ReadProperty(r, cursor, end, names);
    if out.Read? && !NameIndexSound(names, out.value.nameIndex) {
      section.PushStructuralDiag();
    }
  }

  method ReadProperties(r: ByteReader, cursor: u64, end: u64, count: u16, names: seq<string>, section: Section,
                        ghost take: Parser<Property>)
    returns (out: Read<seq<Property>>)
    requires cursor <= end <= |r.data| && section.Valid() && ParsesProperties(take, names)
    modifies section`structurallyValid, section`replayAllowed
    ensures section.Valid()
    ensures Agrees(out, TakeMany(take, Rest(r, cursor, end), count), r, end)
    ensures out.Read? ==>
              section.structurallyValid == (old(section.structurallyValid) && NamesSound(out.value, names))
    ensures section.structurallyValid ==> old(section.structurallyValid)
  {
    var ps: seq<Property> := [];
    var at: u64 := cursor;
    var i: u16 := 0;
    while i < count
      invariant i <= count && at <= end && section.Valid()
      invariant TakeMany(take, Rest(r, cursor, end), count) == Prepend(ps, TakeMany(take, Rest(r, at, end), count - i))
      invariant section.structurallyValid == (old(section.structurallyValid) && NamesSound(ps, names))
    {
      var property := ReadNamedProperty(r, at, end, names, section, take);
      PrependNext(take, Rest(r, at, end), count - i, ps);
      if property.Failed? {
        return Failed;
      }
      NamesSoundNext(ps, property.value, names);
      ps := ps + [property.value];
      at := property.cursor;
      i := i + 1;
    }
    return Read(ps, at);
  }

  // ---------------------------------------------------------------------------------------------
  // One schema

  /** The schema that a reference names, if the bytes at its offset are one. */
  ghost function SchemaAt(r: ByteReader, start: u64, end: u64, names: seq<string>, reference: SchemaReference)
    : Option<SchemaRecord>
    requires start <= end <= |r.data|
  {
    if start as int + reference.localOffset as int > end then None
    else
      match TakeBody(r.data[start + reference.localOffset..end], names)
      case Short => None
      case Took(body, _) => if body.IsEmpty() then None else Some(RecordFor(reference, body))
  }

  function RecordFor(reference: SchemaReference, body: Body): SchemaRecord {
    SchemaRecord(reference.index, reference.segmentIndex, reference.localOffset, body.indexes, body.properties)
  }

  /** A schema is read exactly when the bytes from its offset on begin with the encoding of a well-formed
      schema that is not empty and ends inside the schema area. */
  lemma SchemaIsReadIffEncoded(r: ByteReader, start: u64, end: u64, names: seq<string>,
                               reference: SchemaReference, body: Body)
    requires start <= end <= |r.data|
    ensures SchemaAt(r, start, end, names, reference) == Some(RecordFor(reference, body))
            <==> !body.IsEmpty() && BodyWellFormed(body, names)
                 && start as int + reference.localOffset as int <= end
                 && exists rest :: r.data[start + reference.localOffset..end] == PutBody(body, rest)
  {
    if start as int + reference.localOffset as int <= end {
      var b := r.data[start + reference.localOffset..end];
      if BodyWellFormed(body, names) && exists rest :: b == PutBody(body, rest) {
        var rest :| b == PutBody(body, rest);
        SchemaRoundTrip(body, names, rest);
      }
      if TakeBody(b, names).Took? {
        SchemaReencodes(b, names);
        var t := TakeBody(b, names);
        assert b == PutBody(t.value, t.rest);
      }
    }
  }

  ghost predicate SchemaSound(r: ByteReader, start: u64, end: u64, names: seq<string>, reference: SchemaReference)
    requires start <= end <= |r.data|
  {
    && start as int + reference.localOffset as int <= end
    && var t := TakeBody(r.data[start + reference.localOffset..end], names);
       t.Took? && NamesSound(t.value.properties, names)
  }

  method ReadBody(r: ByteReader, cursor: u64, end: u64, names: seq<string>, section: Section) returns (out: Read<Body>)
    requires cursor <= end <= |r.data| && section.Valid()
    modifies section`structurallyValid, section`replayAllowed
    ensures section.Valid()
    ensures Agrees(out, TakeBody(Rest(r, cursor, end), names), r, end)
    ensures section.structurallyValid ==
            (old(section.structurallyValid) && out.Read? && NamesSound(out.value.properties, names))
  {
    LimitValues();
    var indexCount := ReadWord(r, cursor, end, 2);
    if indexCount.Failed? {
      section.PushStructuralDiag();
      return Failed;
    }
    var indexes := ReadIndexValues(r, indexCount.cursor, end, indexCount.value);
    if indexes.Failed? {
      section.PushStructuralDiag();
      return Failed;
    }
    var propertyCount := ReadWord(r, indexes.cursor, end, 2);
    if propertyCount.Failed? {
      section.PushStructuralDiag();
      return Failed;
    }
    var properties := ReadProperties(r, propertyCount.cursor, end, propertyCount.value, names, section,
                                     PropertyParser(names));
    if properties.Failed? {
      section.PushStructuralDiag();
      return Failed;
    }
    return Read(Body(indexes.value, properties.value), properties.cursor);
  }

  /** Zero-filled space decodes as an empty schema; it is passed over without a diagnostic. */
  method ReadSchema(r: ByteReader, start: u64, end: u64, names: seq<string>, reference: SchemaReference,
                    section: Section) returns (schema: Option<SchemaRecord>)
    requires start <= end <= |r.data| && section.Valid()
    modifies section`structurallyValid, section`replayAllowed
    ensures section.Valid()
    ensures schema == SchemaAt(r, start, end, names, reference)
    ensures section.structurallyValid ==
            (old(section.structurallyValid) && SchemaSound(r, start, end, names, reference))
  {
    var offset := CheckedAdd(start, reference.localOffset);
    if offset.None? || offset.value > end {
      section.PushStructuralDiag();
      return None;
    }
    var body := ReadBody(r, offset.value, end, names, section);
    if body.Failed? || body.value.IsEmpty() {
      return None;
    }
    return Some(RecordFor(reference, body.value));
  }
}
