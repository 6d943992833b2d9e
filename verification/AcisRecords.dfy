/** Which records and streams a SAB decoder can yield: exactly the sound ones whose tokens can be written. */
module AcisRecords {
  import opened Words
  import opened Formats
  import opened AcisItems
  import opened AcisSab

  // ---------------------------------------------------------------------------------------------
  // Tokens that can be written

  ghost predicate ShortParts(parts: seq<seq<u8>>) {
    forall i :: 0 <= i < |parts| ==> |parts[i]| < 0x100
  }

  /** A type name of any length, as long as hyphens split it into parts that a length byte can count. */
  ghost predicate NameFits(name: seq<u8>) {
    exists parts: seq<seq<u8>> :: parts != [] && ShortParts(parts) && Join(parts) == name
  }

  ghost predicate Writable(t: Token) {
    if t.tag == ENTITY_TYPE then t.payload.Text? && NameFits(t.payload.s)
    else if t.tag == SUBTYPE_START || t.tag == SUBTYPE_END then t.payload.Level?
    else if t.tag == BOOL_TRUE || t.tag == BOOL_FALSE then t.payload == Flag(t.tag == BOOL_TRUE)
    else t.tag != RECORD_END && t.tag != ENTITY_TYPE_EX && Fits(t.payload, ShapeOf(t.tag))
  }

  ghost predicate AllWritable(tokens: seq<Token>) {
    forall i :: 0 <= i < |tokens| ==> Writable(tokens[i])
  }

  /** Names of at most 255 bytes need no splitting. */
  lemma ShortNameFits(name: seq<u8>)
    requires |name| < 0x100
    ensures NameFits(name)
  {
    assert ShortParts([name]) && Join([name]) == name;
  }

  lemma StepWrites(s: Building, item: Item, after: Building)
    requires WellFormed(item) && Step(s, item) == More(after)
    requires AllWritable(s.tokens) && ShortParts(s.parts)
    ensures AllWritable(after.tokens) && ShortParts(after.parts)
  {
    if item.tag == ENTITY_TYPE {
      assert ShortParts(s.parts + [item.payload.s]);
    }
  }

  /** What items build is known, and each of its tokens can be written. */
  lemma {:induction false} FoldWrites(s: Building, items: seq<Item>)
    requires Fold(s, items).Some? && Knows(s) && AllWritable(s.tokens) && ShortParts(s.parts)
    ensures var last := Fold(s, items).value; Knows(last) && AllWritable(last.tokens)
    decreases |items|
  {
    if items == [] {
    } else {
      var after := Step(s, items[0]).state;
      StepKeeps(s, items[0], after);
      StepWrites(s, items[0], after);
      FoldWrites(after, items[1..]);
    }
  }

  // ---------------------------------------------------------------------------------------------
  // Every writable token has items, and so has every sound record

  lemma {:induction false} FoldConcat(s: Building, a: seq<Item>, b: seq<Item>)
    requires Fold(s, a).Some?
    ensures Fold(s, a + b) == Fold(Fold(s, a).value, b)
    decreases |a|
  {
    if a == [] {
      assert a + b == b;
    } else {
      assert (a + b)[1..] == a[1..] + b;
      FoldConcat(Step(s, a[0]).state, a[1..], b);
    }
  }

  lemma FoldOne(s: Building, item: Item)
    requires WellFormed(item) && Step(s, item).More?
    ensures Fold(s, [item]) == Some(Step(s, item).state)
  {
    assert [item][1..] == [];
  }

  /** The items of all parts of a name but its last. */
  function PartItems(parts: seq<seq<u8>>): seq<Item> {
    if parts == [] then [] else [Item(ENTITY_TYPE_EX, Text(parts[0]))] + PartItems(parts[1..])
  }

  lemma {:induction false} FoldParts(s: Building, parts: seq<seq<u8>>)
    requires ShortParts(parts)
    ensures Fold(s, PartItems(parts)) == Some(s.(parts := s.parts + parts))
    decreases |parts|
  {
    if parts == [] {
      assert s.parts + parts == s.parts;
    } else {
      var after := s.(parts := s.parts + [parts[0]]);
      FoldParts(after, parts[1..]);
      assert after.parts + parts[1..] == s.parts + parts;
    }
  }

  /** The state behind tokens with no name pending. */
  ghost function Built(tokens: seq<Token>): Building
    requires Depth(tokens).Some?
  {
    Building(tokens, [], FirstName(tokens), Depth(tokens).value)
  }

  lemma NameHasItems(tokens: seq<Token>, name: seq<u8>) returns (items: seq<Item>)
    requires Depth(tokens).Some? && NameFits(name)
    ensures var t := Token(ENTITY_TYPE, Text(name));
            Depth(tokens + [t]).Some? && Fold(Built(tokens), items) == Some(Built(tokens + [t]))
  {
    var t := Token(ENTITY_TYPE, Text(name));
    var parts: seq<seq<u8>> :| parts != [] && ShortParts(parts) && Join(parts) == name;
    var n := |parts| - 1;
    var last := Item(ENTITY_TYPE, Text(parts[n]));
    FoldParts(Built(tokens), parts[..n]);
    assert [] + parts[..n] + [parts[n]] == parts;
    assert (tokens + [t])[..|tokens|] == tokens;
    var pending := Built(tokens).(parts := [] + parts[..n]);
    FoldOne(pending, last);
    FoldConcat(Built(tokens), PartItems(parts[..n]), [last]);
    items := PartItems(parts[..n]) + [last];
  }

  lemma PlainTokenHasItem(tokens: seq<Token>, t: Token) returns (item: Item)
    requires Depth(tokens).Some? && Depth(tokens + [t]).Some? && Writable(t) && t.tag != ENTITY_TYPE
    ensures WellFormed(item) && Step(Built(tokens), item) == More(Built(tokens + [t]))
  {
    assert (tokens + [t])[..|tokens|] == tokens;
    var bare := t.tag == SUBTYPE_START || t.tag == SUBTYPE_END || t.tag == BOOL_TRUE || t.tag == BOOL_FALSE;
    item := Item(t.tag, if bare then Nothing else t.payload);
  }

  lemma TokenHasItems(tokens: seq<Token>, t: Token) returns (items: seq<Item>)
    requires Depth(tokens).Some? && Depth(tokens + [t]).Some? && Writable(t)
    ensures Fold(Built(tokens), items) == Some(Built(tokens + [t]))
  {
    if t.tag == ENTITY_TYPE {
      items := NameHasItems(tokens, t.payload.s);
    } else {
      var item := PlainTokenHasItem(tokens, t);
      FoldOne(Built(tokens), item);
      items := [item];
    }
  }

  lemma {:induction false} TokensHaveItems(tokens: seq<Token>) returns (items: seq<Item>)
    requires AllWritable(tokens) && Depth(tokens).Some?
    ensures Fold(EMPTY, items) == Some(Built(tokens))
    decreases |tokens|
  {
    if tokens == [] {
      items := [];
    } else {
      var n := |tokens| - 1;
      assert tokens == tokens[..n] + [tokens[n]];
      var front := TokensHaveItems(tokens[..n]);
      var last := TokenHasItems(tokens[..n], tokens[n]);
      FoldConcat(EMPTY, front, last);
      items := front + last;
    }
  }

  /** A sound record of writable tokens has a written form. */
  lemma RecordHasWire(record: Record) returns (w: Wire)
    requires RecordSound(record) && AllWritable(record.tokens)
    ensures WireWellFormed(w) && w.closed && Meaning(w) == record
  {
    var items := TokensHaveItems(record.tokens);
    w := Wire(items, true);
  }

  lemma WireIsSound(w: Wire)
    requires WireWellFormed(w)
    ensures RecordSound(Meaning(w)) && AllWritable(Meaning(w).tokens)
  {
    FoldWrites(EMPTY, w.items);
  }

  /** A record can be read from some bytes if and only if it is sound and each of its tokens can be written. */
  lemma RecordIsReadIffSound(record: Record)
    ensures (exists b: seq<u8> :: TakeRecord(b, EMPTY).Took? && TakeRecord(b, EMPTY).value == record)
            <==> RecordSound(record) && AllWritable(record.tokens)
  {
    if b: seq<u8> :| TakeRecord(b, EMPTY).Took? && TakeRecord(b, EMPTY).value == record {
      var w := PutOfTakeRecord(b, EMPTY);
      WireIsSound(w);
    }
    if RecordSound(record) && AllWritable(record.tokens) {
      var w := RecordHasWire(record);
      TakeOfPutRecord(EMPTY, w, []);
      assert TakeRecord(PutRecord(w, []), EMPTY).value == record;
    }
  }

  // ---------------------------------------------------------------------------------------------
  // Every sound stream is decoded from some bytes

  ghost predicate RecordsSound(records: seq<Record>) {
    && (forall i :: 0 <= i < |records| ==> RecordSound(records[i]) && AllWritable(records[i].tokens))
    && (forall i :: 0 <= i < |records| - 1 ==> !IsEndMarker(records[i].kind))
  }

  ghost predicate SabSound(sab: Sab) {
    && HeaderWellFormed(sab.header) && RecordsSound(sab.records)
    && (sab.header.numRecords >= 0 ==> |sab.records| == sab.header.numRecords)
  }

  lemma {:induction false} RecordsHaveWires(records: seq<Record>) returns (ws: seq<Wire>)
    requires RecordsSound(records)
    ensures ListWellFormed(ws, []) && Meanings(ws) == records
    decreases |records|
  {
    if records == [] {
      ws := [];
    } else {
      var w := RecordHasWire(records[0]);
      if |records| == 1 {
        ws := [w];
        assert ws[1..] == [] && Meanings(ws) == [Meaning(w)] == records;
      } else {
        var tail := RecordsHaveWires(records[1..]);
        ListExtends(w, tail, []);
        ws := [w] + tail;
        assert records == [records[0]] + records[1..];
      }
    }
  }

  lemma WiresAreSound(ws: seq<Wire>, trailing: seq<u8>)
    requires ListWellFormed(ws, trailing)
    ensures RecordsSound(Meanings(ws))
  {
    forall i | 0 <= i < |ws| ensures RecordSound(Meanings(ws)[i]) && AllWritable(Meanings(ws)[i].tokens) {
      WireIsSound(ws[i]);
    }
  }

  /** A header and records come out of the decoder for some bytes if and only if they are sound. */
  lemma StreamIsDecodedIffSound(sab: Sab)
    ensures (exists b: seq<u8> :: Decode(b) == Some(sab)) <==> SabSound(sab)
  {
    if b: seq<u8> :| Decode(b) == Some(sab) {
      var ws, trailing := AcceptedStreamIsEncoded(b);
      WiresAreSound(ws, trailing);
    }
    if SabSound(sab) {
      var ws := RecordsHaveWires(sab.records);
      StreamRoundTrip(sab.header, ws, []);
      assert Decode(Encode(sab.header, ws, [])) == Some(sab);
    }
  }
}
