/** The convenience decoder: search, realignment, parse and graph, on a raw modeler payload. */
module AcisDecode {
  import opened Words
  import opened AcisSab
  import opened AcisRings
  import opened AcisSignature

  /** A stream embedded at any bit position of a payload that ends with it is decoded to its own meaning. */
  lemma EmbeddedStreamIsDecoded(raw: Buffer, offset: nat, bit: nat, h: Header, ws: seq<Wire>, trailing: seq<u8>)
    requires bit < 8 && offset < |raw| && StreamWellFormed(h, ws, trailing)
    requires Embedded(raw, 8 * offset + bit, Encode(h, ws, trailing))
    requires |Encode(h, ws, trailing)| == |Realigned(raw, offset, bit)|
    ensures Decode(Realigned(raw, offset, bit)) == Some(Sab(h, Meanings(ws)))
  {
    RealignmentRecovers(raw, offset, bit, Encode(h, ws, trailing));
    StreamRoundTrip(h, ws, trailing);
  }

  /** The position the search settles on. */
  ghost predicate Settles(raw: Buffer, which: nat, bit: nat, offset: nat) {
    MatchesAt(raw, which, bit, offset) && NoMatchBefore(raw, which, bit, offset)
  }

  lemma SettlesOnce(raw: Buffer, which: nat, bit: nat, offset: nat, which': nat, bit': nat, offset': nat)
    requires Settles(raw, which, bit, offset) && Settles(raw, which', bit', offset')
    ensures which == which' && bit == bit' && offset == offset'
  {
  }

  /** Nothing without a signature; otherwise the graph of the stream at the first match, if that parses. */
  method DecodeModel(raw: Buffer) returns (nodes: Option<seq<Node>>)
    ensures (forall w, b, o :: !MatchesAt(raw, w, b, o)) ==> nodes.None?
    ensures forall w, b, o {:trigger MatchesAt(raw, w, b, o)} :: Settles(raw, w, b, o) ==>
              var sab := Decode(Realigned(raw, o, b));
              && (nodes.Some? <==> sab.Some?)
              && (nodes.Some? ==> Closed(nodes.value) && IsModelOf(nodes.value, sab.value.records))
  {
    var found, which, bit, offset := FindSignature(raw);
    if !found {
      assert forall w, b, o :: !Settles(raw, w, b, o);
      return None;
    }
    forall w, b, o | Settles(raw, w, b, o) ensures w == which && b == bit && o == offset {
      SettlesOnce(raw, w, b, o, which, bit, offset);
    }
    var aligned := RealignSignature(raw, offset, bit);
    if aligned == [] {
      SignaturesDiffer();
      assert Decode(aligned).None? && aligned == Realigned(raw, offset, bit);
      return None;
    }
    var sab := ParseSab(Some(aligned));
    if sab.None? {
      return None;
    }
    var model := BuildModel(sab.value.records);
    return Some(model);
  }
}
