/** The chat wire format `<kind>|<scope>|<target>|<id>|<body>`. The body is
    not escaped: decoding splits on `|` with a limit of five, so any `|` in
    the body comes back as part of the fifth field. */
module Codec {
  import opened Text

  const Delimiter: char := '|'
  const FieldCount: nat := 5

  const KindChat: string := "CHAT"
  const ScopePublic: string := "PUBLIC"
  const ScopeDm: string := "DM"
  /** Target field of a public message. */
  const Wildcard: string := "*"

  datatype Wire = Wire(kind: string, scope: string, target: string, id: string, body: string)

  function Fields(w: Wire): seq<string> {
    [w.kind, w.scope, w.target, w.id, w.body]
  }

  /** The four leading fields carry no delimiter, so the record splits back
      into the same five fields. */
  predicate WellFormed(w: Wire) {
    Delimiter !in w.kind && Delimiter !in w.scope && Delimiter !in w.target && Delimiter !in w.id
  }

  function Encode(w: Wire): string {
    Join(Fields(w), Delimiter)
  }

  /** The record made of the first five parts of a split. */
  function FromParts(parts: seq<string>): Wire
    requires |parts| >= 5
  {
    Wire(parts[0], parts[1], parts[2], parts[3], parts[4])
  }

  lemma FieldsOfFive(parts: seq<string>)
    requires |parts| == 5
    ensures Fields(FromParts(parts)) == parts
  {
  }

  /** What a split with limit five gives: fewer than five parts exactly when
      there are fewer than four delimiters, and otherwise five parts that make
      a well-formed record encoding back to the text. */
  lemma FiveParts(raw: string, parts: seq<string>)
    requires parts == Split(raw, Delimiter, FieldCount)
    ensures |parts| < FieldCount <==> Count(raw, Delimiter) < FieldCount - 1
    ensures |parts| >= FieldCount ==> WellFormed(FromParts(parts)) && Encode(FromParts(parts)) == raw
  {
    SplitLength(raw, Delimiter, FieldCount);
    if |parts| >= FieldCount {
      FieldsOfFive(parts);
    }
  }

  /** Splits with limit five and drops anything with fewer than five parts.
      The kind and scope are not inspected here; routing does that. */
  function Decode(raw: string): (r: Option<Wire>)
    ensures r.None? <==> Count(raw, Delimiter) < FieldCount - 1
    ensures r.Some? ==> WellFormed(r.value) && Encode(r.value) == raw
  {
    var parts := Split(raw, Delimiter, FieldCount);
    FiveParts(raw, parts);
    if |parts| < FieldCount then None else Some(FromParts(parts))
  }

  /** The encoding is the five fields with a delimiter between each pair. */
  lemma EncodeSpelledOut(w: Wire)
    ensures Encode(w) == w.kind + "|" + w.scope + "|" + w.target + "|" + w.id + "|" + w.body
  {
    var f := Fields(w);
    assert f[1..][1..][1..][1..] == [w.body];
    assert f[1..][1..][1..] == [w.id, w.body];
    assert f[1..][1..] == [w.target, w.id, w.body];
    assert f[1..] == [w.scope, w.target, w.id, w.body];
    assert Join(f[1..][1..][1..], Delimiter) == w.id + "|" + w.body;
    assert Join(f[1..][1..], Delimiter) == w.target + "|" + w.id + "|" + w.body;
    assert Join(f[1..], Delimiter) == w.scope + "|" + w.target + "|" + w.id + "|" + w.body;
  }

  /** Decoding an encoded well-formed record gives the record back, whatever
      its body holds. */
  lemma DecodeEncode(w: Wire)
    requires WellFormed(w)
    ensures Decode(Encode(w)) == Some(w)
  {
    SplitJoin(Fields(w), Delimiter);
  }

  /** A decoded record encodes back to the raw text it came from. */
  lemma EncodeDecode(raw: string)
    requires Decode(raw).Some?
    ensures Encode(Decode(raw).value) == raw
  {
  }

  /** The concrete text a public send puts on the wire, read back by a
      receiver: kind CHAT, scope PUBLIC, the same id and the same body. */
  lemma DecodePublicChat(id: string, t: string)
    requires Delimiter !in id
    ensures Decode("CHAT|PUBLIC|*|" + id + "|" + t) == Some(Wire(KindChat, ScopePublic, Wildcard, id, t))
  {
    var w := Wire(KindChat, ScopePublic, Wildcard, id, t);
    EncodeSpelledOut(w);
    assert "CHAT|PUBLIC|*|" == KindChat + "|" + ScopePublic + "|" + Wildcard + "|";
    assert Encode(w) == "CHAT|PUBLIC|*|" + id + "|" + t;
    DecodeEncode(w);
  }
}
