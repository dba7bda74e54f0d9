// The BProto message format: what the code emitted by bproto_generator/bproto_functions.php writes
// and accepts, for any message description.
module BProto {
  import opened Bytes
  import opened Wrappers

  datatype Kind = Uint(width: nat) | Data | ConstData(size: nat)
  datatype Cardinality = Repeated | RequiredRepeated | Optional | Required {
    predicate Allows(count: nat) {
      match this
      case Repeated => true
      case RequiredRepeated => count >= 1
      case Optional => count <= 1
      case Required => count == 1
    }
  }

  datatype Field = Field(id: nat, kind: Kind, cardinality: Cardinality)
  type Schema = seq<Field>

  // BPROTO_TYPE_UINT8 to BPROTO_TYPE_CONSTDATA (bproto/BProto.h)
  function TypeOf(kind: Kind): nat {
    match kind
    case Uint(width) => if width == 1 then 1 else if width == 2 then 2 else if width == 4 then 3 else 4
    case Data => 5
    case ConstData(_) => 6
  }

  function WidthOf(kind: nat): nat {
    if kind == 1 then 1 else if kind == 2 then 2 else if kind == 3 then 4 else 8
  }

  // Ids are told apart within a width, and within data and constdata together.
  predicate SameClass(a: nat, b: nat) {
    a == b || (a >= 5 && b >= 5)
  }

  predicate KindOk(kind: Kind) {
    match kind
    case Uint(width) => width == 1 || width == 2 || width == 4 || width == 8
    case Data => true
    case ConstData(size) => size < 0x1_0000_0000
  }

  ghost predicate SchemaOk(s: Schema) {
    && (forall f :: 0 <= f < |s| ==> s[f].id < 0x1_0000 && KindOk(s[f].kind))
    && (forall f, g :: 0 <= f < g < |s| ==> s[f].id != s[g].id || !SameClass(TypeOf(s[f].kind), TypeOf(s[g].kind)))
  }

  datatype Value = Num(n: nat) | Bytes(b: seq<byte>)

  // A value added to a message, for the field with this index.
  datatype Entry = Entry(field: nat, value: Value)

  predicate ValueOk(kind: Kind, v: Value) {
    match kind
    case Uint(width) => v.Num? && v.n < Range(width)
    case Data => v.Bytes? && |v.b| < 0x1_0000_0000
    case ConstData(size) => v.Bytes? && |v.b| == size
  }

  predicate EntryOk(s: Schema, e: Entry) {
    e.field < |s| && ValueOk(s[e.field].kind, e.value)
  }

  ghost predicate EntriesOk(s: Schema, es: seq<Entry>) {
    forall i :: 0 <= i < |es| ==> EntryOk(s, es[i])
  }

  // The size macros
  function SizeOf(kind: Kind, v: Value): nat
    requires KindOk(kind) && ValueOk(kind, v)
  {
    match kind
    case Uint(width) => 4 + width
    case Data => 4 + 4 + |v.b|
    case ConstData(size) => 4 + 4 + size
  }

  function EncodeValue(v: Value, width: nat): seq<byte> {
    match v
    case Num(n) => Le(n, width)
    case Bytes(b) => Le(|b|, 4) + b
  }

  function EncodeEntry(s: Schema, e: Entry): (b: seq<byte>)
    requires SchemaOk(s) && EntryOk(s, e)
    ensures |b| == SizeOf(s[e.field].kind, e.value)
  {
    var f := s[e.field];
    Le(f.id, 2) + Le(TypeOf(f.kind), 2) + EncodeValue(e.value, if f.kind.Uint? then f.kind.width else 0)
  }

  ghost function Encode(s: Schema, es: seq<Entry>): seq<byte>
    requires SchemaOk(s) && EntriesOk(s, es)
  {
    if es == [] then [] else EncodeEntry(s, es[0]) + Encode(s, es[1..])
  }

  // An entry as it stands in the bytes, with its size.
  datatype Raw = Raw(kind: nat, id: nat, value: Value, size: nat)

  // Reading one entry off the front; None where the parser gives up.
  function ReadRaw(b: seq<byte>): (r: Option<Raw>)
    ensures r.Some? ==> 4 < r.value.size <= |b| && 1 <= r.value.kind <= 6
  {
    if |b| < 4 then None
    else
      var id, kind := FromLe(b[..2]), FromLe(b[2..4]);
      if 1 <= kind <= 4 then
        if |b| - 4 < WidthOf(kind) then None
        else Some(Raw(kind, id, Num(FromLe(b[4..4 + WidthOf(kind)])), 4 + WidthOf(kind)))
      else if kind == 5 || kind == 6 then
        if |b| - 4 < 4 then None
        else
          var len := FromLe(b[4..8]);
          if |b| - 8 < len then None else Some(Raw(kind, id, Bytes(b[8..8 + len]), 8 + len))
      else None
  }

  // The field an entry is for: the one with its id in its class.
  function FieldOf(s: Schema, kind: nat, id: nat): (f: nat)
    ensures f <= |s|
    ensures f < |s| ==> s[f].id == id && SameClass(TypeOf(s[f].kind), kind)
    ensures forall g :: 0 <= g < f ==> !(s[g].id == id && SameClass(TypeOf(s[g].kind), kind))
  {
    if s == [] then 0
    else if s[0].id == id && SameClass(TypeOf(s[0].kind), kind) then 0
    else 1 + FieldOf(s[1..], kind, id)
  }

  // The entry is one of the message's: its field has exactly its type, and its size if constant.
  predicate Fits(s: Schema, r: Raw) {
    var f := FieldOf(s, r.kind, r.id);
    f < |s| && TypeOf(s[f].kind) == r.kind && (s[f].kind.ConstData? ==> r.value.Bytes? && |r.value.b| == s[f].kind.size)
  }

  // The entries of a whole message, if it consists of entries of the message description.
  function ParseAll(s: Schema, b: seq<byte>): Option<seq<Entry>>
    decreases |b|
  {
    if b == [] then Some([])
    else
      var r := ReadRaw(b);
      if r.None? || !Fits(s, r.value) then None
      else
        var rest := ParseAll(s, b[r.value.size..]);
        if rest.None? then None else Some([Entry(FieldOf(s, r.value.kind, r.value.id), r.value.value)] + rest.value)
  }

  function Count(es: seq<Entry>, f: nat): nat {
    if es == [] then 0 else (if es[0].field == f then 1 else 0) + Count(es[1..], f)
  }

  ghost predicate CardinalitiesOk(s: Schema, es: seq<Entry>) {
    forall f :: 0 <= f < |s| ==> s[f].cardinality.Allows(Count(es, f))
  }

  lemma TwoBytes()
    ensures Range(1) == 0x100 && Range(2) == 0x1_0000 && Range(4) == 0x1_0000_0000
  {
    Range2();
    Range4();
  }

  // What was written is read back, whatever follows.
  lemma ReadWritten(s: Schema, e: Entry, rest: seq<byte>)
    requires SchemaOk(s) && EntryOk(s, e)
    ensures var f := s[e.field];
      ReadRaw(EncodeEntry(s, e) + rest) == Some(Raw(TypeOf(f.kind), f.id, e.value, SizeOf(f.kind, e.value)))
  {
    TwoBytes();
    var f := s[e.field];
    var b := EncodeEntry(s, e) + rest;
    var w := if f.kind.Uint? then f.kind.width else 0;
    LeRoundTrip(f.id, 2);
    LeRoundTrip(TypeOf(f.kind), 2);
    assert b[..2] == Le(f.id, 2) && b[2..4] == Le(TypeOf(f.kind), 2);
    match e.value
    case Num(n) =>
      LeRoundTrip(n, w);
      assert b[4..4 + w] == Le(n, w);
    case Bytes(v) =>
      LeRoundTrip(|v|, 4);
      assert b[4..8] == Le(|v|, 4);
      assert b[8..8 + |v|] == v;
  }

  lemma FieldIsFound(s: Schema, e: Entry)
    requires SchemaOk(s) && EntryOk(s, e)
    ensures FieldOf(s, TypeOf(s[e.field].kind), s[e.field].id) == e.field
  {
  }

  // An entry that is read stands in the bytes exactly as it would be written.
  lemma ReadIsWritten(s: Schema, b: seq<byte>)
    requires SchemaOk(s) && ReadRaw(b).Some? && Fits(s, ReadRaw(b).value)
    ensures var r := ReadRaw(b).value; var e := Entry(FieldOf(s, r.kind, r.id), r.value);
      EntryOk(s, e) && b[..r.size] == EncodeEntry(s, e)
  {
    TwoBytes();
    var r := ReadRaw(b).value;
    var e := Entry(FieldOf(s, r.kind, r.id), r.value);
    FromLeRoundTrip(b[..2]);
    FromLeRoundTrip(b[2..4]);
    if r.kind <= 4 {
      var w := WidthOf(r.kind);
      FromLeRoundTrip(b[4..4 + w]);
      assert b[..r.size] == b[..2] + b[2..4] + b[4..4 + w];
    } else {
      FromLeRoundTrip(b[4..8]);
      assert b[..r.size] == b[..2] + b[2..4] + (b[4..8] + b[8..r.size]);
    }
  }

  lemma {:induction false} ParsedIsWritten(s: Schema, b: seq<byte>)
    requires SchemaOk(s) && ParseAll(s, b).Some?
    ensures EntriesOk(s, ParseAll(s, b).value) && b == Encode(s, ParseAll(s, b).value)
    decreases |b|
  {
    hide ReadRaw, Fits, EncodeEntry, EntryOk, SchemaOk, FieldOf;
    if b != [] {
      ReadIsWritten(s, b);
      var r := ReadRaw(b).value;
      ParsedIsWritten(s, b[r.size..]);
      assert b == b[..r.size] + b[r.size..];
      assert ParseAll(s, b).value[1..] == ParseAll(s, b[r.size..]).value;
    }
  }

  lemma {:induction false} WrittenParses(s: Schema, es: seq<Entry>)
    requires SchemaOk(s) && EntriesOk(s, es)
    ensures ParseAll(s, Encode(s, es)) == Some(es)
    decreases |es|
  {
    hide EntryOk, EncodeEntry, FieldOf, SchemaOk;
    if es != [] {
      WrittenFirst(s, es[0], Encode(s, es[1..]));
      WrittenParses(s, es[1..]);
      assert es == [es[0]] + es[1..];
    }
  }

  lemma WrittenFirst(s: Schema, e: Entry, rest: seq<byte>)
    requires SchemaOk(s) && EntryOk(s, e)
    ensures var b := EncodeEntry(s, e) + rest;
      && b != [] && ReadRaw(b).Some? && Fits(s, ReadRaw(b).value) && b[ReadRaw(b).value.size..] == rest
      && Entry(FieldOf(s, ReadRaw(b).value.kind, ReadRaw(b).value.id), ReadRaw(b).value.value) == e
  {
    ReadWritten(s, e, rest);
    FieldIsFound(s, e);
  }

  // The bytes that parse are exactly the written ones: parsing inverts writing, both ways.
  lemma ParseIffWritten(s: Schema, b: seq<byte>, es: seq<Entry>)
    requires SchemaOk(s)
    ensures ParseAll(s, b) == Some(es) <==> EntriesOk(s, es) && b == Encode(s, es)
  {
    if ParseAll(s, b) == Some(es) {
      ParsedIsWritten(s, b);
    }
    if EntriesOk(s, es) && b == Encode(s, es) {
      WrittenParses(s, es);
    }
  }

  // The parser accepts exactly the messages the writer can have written.
  lemma AcceptsExactlyWritten(s: Schema, b: seq<byte>)
    requires SchemaOk(s)
    ensures (ParseAll(s, b).Some? && CardinalitiesOk(s, ParseAll(s, b).value))
      <==> exists es :: EntriesOk(s, es) && CardinalitiesOk(s, es) && b == Encode(s, es)
  {
    if ParseAll(s, b).Some? && CardinalitiesOk(s, ParseAll(s, b).value) {
      ParsedIsWritten(s, b);
    }
    if es :| EntriesOk(s, es) && CardinalitiesOk(s, es) && b == Encode(s, es) {
      WrittenParses(s, es);
    }
  }
}
