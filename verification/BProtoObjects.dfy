// The writer and parser objects that bproto_generator/bproto_functions.php emits for a message.
module BProtoObjects {
  import opened Bytes
  import opened Memory
  import opened Wrappers
  import opened BProto
  import opened BProtoCursor

  class Writer {
    const schema: Schema
    const out: array<byte>
    var used: nat
    var counts: seq<nat>
    ghost var entries: seq<Entry>

    ghost predicate Valid()
      reads this, out
    {
      && SchemaOk(schema) && EntriesOk(schema, entries)
      && |counts| == |schema| && (forall f :: 0 <= f < |schema| ==> counts[f] == Count(entries, f))
      && used <= out.Length && out[..used] == Encode(schema, entries)
    }

    constructor (schema: Schema, out: array<byte>)
      requires SchemaOk(schema)
      ensures Valid() && entries == [] && this.schema == schema && this.out == out
    {
      this.schema, this.out := schema, out;
      used := 0;
      counts := seq(|schema|, _ => 0);
      entries := [];
    }

    // The assertion of the generated Add functions on the cardinality.
    predicate MayAdd(f: nat)
      reads this
    {
      f < |schema| && f < |counts| && (schema[f].cardinality.Optional? || schema[f].cardinality.Required? ==> counts[f] == 0)
    }

    method Put(b: seq<byte>)
      requires used + |b| <= out.Length
      modifies this`used, out
      ensures used == old(used) + |b| && out[..used] == old(out[..used]) + b && out[used..] == old(out[..])[used..]
    {
      CopyInto(out, used, b);
      used := used + |b|;
    }

    method PutHeader(f: nat)
      requires f < |schema| && used + 4 <= out.Length
      modifies this`used, out
      ensures used == old(used) + 4
      ensures out[..used] == old(out[..used]) + (Le(schema[f].id, 2) + Le(TypeOf(schema[f].kind), 2))
      ensures out[used..] == old(out[..])[used..]
    {
      Put(Le(schema[f].id, 2) + Le(TypeOf(schema[f].kind), 2));
    }

    // The two headers of a data or constdata entry
    method PutDataHeader(f: nat, len: nat)
      requires f < |schema| && used + 8 <= out.Length
      modifies this`used, out
      ensures used == old(used) + 8
      ensures out[..used] == old(out[..used]) + (Le(schema[f].id, 2) + Le(TypeOf(schema[f].kind), 2)) + Le(len, 4)
      ensures out[used..] == old(out[..])[used..]
    {
      hide Le;
      PutHeader(f);
      ghost var middle := out[..];
      Put(Le(len, 4));
      assert out[used..] == middle[used - 4..][4..];
    }

    method Counted(f: nat, ghost v: Value)
      requires f < |schema| == |counts|
      modifies this`counts, this`entries
      ensures entries == old(entries) + [Entry(f, v)] && counts == old(counts)[f := old(counts)[f] + 1]
    {
      counts := counts[f := counts[f] + 1];
      entries := entries + [Entry(f, v)];
    }

    // Add for an integer field
    method AddUint(f: nat, v: nat)
      requires Valid() && MayAdd(f) && schema[f].kind.Uint? && v < Range(schema[f].kind.width)
      requires used + SizeOf(schema[f].kind, Num(v)) <= out.Length
      modifies this, out
      ensures Valid() && entries == old(entries) + [Entry(f, Num(v))]
      ensures used == old(used) + SizeOf(schema[f].kind, Num(v))
    {
      EncodeSnoc(schema, entries, Entry(f, Num(v)));
      CountsAfter(schema, entries, counts, Entry(f, Num(v)));
      hide Encode, EncodeEntry, Count, SchemaOk, EntryOk, Le;
      ghost var before := out[..used];
      PutHeader(f);
      Put(Le(v, schema[f].kind.width));
      Glue(schema, before, Entry(f, Num(v)));
      Counted(f, Num(v));
    }

    // Add for a data or constdata field: the place the caller copies the payload to. Until then the
    // payload is what the buffer held.
    method AddData(f: nat, len: nat) returns (dest: nat)
      requires Valid() && MayAdd(f) && DataFits(schema[f].kind, len) && used + 8 + len <= out.Length
      modifies this, out
      ensures dest == old(used) + 8 && used == dest + len && out[dest..used] == old(out[..])[dest..used]
      ensures Valid() && entries == old(entries) + [Entry(f, Bytes(out[dest..used]))]
      ensures dest == Offset(schema, entries, |entries| - 1) + 8
    {
      ghost var data;
      dest, data := PutData(f, len);
      AddedEntry(schema, entries, counts, Entry(f, Bytes(data)));
      hide Encode, EncodeEntry, Count, SchemaOk, EntriesOk, EntryOk, Offset, ValueOk;
      Counted(f, Bytes(data));
    }

    // The bytes of a data or constdata entry, with the payload left as it is
    method PutData(f: nat, len: nat) returns (dest: nat, ghost data: seq<byte>)
      requires SchemaOk(schema) && f < |schema| && DataFits(schema[f].kind, len) && used + 8 + len <= out.Length
      modifies this`used, out
      ensures dest == old(used) + 8 && used == dest + len && data == out[dest..used] == old(out[..])[dest..used]
      ensures EntryOk(schema, Entry(f, Bytes(data)))
      ensures out[..used] == old(out[..used]) + EncodeEntry(schema, Entry(f, Bytes(data)))
    {
      data := out[used + 8..used + 8 + len];
      hide EncodeEntry, SchemaOk, Le;
      ghost var before := out[..used];
      PutDataHeader(f, len);
      dest := used;
      assert data == out[used..][..len] == out[used..used + len];
      Skip(len);
      GlueData(schema, before, Entry(f, Bytes(data)));
    }

    method Skip(len: nat)
      requires used + len <= out.Length
      modifies this`used
      ensures used == old(used) + len && out[..used] == old(out[..used]) + old(out[used..used + len])
    {
      used := used + len;
    }

    // The caller copies the payload of an entry, which may have others behind it by now, to its place.
    method Fill(dest: nat, data: seq<byte>, ghost a: seq<Entry>, ghost e: Entry, ghost b: seq<Entry>)
      requires Valid() && entries == Around(a, e, b) && e.value.Bytes? && |e.value.b| == |data|
      requires dest == Offset(schema, entries, |a|) + 8
      modifies this`entries, out
      ensures Valid() && entries == Around(a, Entry(e.field, Bytes(data)), b)
    {
      hide Encode, Count, SchemaOk, EntriesOk, Offset, Overwrite, Around;
      ghost var es := Around(a, Entry(e.field, Bytes(data)), b);
      FilledWhole(schema, counts, entries, es, a, e, Entry(e.field, Bytes(data)), b);
      PutAt(dest, data);
      Replace(es);
    }

    method PutAt(pos: nat, b: seq<byte>)
      requires pos + |b| <= used <= out.Length
      modifies out
      ensures out[..used] == Overwrite(old(out[..used]), pos, b)
    {
      PrefixSpliced(out[..], pos, b, used);
      CopyInto(out, pos, b);
    }

    ghost method Replace(es: seq<Entry>)
      modifies this`entries
      ensures entries == es
    {
      entries := es;
    }

    // Finish: the length of the message, which is the sum of the sizes of its entries, and which
    // the parser turns back into them.
    method Finish() returns (len: nat)
      requires Valid() && CardinalitiesOk(schema, entries)
      ensures len == used == Offset(schema, entries, |entries|)
      ensures ParseAll(schema, out[..len]) == Some(entries)
    {
      WholeOffset(schema, entries);
      WrittenParses(schema, entries);
      len := used;
    }
  }

  lemma {:induction false} EncodeSnoc(s: Schema, es: seq<Entry>, e: Entry)
    requires SchemaOk(s) && EntriesOk(s, es) && EntryOk(s, e)
    ensures EntriesOk(s, es + [e]) && Encode(s, es + [e]) == Encode(s, es) + EncodeEntry(s, e)
  {
    hide SchemaOk, EncodeEntry;
    if es == [] {
      assert es + [e] == [e] && [e][1..] == [];
    } else {
      assert (es + [e])[1..] == es[1..] + [e];
      EncodeSnoc(s, es[1..], e);
    }
  }

  predicate DataFits(kind: Kind, len: nat) {
    match kind
    case Uint(_) => false
    case Data => len < 0x1_0000_0000
    case ConstData(size) => len == size
  }

  lemma AddedEntry(s: Schema, es: seq<Entry>, counts: seq<nat>, e: Entry)
    requires SchemaOk(s) && EntriesOk(s, es) && EntryOk(s, e)
    requires |s| == |counts| && forall f :: 0 <= f < |s| ==> counts[f] == Count(es, f)
    ensures EntriesOk(s, es + [e]) && Encode(s, es + [e]) == Encode(s, es) + EncodeEntry(s, e)
    ensures Offset(s, es + [e], |es|) == |Encode(s, es)|
    ensures forall f :: 0 <= f < |s| ==> counts[e.field := counts[e.field] + 1][f] == Count(es + [e], f)
  {
    EncodeSnoc(s, es, e);
    CountsAfter(s, es, counts, e);
    LastOffset(s, es, e);
  }

  lemma LastOffset(s: Schema, es: seq<Entry>, e: Entry)
    requires SchemaOk(s) && EntriesOk(s, es) && EntryOk(s, e)
    ensures EntriesOk(s, es + [e]) && Offset(s, es + [e], |es|) == |Encode(s, es)|
  {
    OffsetPrefix(s, es, [e], |es|);
    WholeOffset(s, es);
  }

  lemma {:induction false} EncodeAppend(s: Schema, a: seq<Entry>, b: seq<Entry>)
    requires SchemaOk(s) && EntriesOk(s, a) && EntriesOk(s, b)
    ensures EntriesOk(s, a + b) && Encode(s, a + b) == Encode(s, a) + Encode(s, b)
  {
    hide SchemaOk, EncodeEntry;
    if a == [] {
      assert a + b == b;
    } else {
      assert (a + b)[1..] == a[1..] + b;
      EncodeAppend(s, a[1..], b);
    }
  }

  // The bytes around an entry.
  lemma EncodeAround(s: Schema, a: seq<Entry>, e: Entry, b: seq<Entry>)
    requires SchemaOk(s) && EntriesOk(s, a) && EntryOk(s, e) && EntriesOk(s, b)
    ensures EntriesOk(s, a + [e] + b) && Encode(s, a + [e] + b) == Encode(s, a) + (EncodeEntry(s, e) + Encode(s, b))
  {
    hide SchemaOk, EncodeEntry;
    EncodeSnoc(s, a, e);
    EncodeAppend(s, a + [e], b);
    assert Encode(s, a + [e] + b) == Encode(s, a) + EncodeEntry(s, e) + Encode(s, b);
  }

  function Overwrite(w: seq<byte>, pos: nat, b: seq<byte>): (r: seq<byte>)
    requires pos + |b| <= |w|
    ensures |r| == |w|
  {
    w[..pos] + b + w[pos + |b|..]
  }

  lemma AroundValue(s: Schema, a: seq<Entry>, was: Entry, e: Entry, b: seq<Entry>)
    requires SchemaOk(s) && EntriesOk(s, a) && EntryOk(s, was) && EntryOk(s, e) && EntriesOk(s, b) && was.field == e.field
    requires was.value.Bytes? && e.value.Bytes? && |was.value.b| == |e.value.b|
    ensures EntriesOk(s, a + [was] + b) && EntriesOk(s, a + [e] + b)
    ensures var w, o := Encode(s, a + [was] + b), |Encode(s, a)| + 8;
      o + |e.value.b| <= |w| && Encode(s, a + [e] + b) == Overwrite(w, o, e.value.b)
  {
    hide SchemaOk, EntriesOk, EntryOk, Encode, EncodeEntry, Overwrite;
    EncodeAround(s, a, was, b);
    EncodeAround(s, a, e, b);
    Splice(Encode(s, a), s, was, e, Encode(s, b));
  }

  // Where an entry's payload stands, and that writing another one there changes that entry alone.
  lemma PayloadPlace(s: Schema, a: seq<Entry>, was: Entry, e: Entry, b: seq<Entry>)
    requires SchemaOk(s) && EntriesOk(s, a) && EntryOk(s, was) && EntryOk(s, e) && EntriesOk(s, b) && was.field == e.field
    requires was.value.Bytes? && e.value.Bytes? && |was.value.b| == |e.value.b|
    ensures EntriesOk(s, a + [was] + b) && EntriesOk(s, a + [e] + b)
    ensures var w, o := Encode(s, a + [was] + b), Offset(s, a + [was] + b, |a|) + 8;
      o + |e.value.b| <= |w| && Encode(s, a + [e] + b) == Overwrite(w, o, e.value.b)
  {
    hide SchemaOk, EntriesOk, EntryOk, Encode, Offset, Overwrite;
    AroundValue(s, a, was, e, b);
    assert a + [was] + b == a + ([was] + b);
    PlaceAfter(s, a, [was] + b);
  }

  // Entries a, then e, then b.
  function Around(a: seq<Entry>, e: Entry, b: seq<Entry>): (es: seq<Entry>)
    ensures |es| == |a| + 1 + |b|
  {
    a + [e] + b
  }

  // The bytes of `after` are those of es with another payload at entry i.
  ghost predicate Rewritten(s: Schema, es: seq<Entry>, after: seq<Entry>, i: nat, b: seq<byte>)
    requires SchemaOk(s) && EntriesOk(s, es) && EntriesOk(s, after) && i <= |es|
  {
    && Offset(s, es, i) + 8 + |b| <= |Encode(s, es)|
    && Encode(s, after) == Overwrite(Encode(s, es), Offset(s, es, i) + 8, b)
  }

  lemma FilledEntry(s: Schema, counts: seq<nat>, a: seq<Entry>, was: Entry, e: Entry, b: seq<Entry>)
    requires SchemaOk(s) && EntriesOk(s, Around(a, was, b)) && was.field == e.field
    requires was.value.Bytes? && e.value.Bytes? && |was.value.b| == |e.value.b|
    requires |counts| == |s| && forall f :: 0 <= f < |s| ==> counts[f] == Count(Around(a, was, b), f)
    ensures EntriesOk(s, Around(a, e, b)) && Rewritten(s, Around(a, was, b), Around(a, e, b), |a|, e.value.b)
    ensures forall f :: 0 <= f < |s| ==> counts[f] == Count(Around(a, e, b), f)
  {
    hide SchemaOk, EntriesOk, EntryOk, Encode, Offset, Overwrite, Count;
    Parts(s, a, was, e, b);
    PayloadPlace(s, a, was, e, b);
    SameCounts(a, was, e, b);
  }

  lemma FilledWhole(s: Schema, counts: seq<nat>, es: seq<Entry>, after: seq<Entry>, a: seq<Entry>, was: Entry, e: Entry, b: seq<Entry>)
    requires SchemaOk(s) && EntriesOk(s, es) && es == Around(a, was, b) && after == Around(a, e, b) && was.field == e.field
    requires was.value.Bytes? && e.value.Bytes? && |was.value.b| == |e.value.b|
    requires |counts| == |s| && forall f :: 0 <= f < |s| ==> counts[f] == Count(es, f)
    ensures EntriesOk(s, after) && Rewritten(s, es, after, |a|, e.value.b)
    ensures forall f :: 0 <= f < |s| ==> counts[f] == Count(after, f)
  {
    hide SchemaOk, EntriesOk, EntryOk, Rewritten, Count, Around;
    FilledEntry(s, counts, a, was, e, b);
  }

  lemma PlaceAfter(s: Schema, a: seq<Entry>, b: seq<Entry>)
    requires SchemaOk(s) && EntriesOk(s, a + b)
    ensures EntriesOk(s, a) && |Encode(s, a)| == Offset(s, a + b, |a|)
  {
    OffsetPrefix(s, a, b, |a|);
    WholeOffset(s, a);
  }

  lemma Parts(s: Schema, a: seq<Entry>, was: Entry, e: Entry, b: seq<Entry>)
    requires SchemaOk(s) && EntriesOk(s, a + [was] + b) && e.field == was.field
    requires was.value.Bytes? && e.value.Bytes? && |was.value.b| == |e.value.b|
    ensures EntriesOk(s, a) && EntryOk(s, was) && EntryOk(s, e) && EntriesOk(s, b)
  {
    var es := a + [was] + b;
    assert EntryOk(s, es[|a|]);
    assert forall i :: 0 <= i < |a| ==> es[i] == a[i];
    assert forall i :: 0 <= i < |b| ==> es[|a| + 1 + i] == b[i];
  }

  lemma PrefixSpliced(w: seq<byte>, pos: nat, b: seq<byte>, n: nat)
    requires pos + |b| <= n <= |w|
    ensures Overwrite(w, pos, b)[..n] == Overwrite(w[..n], pos, b)
  {
  }

  lemma Splice(before: seq<byte>, s: Schema, was: Entry, e: Entry, after: seq<byte>)
    requires SchemaOk(s) && EntryOk(s, was) && EntryOk(s, e) && was.field == e.field
    requires was.value.Bytes? && e.value.Bytes? && |was.value.b| == |e.value.b|
    ensures var w, o, n := before + (EncodeEntry(s, was) + after), |before| + 8, |e.value.b|;
      o + n <= |w| && before + (EncodeEntry(s, e) + after) == Overwrite(w, o, e.value.b)
  {
  }

  lemma SameCounts(a: seq<Entry>, was: Entry, e: Entry, b: seq<Entry>)
    requires was.field == e.field
    ensures forall f :: Count(a + [e] + b, f) == Count(a + [was] + b, f)
  {
    forall f ensures Count(a + [e] + b, f) == Count(a + [was] + b, f) {
      CountAround(a, was, b, f);
      CountAround(a, e, b, f);
    }
  }

  lemma {:induction false} CountAround(a: seq<Entry>, e: Entry, b: seq<Entry>, f: nat)
    ensures Count(a + [e] + b, f) == Count(a, f) + (if e.field == f then 1 else 0) + Count(b, f)
  {
    if a == [] {
      assert a + [e] + b == [e] + b && ([e] + b)[1..] == b;
    } else {
      assert (a + [e] + b)[1..] == a[1..] + [e] + b;
      CountAround(a[1..], e, b, f);
    }
  }

  lemma CountsAfter(s: Schema, es: seq<Entry>, counts: seq<nat>, e: Entry)
    requires e.field < |s| == |counts| && forall f :: 0 <= f < |s| ==> counts[f] == Count(es, f)
    ensures forall f :: 0 <= f < |s| ==> counts[e.field := counts[e.field] + 1][f] == Count(es + [e], f)
  {
    forall f | 0 <= f < |s| ensures counts[e.field := counts[e.field] + 1][f] == Count(es + [e], f) {
      CountSnoc(es, e, f);
    }
  }

  lemma Glue(s: Schema, before: seq<byte>, e: Entry)
    requires SchemaOk(s) && EntryOk(s, e) && e.value.Num? && s[e.field].kind.Uint?
    ensures before + (Le(s[e.field].id, 2) + Le(TypeOf(s[e.field].kind), 2)) + Le(e.value.n, s[e.field].kind.width) == before + EncodeEntry(s, e)
  {
  }

  lemma GlueData(s: Schema, before: seq<byte>, e: Entry)
    requires SchemaOk(s) && EntryOk(s, e) && e.value.Bytes?
    ensures before + (Le(s[e.field].id, 2) + Le(TypeOf(s[e.field].kind), 2)) + Le(|e.value.b|, 4) + e.value.b == before + EncodeEntry(s, e)
  {
  }
}
