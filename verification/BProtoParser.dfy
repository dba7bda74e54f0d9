// The parser object that bproto_generator/bproto_functions.php emits for a message.
module BProtoParser {
  import opened Bytes
  import opened Wrappers
  import opened BProto
  import opened BProtoCursor

  // start and span of a field after some entries, of a buffer of this length
  ghost predicate Marked(s: Schema, es: seq<Entry>, f: nat, bufLen: nat, start: nat, span: nat)
    requires SchemaOk(s) && EntriesOk(s, es)
  {
    if End(es, f) == 0 then start == bufLen && span == 0
    else
      && First(es, f) < |es| && First(es, f) < End(es, f)
      && start == Offset(s, es, First(es, f)) && start + span == Offset(s, es, End(es, f))
  }

  // The end of a field's entries, or of the message if it has none.
  function Last(es: seq<Entry>, f: nat): (r: nat)
    ensures r <= |es|
  {
    if End(es, f) == 0 then |es| else End(es, f)
  }

  // The cursor of a field has passed the entries before entry `at`.
  ghost predicate CursorAt(s: Schema, es: seq<Entry>, f: nat, start: nat, span: nat, pos: nat, at: nat)
    requires SchemaOk(s) && EntriesOk(s, es)
  {
    && First(es, f) <= at <= Last(es, f)
    && start == Offset(s, es, First(es, f)) && start + pos == Offset(s, es, at) && start + span == Offset(s, es, Last(es, f))
  }

  class Parser {
    const schema: Schema
    var buf: seq<byte>
    var start: seq<nat>
    var span: seq<nat>
    var pos: seq<nat>
    ghost var entries: seq<Entry>
    ghost var at: seq<nat>

    constructor (schema: Schema)
      requires SchemaOk(schema)
      ensures this.schema == schema
    {
      this.schema := schema;
      buf, start, span, pos, entries, at := [], [], [], [], [], [];
    }

    // The message is accepted, and every cursor is between two of its entries.
    ghost predicate Valid()
      reads this
    {
      && SchemaOk(schema) && EntriesOk(schema, entries) && buf == Encode(schema, entries)
      && |start| == |span| == |pos| == |at| == |schema|
      && forall f :: 0 <= f < |schema| ==> CursorAt(schema, entries, f, start[f], span[f], pos[f], at[f])
    }

    // The values of the field that Get has not returned yet.
    ghost function Left(f: nat): seq<Value>
      requires f < |at| && at[f] <= |entries|
      reads this
    {
      ValuesOf(entries[at[f]..], f)
    }

    // Get: the next value of the field, or none when all were returned.
    method Get(f: nat) returns (v: Option<Value>)
      requires Valid() && f < |schema|
      modifies this`pos, this`at
      ensures Valid() && forall g :: 0 <= g < |schema| && g != f ==> pos[g] == old(pos[g]) && at[g] == old(at[g])
      ensures at[f] <= |entries| && old(at[f]) <= |entries|
      ensures if old(Left(f)) == [] then v == None && Left(f) == []
              else v == Some(old(Left(f))[0]) && Left(f) == old(Left(f))[1..]
    {
      hide ReadRaw, Encode, CursorAt, SchemaOk, ValuesOf, Last;
      ghost var j: nat := at[f];
      var field, first := schema[f], start[f];
      var p: nat := pos[f];
      CursorBounds(schema, entries, f, first, span[f], p, j);
      var left := span[f] - p;
      v := None;
      while left > 0
        invariant pos == old(pos) && at == old(at) && p <= span[f] && left == span[f] - p
        invariant CursorAt(schema, entries, f, first, span[f], p, j) == true
        invariant j <= |entries| && ValuesOf(entries[j..], f) == old(Left(f)) && v == None
      {
        CursorStep(schema, entries, f, first, span[f], p, j);
        // none of the assertions of the emitted code on the bytes left can fail
        var r := ReadRaw(buf[first + p..]);
        assert r.Some? && left >= r.value.size;
        p := p + r.value.size;
        left := left - r.value.size;
        j := j + 1;
        if r.value.kind == TypeOf(field.kind) && r.value.id == field.id {
          v := Some(r.value.value);
          break;
        }
      }
      CursorBounds(schema, entries, f, first, span[f], p, j);
      pos, at := pos[f := p], at[f := j];
    }

    // Reset: every value of the field is left again.
    method Reset(f: nat)
      requires Valid() && f < |schema|
      modifies this`pos, this`at
      ensures Valid() && at[f] <= |entries| && Left(f) == ValuesOf(entries, f)
      ensures forall g :: 0 <= g < |schema| && g != f ==> pos[g] == old(pos[g]) && at[g] == old(at[g])
    {
      FieldEnds(schema, entries, f, start[f], span[f], pos[f], at[f]);
      pos, at := pos[f := 0], at[f := First(entries, f)];
    }

    // Forward: no value of the field is left.
    method Forward(f: nat)
      requires Valid() && f < |schema|
      modifies this`pos, this`at
      ensures Valid() && at[f] <= |entries| && Left(f) == []
      ensures forall g :: 0 <= g < |schema| && g != f ==> pos[g] == old(pos[g]) && at[g] == old(at[g])
    {
      FieldEnds(schema, entries, f, start[f], span[f], pos[f], at[f]);
      pos, at := pos[f := span[f]], at[f := Last(entries, f)];
    }

    // GotEverything: whether every value of every field was returned or forwarded over.
    method GotEverything() returns (r: bool)
      requires Valid()
      ensures r <==> forall f :: 0 <= f < |schema| ==> at[f] <= |entries| && Left(f) == []
    {
      hide CursorAt;
      r := true;
      var f := 0;
      while f < |schema|
        invariant 0 <= f <= |schema|
        invariant r <==> forall g :: 0 <= g < f ==> at[g] <= |entries| && Left(g) == []
      {
        CursorBounds(schema, entries, f, start[f], span[f], pos[f], at[f]);
        r := r && pos[f] == span[f];
        f := f + 1;
      }
    }

    // Parser_Init: accepts exactly the messages that consist of entries of the description in the
    // numbers it allows, and leaves every value of every field to be returned.
    method Init(b: seq<byte>) returns (ok: bool)
      requires SchemaOk(schema)
      modifies this
      ensures ok <==> ParseAll(schema, b).Some? && CardinalitiesOk(schema, ParseAll(schema, b).value)
      ensures ok ==> Valid() && buf == b && Some(entries) == ParseAll(schema, b)
      ensures ok ==> forall f :: 0 <= f < |schema| ==> at[f] <= |entries| && Left(f) == ValuesOf(entries, f)
    {
      hide ParseAll, Encode, AllMarked, CursorAt, ValuesOf, Count, CardinalitiesOk;
      buf := b;
      start, span, pos := seq(|schema|, _ => |b|), seq(|schema|, _ => 0), seq(|schema|, _ => 0);
      var counts := seq(|schema|, _ => 0);
      ok, counts := Scan(counts);
      if !ok {
        return;
      }
      MarkedCounts(schema, entries, |buf|, start, span, counts);
      ok := CheckCounts(counts);
      if ok {
        Accept(counts);
      }
    }

    // The marks are where the cursors start.
    method Accept(ghost counts: seq<nat>)
      requires SchemaOk(schema) && ParseAll(schema, buf) == Some(entries) && AllMarked(schema, entries, |buf|, start, span, counts) == true
      requires |pos| == |schema| && forall f :: 0 <= f < |schema| ==> pos[f] == 0
      modifies this`at
      ensures Valid() && forall f :: 0 <= f < |schema| ==> at[f] <= |entries| && Left(f) == ValuesOf(entries, f)
    {
      hide ParseAll, Encode, Marked, CursorAt, ValuesOf, Count;
      ParsedIsWritten(schema, buf);
      AllCursors(schema, entries, start, span);
      ghost var es := entries;
      at := seq(|schema|, f requires 0 <= f < |schema| => First(es, f));
    }

    // The loop of Parser_Init over the entries.
    method Scan(zero: seq<nat>) returns (ok: bool, counts: seq<nat>)
      requires SchemaOk(schema) && |start| == |span| == |pos| == |zero| == |schema|
      requires forall f :: 0 <= f < |schema| ==> start[f] == |buf| && span[f] == 0 && zero[f] == 0
      modifies this`start, this`span, this`entries
      ensures ok <==> ParseAll(schema, buf).Some?
      ensures ok ==> ParseAll(schema, buf) == Some(entries) && AllMarked(schema, entries, |buf|, start, span, counts) == true
      ensures buf == old(buf) && |start| == |span| == |schema|
    {
      hide ReadRaw, Encode, Marked, FieldOf, Fits;
      entries := [];
      counts := zero;
      NoneMarked(schema, |buf|, start, span, counts);
      ScanStart(schema, buf);
      var i, left := 0, |buf|;
      while left > 0
        invariant 0 <= i <= |buf| && left == |buf| - i && Scanned(schema, buf, i, entries) == true
        invariant AllMarked(schema, entries, |buf|, start, span, counts) == true
      {
        var r := ReadRaw(buf[i..]);
        if r.None? || !Fits(schema, r.value) {
          ScanFails(schema, buf, i, entries);
          return false, counts;
        }
        var f := FieldOf(schema, r.value.kind, r.value.id);
        ScanStep(schema, buf, i, entries);
        MarkStep(schema, buf, i, entries, start, span, counts);
        i, left := i + r.value.size, left - r.value.size;
        if start[f] == |buf| {
          start := start[f := i - r.value.size];
        }
        span := span[f := i - start[f]];
        counts := counts[f := counts[f] + 1];
        entries := entries + [Entry(f, r.value.value)];
      }
      ScanEnd(schema, buf, i, entries);
      ok := true;
    }

    // The cardinality checks at the end of Parser_Init.
    method CheckCounts(counts: seq<nat>) returns (ok: bool)
      requires |counts| == |schema| && forall f :: 0 <= f < |schema| ==> counts[f] == Count(entries, f)
      ensures ok == CardinalitiesOk(schema, entries)
    {
      ok := true;
      var f := 0;
      while f < |schema|
        invariant 0 <= f <= |schema| && (ok <==> forall g :: 0 <= g < f ==> schema[g].cardinality.Allows(Count(entries, g)))
      {
        if !schema[f].cardinality.Allows(counts[f]) {
          ok := false;
        }
        f := f + 1;
      }
    }
  }

  lemma {:induction false} FieldEnds(s: Schema, es: seq<Entry>, f: nat, start: nat, span: nat, pos: nat, at: nat)
    requires SchemaOk(s) && EntriesOk(s, es) && CursorAt(s, es, f, start, span, pos, at)
    ensures CursorAt(s, es, f, start, span, 0, First(es, f)) && CursorAt(s, es, f, start, span, span, Last(es, f))
    ensures ValuesOf(es[First(es, f)..], f) == ValuesOf(es, f) && ValuesOf(es[Last(es, f)..], f) == []
  {
    ValuesFromFirst(es, f, First(es, f));
    ValuesLeft(es, f, Last(es, f));
  }

  ghost predicate AllMarked(s: Schema, es: seq<Entry>, bufLen: nat, start: seq<nat>, span: seq<nat>, counts: seq<nat>) {
    && SchemaOk(s) && EntriesOk(s, es) && |start| == |span| == |counts| == |s|
    && forall f :: 0 <= f < |s| ==> Marked(s, es, f, bufLen, start[f], span[f]) && counts[f] == Count(es, f)
  }

  lemma {:induction false} MarkedCounts(s: Schema, es: seq<Entry>, bufLen: nat, start: seq<nat>, span: seq<nat>, counts: seq<nat>)
    requires AllMarked(s, es, bufLen, start, span, counts)
    ensures |counts| == |s| && forall f :: 0 <= f < |s| ==> counts[f] == Count(es, f)
  {
  }

  lemma {:induction false} NoneMarked(s: Schema, bufLen: nat, start: seq<nat>, span: seq<nat>, counts: seq<nat>)
    requires SchemaOk(s) && |start| == |span| == |counts| == |s|
    requires forall f :: 0 <= f < |s| ==> start[f] == bufLen && span[f] == 0 && counts[f] == 0
    ensures AllMarked(s, [], bufLen, start, span, counts)
  {
  }

  // The entries before position i have been read, and decide the whole message with the rest.
  ghost predicate Scanned(s: Schema, b: seq<byte>, i: nat, done: seq<Entry>) {
    && SchemaOk(s) && EntriesOk(s, done) && i == Offset(s, done, |done|) <= |b|
    && match ParseAll(s, b[i..])
       case None => ParseAll(s, b).None?
       case Some(rest) => ParseAll(s, b) == Some(done + rest)
  }

  lemma {:induction false} ScanStart(s: Schema, b: seq<byte>)
    requires SchemaOk(s)
    ensures Scanned(s, b, 0, [])
  {
    assert b[0..] == b;
    if ParseAll(s, b).Some? {
      assert [] + ParseAll(s, b).value == ParseAll(s, b).value;
    }
  }

  lemma {:induction false} ScanFails(s: Schema, b: seq<byte>, i: nat, done: seq<Entry>)
    requires Scanned(s, b, i, done) && i < |b| && (ReadRaw(b[i..]).None? || !Fits(s, ReadRaw(b[i..]).value))
    ensures ParseAll(s, b).None?
  {
  }

  lemma {:induction false} ScanEnd(s: Schema, b: seq<byte>, i: nat, done: seq<Entry>)
    requires Scanned(s, b, i, done) && i == |b|
    ensures ParseAll(s, b) == Some(done)
  {
    assert b[i..] == [] && done + [] == done;
  }

  lemma {:induction false} ScanStep(s: Schema, b: seq<byte>, i: nat, done: seq<Entry>)
    requires Scanned(s, b, i, done) && i < |b| && ReadRaw(b[i..]).Some? && Fits(s, ReadRaw(b[i..]).value)
    ensures var r := ReadRaw(b[i..]).value;
      FieldOf(s, r.kind, r.id) < |s| && i + r.size <= |b| && Scanned(s, b, i + r.size, done + [Entry(FieldOf(s, r.kind, r.id), r.value)])
  {
    hide ReadRaw, EncodeEntry, SchemaOk, EntryOk, FieldOf;
    var r := ReadRaw(b[i..]).value;
    var e := Entry(FieldOf(s, r.kind, r.id), r.value);
    ReadIsWritten(s, b[i..]);
    DropDrop(b, i, r.size);
    SnocOffset(s, done, e);
    ReadSize(s, b[i..]);
    if ParseAll(s, b[i + r.size..]).Some? {
      var rest := ParseAll(s, b[i + r.size..]).value;
      assert done + ([e] + rest) == (done + [e]) + rest;
    }
  }

  lemma {:induction false} ReadSize(s: Schema, b: seq<byte>)
    requires SchemaOk(s) && ReadRaw(b).Some? && Fits(s, ReadRaw(b).value)
    ensures var r := ReadRaw(b).value; var e := Entry(FieldOf(s, r.kind, r.id), r.value);
      EntryOk(s, e) && SizeOf(s[e.field].kind, e.value) == r.size
  {
    ReadIsWritten(s, b);
  }

  lemma {:induction false} SnocOffset(s: Schema, done: seq<Entry>, e: Entry)
    requires SchemaOk(s) && EntriesOk(s, done) && EntryOk(s, e)
    ensures EntriesOk(s, done + [e])
    ensures Offset(s, done + [e], |done| + 1) == Offset(s, done, |done|) + SizeOf(s[e.field].kind, e.value)
  {
    var es := done + [e];
    assert forall i :: 0 <= i < |es| ==> es[i] == if i < |done| then done[i] else e;
    OffsetPrefix(s, done, [e], |done|);
  }

  // The marks of all fields after one more entry.
  lemma {:induction false} MarkStep(s: Schema, b: seq<byte>, i: nat, done: seq<Entry>, start: seq<nat>, span: seq<nat>, counts: seq<nat>)
    requires Scanned(s, b, i, done) && i < |b| && ReadRaw(b[i..]).Some? && Fits(s, ReadRaw(b[i..]).value)
    requires AllMarked(s, done, |b|, start, span, counts)
    ensures var r := ReadRaw(b[i..]).value;
      var f := FieldOf(s, r.kind, r.id);
      && f < |s|
      && var st := if start[f] == |b| then start[f := i] else start;
        st[f] <= i && AllMarked(s, done + [Entry(f, r.value)], |b|, st, span[f := i + r.size - st[f]], counts[f := counts[f] + 1])
  {
    hide ReadRaw, EncodeEntry, SchemaOk, EntryOk, FieldOf;
    var r := ReadRaw(b[i..]).value;
    var e := Entry(FieldOf(s, r.kind, r.id), r.value);
    ReadSize(s, b[i..]);
    SnocOffset(s, done, e);
    var es := done + [e];
    var f := e.field;
    var st := if start[f] == |b| then start[f := i] else start;
    MarkedBounds(s, done, f, |b|, start[f], span[f]);
    forall g | 0 <= g < |s|
      ensures Marked(s, es, g, |b|, st[g], span[f := i + r.size - st[f]][g]) && counts[f := counts[f] + 1][g] == Count(es, g)
    {
      CountSnoc(done, e, g);
      MarkOne(s, done, e, g, |b|, start[g], span[g], i);
    }
  }

  lemma {:induction false} MarkedBounds(s: Schema, es: seq<Entry>, f: nat, bufLen: nat, start: nat, span: nat)
    requires SchemaOk(s) && EntriesOk(s, es) && Marked(s, es, f, bufLen, start, span) && Offset(s, es, |es|) < bufLen
    ensures start == bufLen <==> End(es, f) == 0
    ensures start != bufLen ==> start <= Offset(s, es, |es|)
  {
    OffsetMonotone(s, es, First(es, f), |es|);
  }

  lemma {:induction false} MarkOne(s: Schema, done: seq<Entry>, e: Entry, g: nat, bufLen: nat, start: nat, span: nat, i: nat)
    requires SchemaOk(s) && EntriesOk(s, done) && EntryOk(s, e) && Marked(s, done, g, bufLen, start, span)
    requires i == Offset(s, done, |done|) < bufLen
    ensures EntriesOk(s, done + [e])
    ensures e.field != g ==> Marked(s, done + [e], g, bufLen, start, span)
    ensures e.field == g ==>
      var st := if start == bufLen then i else start;
      st <= i && Marked(s, done + [e], g, bufLen, st, i + SizeOf(s[g].kind, e.value) - st)
  {
    hide SchemaOk, EntryOk, SizeOf;
    SnocOffset(s, done, e);
    EndSnoc(done, e, g);
    MarkedBounds(s, done, g, bufLen, start, span);
    OffsetPrefix(s, done, [e], First(done, g));
    OffsetPrefix(s, done, [e], End(done, g));
    OffsetPrefix(s, done, [e], |done|);
  }

  // Marks at the end of the message are cursors before the first entries.
  lemma {:induction false} AllCursors(s: Schema, es: seq<Entry>, start: seq<nat>, span: seq<nat>)
    requires SchemaOk(s) && EntriesOk(s, es) && |start| == |span| == |s|
    requires forall f :: 0 <= f < |s| ==> Marked(s, es, f, |Encode(s, es)|, start[f], span[f])
    ensures forall f :: 0 <= f < |s| ==>
      CursorAt(s, es, f, start[f], span[f], 0, First(es, f)) && ValuesOf(es[First(es, f)..], f) == ValuesOf(es, f)
  {
    WholeOffset(s, es);
    forall f | 0 <= f < |s|
      ensures CursorAt(s, es, f, start[f], span[f], 0, First(es, f)) && ValuesOf(es[First(es, f)..], f) == ValuesOf(es, f)
    {
      assert Marked(s, es, f, |Encode(s, es)|, start[f], span[f]);
      ValuesFromFirst(es, f, First(es, f));
      FirstOrNone(es, f);
    }
  }

  lemma {:induction false} FirstOrNone(es: seq<Entry>, f: nat)
    ensures End(es, f) == 0 <==> First(es, f) == |es|
    ensures First(es, f) <= Last(es, f)
  {
  }

  // A cursor at the end of its span has no values left.
  lemma {:induction false} CursorBounds(s: Schema, es: seq<Entry>, f: nat, start: nat, span: nat, pos: nat, at: nat)
    requires SchemaOk(s) && EntriesOk(s, es) && CursorAt(s, es, f, start, span, pos, at)
    ensures at <= |es| && pos <= span && (pos == span <==> ValuesOf(es[at..], f) == [])
  {
    ValuesLeft(es, f, at);
    OffsetMonotone(s, es, at, Last(es, f));
  }

  // A cursor before the end of its span is before an entry, which can be read within the span.
  lemma {:induction false} CursorStep(s: Schema, es: seq<Entry>, f: nat, start: nat, span: nat, pos: nat, at: nat)
    requires SchemaOk(s) && EntriesOk(s, es) && CursorAt(s, es, f, start, span, pos, at) && pos < span && f < |s|
    ensures at < |es| && start + pos <= |Encode(s, es)| && ReadRaw(Encode(s, es)[start + pos..]).Some?
    ensures var r := ReadRaw(Encode(s, es)[start + pos..]).value;
      && pos + r.size <= span && CursorAt(s, es, f, start, span, pos + r.size, at + 1) && r.value == es[at].value
      && ((r.kind == TypeOf(s[f].kind) && r.id == s[f].id) <==> es[at].field == f)
    ensures ValuesOf(es[at..], f) == (if es[at].field == f then [es[at].value] else []) + ValuesOf(es[at + 1..], f)
  {
    hide ReadRaw, Encode, FieldOf, Offset, First, ValuesOf, Last;
    OffsetMonotone(s, es, at, Last(es, f));
    if at == Last(es, f) {
      assert false;
    }
    OffsetMonotone(s, es, at + 1, Last(es, f));
    RestAt(s, es, at);
    EntryAt(s, es, at);
    ValuesFrom(es, f, at);
    ClassIsField(s, es[at], f);
  }

  // The type and id of an entry tell whether it is one of the field.
  lemma {:induction false} ClassIsField(s: Schema, e: Entry, f: nat)
    requires SchemaOk(s) && EntryOk(s, e) && f < |s|
    ensures TypeOf(s[e.field].kind) == TypeOf(s[f].kind) && s[e.field].id == s[f].id <==> e.field == f
  {
  }
}
