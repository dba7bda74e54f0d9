// Where the entries of a BProto message stand in its bytes, and the values of one field.
module BProtoCursor {
  import opened Wrappers
  import opened BProto

  // The position of entry i.
  function Offset(s: Schema, es: seq<Entry>, i: nat): (r: nat)
    requires SchemaOk(s) && EntriesOk(s, es) && i <= |es|
    ensures r >= i
    decreases i
  {
    if i == 0 then 0 else Offset(s, es, i - 1) + SizeOf(s[es[i - 1].field].kind, es[i - 1].value)
  }

  // The first entry of the field, |es| if there is none.
  function First(es: seq<Entry>, f: nat): (r: nat)
    ensures r <= |es| && (r < |es| ==> es[r].field == f)
    ensures forall j :: 0 <= j < r ==> es[j].field != f
  {
    if es == [] then 0 else if es[0].field == f then 0 else 1 + First(es[1..], f)
  }

  // One past the last entry of the field, 0 if there is none.
  function End(es: seq<Entry>, f: nat): (r: nat)
    ensures r <= |es| && (r > 0 ==> es[r - 1].field == f)
    ensures forall j :: r <= j < |es| ==> es[j].field != f
  {
    if es == [] then 0 else if es[|es| - 1].field == f then |es| else End(es[..|es| - 1], f)
  }

  // The values of the field, in order.
  function ValuesOf(es: seq<Entry>, f: nat): (r: seq<Value>)
    ensures |r| == Count(es, f)
  {
    if es == [] then [] else (if es[0].field == f then [es[0].value] else []) + ValuesOf(es[1..], f)
  }

  lemma {:induction false} OffsetMonotone(s: Schema, es: seq<Entry>, i: nat, j: nat)
    requires SchemaOk(s) && EntriesOk(s, es) && i <= j <= |es|
    ensures Offset(s, es, i) <= Offset(s, es, j) && (i < j ==> Offset(s, es, i) < Offset(s, es, j))
    decreases j
  {
    if i < j {
      OffsetMonotone(s, es, i, j - 1);
      assert EntryOk(s, es[j - 1]);
    }
  }

  lemma {:induction false} OffsetPrefix(s: Schema, es: seq<Entry>, more: seq<Entry>, i: nat)
    requires SchemaOk(s) && EntriesOk(s, es + more) && i <= |es|
    ensures EntriesOk(s, es) && Offset(s, es + more, i) == Offset(s, es, i)
    decreases i
  {
    forall j | 0 <= j < |es| ensures EntryOk(s, es[j]) {
      assert (es + more)[j] == es[j];
    }
    if i > 0 {
      OffsetPrefix(s, es, more, i - 1);
      assert (es + more)[i - 1] == es[i - 1];
    }
  }

  // What stands from entry i on is the rest of the message.
  lemma {:induction false} RestAt(s: Schema, es: seq<Entry>, i: nat)
    requires SchemaOk(s) && EntriesOk(s, es) && i <= |es|
    ensures Offset(s, es, i) <= |Encode(s, es)| && EntriesOk(s, es[i..])
    ensures Encode(s, es)[Offset(s, es, i)..] == Encode(s, es[i..])
    decreases i
  {
    hide EncodeEntry, SchemaOk, EntryOk, SizeOf;
    if i == 0 {
      assert es[0..] == es;
    } else {
      RestAt(s, es, i - 1);
      var e := es[i - 1];
      assert es[i - 1..][0] == e && es[i - 1..][1..] == es[i..];
      var size := SkipEntry(s, es[i - 1..]);
      DropDrop(Encode(s, es), Offset(s, es, i - 1), size);
    }
  }

  lemma {:induction false} SkipEntry(s: Schema, es: seq<Entry>) returns (size: nat)
    requires SchemaOk(s) && EntriesOk(s, es) && es != []
    ensures size == SizeOf(s[es[0].field].kind, es[0].value)
    ensures size <= |Encode(s, es)| && Encode(s, es)[size..] == Encode(s, es[1..])
  {
    size := SizeOf(s[es[0].field].kind, es[0].value);
  }

  lemma {:induction false} DropDrop<T>(b: seq<T>, i: nat, j: nat)
    requires i + j <= |b|
    ensures b[i..][j..] == b[i + j..]
  {
  }

  lemma {:induction false} WholeOffset(s: Schema, es: seq<Entry>)
    requires SchemaOk(s) && EntriesOk(s, es)
    ensures Offset(s, es, |es|) == |Encode(s, es)|
  {
    RestAt(s, es, |es|);
    assert es[|es|..] == [];
  }

  // The entry at position i of the bytes.
  lemma {:induction false} EntryAt(s: Schema, es: seq<Entry>, i: nat)
    requires SchemaOk(s) && EntriesOk(s, es) && i < |es|
    ensures var k := s[es[i].field].kind;
      && Offset(s, es, i + 1) == Offset(s, es, i) + SizeOf(k, es[i].value) <= |Encode(s, es)|
      && ReadRaw(Encode(s, es)[Offset(s, es, i)..]) == Some(Raw(TypeOf(k), s[es[i].field].id, es[i].value, SizeOf(k, es[i].value)))
      && FieldOf(s, TypeOf(k), s[es[i].field].id) == es[i].field
  {
    RestAt(s, es, i);
    RestAt(s, es, i + 1);
    assert EntryOk(s, es[i]) && es[i..][0] == es[i];
    ReadWritten(s, es[i], Encode(s, es[i..][1..]));
    FieldIsFound(s, es[i]);
  }

  lemma {:induction false} ValuesFrom(es: seq<Entry>, f: nat, j: nat)
    requires j < |es|
    ensures ValuesOf(es[j..], f) == (if es[j].field == f then [es[j].value] else []) + ValuesOf(es[j + 1..], f)
  {
    assert es[j..][0] == es[j] && es[j..][1..] == es[j + 1..];
  }

  // There are values left exactly before the end of the field.
  lemma {:induction false} ValuesLeft(es: seq<Entry>, f: nat, j: nat)
    requires j <= |es|
    ensures ValuesOf(es[j..], f) == [] <==> j >= End(es, f)
    decreases |es| - j
  {
    if j < |es| {
      ValuesFrom(es, f, j);
      ValuesLeft(es, f, j + 1);
    } else {
      assert es[j..] == [];
    }
  }

  lemma {:induction false} ValuesFromFirst(es: seq<Entry>, f: nat, j: nat)
    requires j <= First(es, f)
    ensures ValuesOf(es, f) == ValuesOf(es[j..], f)
    decreases j
  {
    if j > 0 {
      ValuesFromFirst(es, f, j - 1);
      ValuesFrom(es, f, j - 1);
    } else {
      assert es[0..] == es;
    }
  }

  lemma {:induction false} CountSnoc(es: seq<Entry>, e: Entry, f: nat)
    ensures Count(es + [e], f) == Count(es, f) + if e.field == f then 1 else 0
  {
    if es == [] {
      assert es + [e] == [e] && [e][1..] == [];
    } else {
      assert (es + [e])[1..] == es[1..] + [e];
      CountSnoc(es[1..], e, f);
    }
  }

  lemma {:induction false} EndSnoc(es: seq<Entry>, e: Entry, f: nat)
    ensures First(es + [e], f) == if First(es, f) < |es| then First(es, f) else if e.field == f then |es| else |es| + 1
    ensures End(es + [e], f) == if e.field == f then |es| + 1 else End(es, f)
    ensures End(es, f) > 0 <==> First(es, f) < |es|
  {
    var es' := es + [e];
    assert es'[|es|] == e && forall j :: 0 <= j < |es| ==> es'[j] == es[j];
    assert es'[..|es|] == es;
  }

  predicate Given(es: seq<Entry>, f: nat) {
    exists i :: 0 <= i < |es| && es[i].field == f
  }

  predicate GivenTwice(es: seq<Entry>, f: nat) {
    exists i, j :: 0 <= i < j < |es| && es[i].field == f && es[j].field == f
  }

  lemma {:induction false} CountMeans(es: seq<Entry>, f: nat)
    ensures Count(es, f) >= 1 <==> Given(es, f)
    ensures Count(es, f) <= 1 <==> !GivenTwice(es, f)
  {
    if es != [] {
      var rest := es[1..];
      CountMeans(rest, f);
      assert forall i :: 0 <= i < |rest| ==> rest[i] == es[i + 1];
      if Given(rest, f) {
        var i :| 0 <= i < |rest| && rest[i].field == f;
        assert es[i + 1].field == f;
      }
      if GivenTwice(rest, f) {
        var i, j :| 0 <= i < j < |rest| && rest[i].field == f && rest[j].field == f;
        assert es[i + 1].field == f && es[j + 1].field == f;
      }
      if Given(es, f) && es[0].field != f {
        var i :| 0 <= i < |es| && es[i].field == f;
        assert rest[i - 1].field == f;
      }
      if GivenTwice(es, f) {
        var i, j :| 0 <= i < j < |es| && es[i].field == f && es[j].field == f;
        assert rest[j - 1].field == f;
        assert i > 0 ==> rest[i - 1].field == f;
      }
    }
  }

  // What the cardinalities of a message description ask for: a required field is there, and a
  // field that does not repeat is there once at most.
  lemma CardinalitiesMean(s: Schema, es: seq<Entry>)
    ensures CardinalitiesOk(s, es) <==>
      forall f :: 0 <= f < |s| ==>
        && (s[f].cardinality == Required || s[f].cardinality == RequiredRepeated ==> Given(es, f))
        && (s[f].cardinality == Required || s[f].cardinality == Optional ==> !GivenTwice(es, f))
  {
    forall f | 0 <= f < |s|
      ensures s[f].cardinality.Allows(Count(es, f)) <==>
        && (s[f].cardinality == Required || s[f].cardinality == RequiredRepeated ==> Given(es, f))
        && (s[f].cardinality == Required || s[f].cardinality == Optional ==> !GivenTwice(es, f))
    {
      CountMeans(es, f);
    }
  }
}
