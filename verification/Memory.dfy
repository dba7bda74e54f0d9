// memcpy into an array.
module Memory {
  import opened Bytes

  method CopyInto(a: array<byte>, pos: nat, b: seq<byte>)
    requires pos + |b| <= a.Length
    modifies a
    ensures a[..] == old(a[..pos]) + b + old(a[pos + |b|..])
  {
    var i := 0;
    while i < |b|
      invariant 0 <= i <= |b|
      invariant forall j :: 0 <= j < pos ==> a[j] == old(a[j])
      invariant forall j :: 0 <= j < i ==> a[pos + j] == b[j]
      invariant forall j :: pos + |b| <= j < a.Length ==> a[j] == old(a[j])
    {
      a[pos + i] := b[i];
      i := i + 1;
    }
    Spliced(old(a[..]), a[..], pos, b);
  }

  lemma Spliced(before: seq<byte>, after: seq<byte>, pos: nat, b: seq<byte>)
    requires |after| == |before| && pos + |b| <= |before|
    requires forall j :: 0 <= j < pos ==> after[j] == before[j]
    requires forall j :: 0 <= j < |b| ==> after[pos + j] == b[j]
    requires forall j :: pos + |b| <= j < |before| ==> after[j] == before[j]
    ensures after == before[..pos] + b + before[pos + |b|..]
  {
    var w := before[..pos] + b + before[pos + |b|..];
    forall j | 0 <= j < |after| ensures after[j] == w[j] {
      if pos <= j < pos + |b| {
        assert after[pos + (j - pos)] == b[j - pos];
      }
    }
  }
}
