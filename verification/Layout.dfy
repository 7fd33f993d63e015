/** Struct and enum layout. */
module Layout {
  import opened Options
  import opened Arith
  import opened Bits

  datatype Field = Field(name: string, size: nat, align: nat)

  predicate Aligned(fs: seq<Field>) {
    forall i :: 0 <= i < |fs| ==> fs[i].align > 0
  }

  /** Alignments are powers of two. */
  predicate Proper(fs: seq<Field>) {
    forall i :: 0 <= i < |fs| ==> IsPow2(fs[i].align)
  }

  function Max(a: nat, b: nat): (m: nat)
    ensures m >= a && m >= b && (m == a || m == b)
  {
    if b > a then b else a
  }

  // What a layout is

  /** First free byte after the first `n` fields. */
  function End(fs: seq<Field>, n: nat): nat
    requires Aligned(fs) && n <= |fs|
    decreases n, 0
  {
    if n == 0 then 0 else OffsetOf(fs, n - 1) + fs[n - 1].size
  }

  function OffsetOf(fs: seq<Field>, i: nat): (o: nat)
    requires Aligned(fs) && i < |fs|
    ensures o % fs[i].align == 0
    decreases i, 1
  {
    RoundUp(End(fs, i), fs[i].align)
  }

  function MaxAlign(fs: seq<Field>, n: nat): (a: nat)
    requires Aligned(fs) && n <= |fs|
    ensures a >= 1
  {
    if n == 0 then 1 else Max(MaxAlign(fs, n - 1), fs[n - 1].align)
  }

  function SizeOf(fs: seq<Field>): (s: nat)
    requires Aligned(fs)
    ensures s % MaxAlign(fs, |fs|) == 0 && s >= End(fs, |fs|)
  {
    RoundUp(End(fs, |fs|), MaxAlign(fs, |fs|))
  }

  // Structs

  /** The checker's loop, with padding by modulus. */
  method LayoutStruct(fs: seq<Field>) returns (offsets: seq<nat>, size: nat, align: nat)
    requires Aligned(fs)
    ensures |offsets| == |fs| && forall i :: 0 <= i < |fs| ==> offsets[i] == OffsetOf(fs, i)
    ensures size == SizeOf(fs) && align == MaxAlign(fs, |fs|)
  {
    var current := 0;
    align := 1;
    offsets := [];
    for i := 0 to |fs|
      invariant |offsets| == i && forall j :: 0 <= j < i ==> offsets[j] == OffsetOf(fs, j)
      invariant current == End(fs, i) && align == MaxAlign(fs, i)
    {
      var a := fs[i].align;
      var padding := (a - current % a) % a;
      ModRoundsUp(current, a);
      current := current + padding;
      offsets := offsets + [current];
      current := current + fs[i].size;
      if a > align {
        align := a;
      }
    }
    var padding := (align - current % align) % align;
    ModRoundsUp(current, align);
    size := current + padding;
  }

  /** Any way of placing the fields in order, aligned and without overlap. */
  predicate Placement(fs: seq<Field>, offs: seq<nat>)
    requires Aligned(fs)
  {
    && |offs| == |fs|
    && (forall i :: 0 <= i < |fs| ==> offs[i] % fs[i].align == 0)
    && (forall i :: 0 < i < |fs| ==> offs[i - 1] + fs[i - 1].size <= offs[i])
  }

  function Offsets(fs: seq<Field>): seq<nat>
    requires Aligned(fs)
  {
    seq(|fs|, i requires 0 <= i < |fs| => OffsetOf(fs, i))
  }

  /** The computed offsets are such a placement. */
  lemma {:induction false} OffsetsPlace(fs: seq<Field>)
    requires Aligned(fs)
    ensures Placement(fs, Offsets(fs))
  {
    forall i | 0 < i < |fs|
      ensures OffsetOf(fs, i - 1) + fs[i - 1].size <= OffsetOf(fs, i)
    {
      assert End(fs, i) == OffsetOf(fs, i - 1) + fs[i - 1].size;
    }
  }

  /** And the least one, field by field. */
  lemma {:induction false} OffsetsLeast(fs: seq<Field>, offs: seq<nat>, i: nat)
    requires Aligned(fs) && Placement(fs, offs) && i < |fs|
    ensures OffsetOf(fs, i) <= offs[i]
    decreases i
  {
    if i > 0 {
      OffsetsLeast(fs, offs, i - 1);
      assert End(fs, i) == OffsetOf(fs, i - 1) + fs[i - 1].size <= offs[i - 1] + fs[i - 1].size;
    } else {
      assert End(fs, 0) == 0;
    }
    RoundUpLeast(End(fs, i), fs[i].align, offs[i]);
  }

  /** No placement fits a smaller multiple of the struct's alignment. */
  lemma {:induction false} SizeLeast(fs: seq<Field>, offs: seq<nat>, size: nat)
    requires Aligned(fs) && Placement(fs, offs) && size % MaxAlign(fs, |fs|) == 0
    requires forall i :: 0 <= i < |fs| ==> offs[i] + fs[i].size <= size
    ensures SizeOf(fs) <= size
  {
    var n := |fs|;
    if n > 0 {
      OffsetsLeast(fs, offs, n - 1);
      assert End(fs, n) == OffsetOf(fs, n - 1) + fs[n - 1].size <= offs[n - 1] + fs[n - 1].size <= size;
    }
    RoundUpLeast(End(fs, n), MaxAlign(fs, n), size);
  }

  lemma {:induction false} EndGrows(fs: seq<Field>, i: nat, n: nat)
    requires Aligned(fs) && i <= n <= |fs|
    ensures End(fs, i) <= End(fs, n)
    decreases n - i
  {
    if i < n {
      EndGrows(fs, i, n - 1);
      assert End(fs, n) == OffsetOf(fs, n - 1) + fs[n - 1].size;
    }
  }

  /** Fields lie inside the struct and do not overlap, adjacent or not. */
  lemma {:induction false} FieldsApart(fs: seq<Field>, i: nat, j: nat)
    requires Aligned(fs) && i < |fs|
    ensures OffsetOf(fs, i) + fs[i].size <= SizeOf(fs)
    ensures i < j < |fs| ==> OffsetOf(fs, i) + fs[i].size <= OffsetOf(fs, j)
  {
    assert End(fs, i + 1) == OffsetOf(fs, i) + fs[i].size;
    EndGrows(fs, i + 1, |fs|);
    if i < j < |fs| {
      EndGrows(fs, i + 1, j);
    }
  }

  lemma {:induction false} MaxIsField(fs: seq<Field>, n: nat)
    requires Aligned(fs) && Proper(fs) && n <= |fs|
    ensures IsPow2(MaxAlign(fs, n))
    ensures forall i :: 0 <= i < n ==> fs[i].align <= MaxAlign(fs, n)
  {
    if n > 0 {
      MaxIsField(fs, n - 1);
    } else {
      assert Pow2(0) == 1;
    }
  }

  /** Every field of every element of an array of the struct keeps its alignment. */
  lemma {:induction false} ArrayAligned(fs: seq<Field>, k: nat, i: nat)
    requires Aligned(fs) && Proper(fs) && i < |fs|
    ensures (k * SizeOf(fs) + OffsetOf(fs, i)) % fs[i].align == 0
  {
    var a, m, s, o := fs[i].align, MaxAlign(fs, |fs|), SizeOf(fs), OffsetOf(fs, i);
    MaxIsField(fs, |fs|);
    SmallerDivides(a, m);
    DivideThrough(s, m, a);
    MultipleSum(k, s, o, a);
  }

  lemma MultipleSum(k: nat, s: nat, o: nat, a: nat)
    requires a > 0 && s % a == 0 && o % a == 0
    ensures (k * s + o) % a == 0
  {
    var p, q := s / a, o / a;
    assert s == p * a && o == q * a;
    assert k * (p * a) == (k * p) * a;
    assert (k * p) * a + q * a == (k * p + q) * a;
    MultipleMod(k * p + q, a);
  }

  // Enums

  /** A variant with no payload has none of the hidden struct either. */
  datatype Variant = Variant(name: string, tag: nat, payload: Option<seq<Field>>)

  const TAG_SIZE: nat := 4

  function Fields(v: Variant): seq<Field> {
    if v.payload.Some? then v.payload.value else []
  }

  /** Powers of two throughout, and no intermediate sum leaves 64 bits. */
  ghost predicate Sized(vs: seq<Variant>) {
    && (forall i :: 0 <= i < |vs| ==> SizedFields(Fields(vs[i])))
    && PayloadSize(vs, |vs|) + 3 * Max(TAG_SIZE, PayloadAlign(vs, |vs|)) <= TWO64
  }

  ghost predicate SizedFields(fs: seq<Field>) {
    && Aligned(fs) && Proper(fs)
    && (forall n :: 0 <= n < |fs| ==> End(fs, n) + fs[n].align <= TWO64)
    && End(fs, |fs|) + MaxAlign(fs, |fs|) <= TWO64
  }

  predicate AllAligned(vs: seq<Variant>) {
    forall i :: 0 <= i < |vs| ==> Aligned(Fields(vs[i]))
  }

  function PayloadAlign(vs: seq<Variant>, n: nat): (a: nat)
    requires n <= |vs|
    ensures a >= 1
  {
    if n == 0 || !AllAligned(vs) then 1
    else Max(PayloadAlign(vs, n - 1), MaxAlign(Fields(vs[n - 1]), |Fields(vs[n - 1])|))
  }

  function PayloadSize(vs: seq<Variant>, n: nat): nat
    requires n <= |vs|
  {
    if n == 0 || !AllAligned(vs) then 0 else Max(PayloadSize(vs, n - 1), SizeOf(Fields(vs[n - 1])))
  }

  /** Where every payload starts. */
  function PayloadOffset(vs: seq<Variant>): (o: nat)
    ensures o >= TAG_SIZE
  {
    RoundUp(TAG_SIZE, PayloadAlign(vs, |vs|))
  }

  function EnumAlign(vs: seq<Variant>): (a: nat)
    ensures a >= 4
  {
    Max(TAG_SIZE, PayloadAlign(vs, |vs|))
  }

  function EnumSize(vs: seq<Variant>): nat {
    RoundUp(PayloadOffset(vs) + PayloadSize(vs, |vs|), EnumAlign(vs))
  }

  lemma SizedAligned(vs: seq<Variant>)
    requires Sized(vs)
    ensures AllAligned(vs)
  {
  }

  /** One variant's payload, by the mask form. */
  method LayoutPayload(fs: seq<Field>) returns (offsets: seq<nat>, size: nat, align: nat)
    requires SizedFields(fs)
    ensures |offsets| == |fs| && forall i :: 0 <= i < |fs| ==> offsets[i] == OffsetOf(fs, i)
    ensures size == SizeOf(fs) && align == MaxAlign(fs, |fs|)
  {
    hide IsPow2, MaskUp;
    var current := 0;
    align := 1;
    offsets := [];
    for i := 0 to |fs|
      invariant |offsets| == i && forall j :: 0 <= j < i ==> offsets[j] == OffsetOf(fs, j)
      invariant current == End(fs, i) && align == MaxAlign(fs, i)
    {
      align := Max(align, fs[i].align);
      MaskRoundsUp(current, fs[i].align);
      current := MaskUp(current, fs[i].align);
      offsets := offsets + [current];
      current := current + fs[i].size;
    }
    MaxIsField(fs, |fs|);
    MaskRoundsUp(current, align);
    size := MaskUp(current, align);
  }

  lemma {:induction false} PayloadAlignPow2(vs: seq<Variant>, n: nat)
    requires Sized(vs) && n <= |vs|
    ensures IsPow2(PayloadAlign(vs, n))
    ensures forall i :: 0 <= i < n ==> MaxAlign(Fields(vs[i]), |Fields(vs[i])|) <= PayloadAlign(vs, n)
    ensures forall i :: 0 <= i < n ==> SizeOf(Fields(vs[i])) <= PayloadSize(vs, n)
  {
    hide Sized, SizedFields, SizeOf, MaxAlign, IsPow2, End, Fields, Aligned;
    SizedAligned(vs);
    if n > 0 {
      PayloadAlignPow2(vs, n - 1);
      VariantSized(vs, n - 1);
      MaxIsField(Fields(vs[n - 1]), |Fields(vs[n - 1])|);
    } else {
      OneIsPow2();
    }
  }

  lemma OneIsPow2()
    ensures IsPow2(1) && IsPow2(4)
  {
    assert Pow2(0) == 1 && Pow2(2) == 4;
  }

  lemma VariantSized(vs: seq<Variant>, i: nat)
    requires Sized(vs) && i < |vs|
    ensures var fs := Fields(vs[i]); SizedFields(fs) && Aligned(fs) && Proper(fs)
  {
  }

  lemma {:induction false} TotalSized(vs: seq<Variant>)
    requires Sized(vs)
    ensures PayloadSize(vs, |vs|) + 3 * Max(TAG_SIZE, PayloadAlign(vs, |vs|)) <= TWO64
  {
  }

  lemma EnumAlignPow2(vs: seq<Variant>)
    requires Sized(vs)
    ensures IsPow2(EnumAlign(vs))
  {
    hide IsPow2;
    PayloadAlignPow2(vs, |vs|);
    OneIsPow2();
  }

  /** The checker's loop over variants. */
  method LayoutEnum(vs: seq<Variant>) returns (offsets: seq<seq<nat>>, size: nat, align: nat)
    requires Sized(vs)
    ensures |offsets| == |vs| && forall i :: 0 <= i < |vs| ==> offsets[i] == Offsets(Fields(vs[i]))
    ensures size == EnumSize(vs) && align == EnumAlign(vs)
  {
    hide IsPow2, MaskUp, Sized, SizedFields, SizeOf, MaxAlign, End, OffsetOf, Fields, Aligned;
    SizedAligned(vs);
    TotalSized(vs);
    var maxSize, maxAlign := 0, 1;
    offsets := [];
    for i := 0 to |vs|
      invariant |offsets| == i && forall j :: 0 <= j < i ==> offsets[j] == Offsets(Fields(vs[j]))
      invariant maxSize == PayloadSize(vs, i) && maxAlign == PayloadAlign(vs, i)
    {
      VariantSized(vs, i);
      var offs, s, a := LayoutPayload(Fields(vs[i]));
      assert offs == Offsets(Fields(vs[i]));
      offsets := offsets + [offs];
      maxSize := Max(maxSize, s);
      maxAlign := Max(maxAlign, a);
    }
    PayloadAlignPow2(vs, |vs|);
    EnumAlignPow2(vs);
    align := Max(TAG_SIZE, maxAlign);
    MaskRoundsUp(TAG_SIZE, maxAlign);
    var start := MaskUp(TAG_SIZE, maxAlign);
    MaskRoundsUp(start + maxSize, align);
    size := MaskUp(start + maxSize, align);
  }

  /** Both lowering sites find the payload where the checker put it. */
  method PayloadOffsetAgain(vs: seq<Variant>) returns (offset: nat)
    requires Sized(vs)
    ensures offset == PayloadOffset(vs)
  {
    hide IsPow2, MaskUp;
    SizedAligned(vs);
    var maxAlign := 1;
    for i := 0 to |vs|
      invariant maxAlign == PayloadAlign(vs, i)
    {
      if vs[i].payload.Some? {
        var _, _, a := LayoutPayload(vs[i].payload.value);
        maxAlign := Max(maxAlign, a);
      }
    }
    PayloadAlignPow2(vs, |vs|);
    MaskRoundsUp(TAG_SIZE, maxAlign);
    offset := MaskUp(TAG_SIZE, maxAlign);
  }

  /** Every payload starts after the tag, aligned for all variants, and ends inside the enum. */
  lemma {:induction false} PayloadInside(vs: seq<Variant>, i: nat)
    requires Sized(vs) && i < |vs|
    ensures Aligned(Fields(vs[i])) && TAG_SIZE <= PayloadOffset(vs)
    ensures PayloadOffset(vs) + SizeOf(Fields(vs[i])) <= EnumSize(vs)
    ensures PayloadOffset(vs) % MaxAlign(Fields(vs[i]), |Fields(vs[i])|) == 0
  {
    hide IsPow2;
    PayloadAlignPow2(vs, |vs|);
    MaxIsField(Fields(vs[i]), |Fields(vs[i])|);
    SmallerDivides(MaxAlign(Fields(vs[i]), |Fields(vs[i])|), PayloadAlign(vs, |vs|));
    DivideThrough(PayloadOffset(vs), PayloadAlign(vs, |vs|), MaxAlign(Fields(vs[i]), |Fields(vs[i])|));
  }

  lemma {:induction false} AlignAttained(vs: seq<Variant>, n: nat)
    requires n <= |vs| && AllAligned(vs)
    ensures PayloadAlign(vs, n) == 1 || exists i :: 0 <= i < n && PayloadAlign(vs, n) == MaxAlign(Fields(vs[i]), |Fields(vs[i])|)
  {
    if n > 0 {
      AlignAttained(vs, n - 1);
      assert PayloadAlign(vs, n) == PayloadAlign(vs, n - 1) || PayloadAlign(vs, n) == MaxAlign(Fields(vs[n - 1]), |Fields(vs[n - 1])|);
    }
  }

  lemma {:induction false} SizeAttained(vs: seq<Variant>, n: nat)
    requires n <= |vs| && AllAligned(vs)
    ensures PayloadSize(vs, n) == 0 || exists i :: 0 <= i < n && PayloadSize(vs, n) == SizeOf(Fields(vs[i]))
  {
    if n > 0 {
      SizeAttained(vs, n - 1);
      assert PayloadSize(vs, n) == PayloadSize(vs, n - 1) || PayloadSize(vs, n) == SizeOf(Fields(vs[n - 1]));
    }
  }

  /** A place for all payloads after the tag and a size for the enum. */
  predicate Houses(vs: seq<Variant>, offset: nat, size: nat)
    requires AllAligned(vs)
  {
    && TAG_SIZE <= offset <= size && size % TAG_SIZE == 0
    && forall i :: 0 <= i < |vs| ==>
         var fs := Fields(vs[i]);
         offset % MaxAlign(fs, |fs|) == 0 && size % MaxAlign(fs, |fs|) == 0 && offset + SizeOf(fs) <= size
  }

  lemma {:induction false} HousedOffset(vs: seq<Variant>, offset: nat, size: nat)
    requires AllAligned(vs) && Houses(vs, offset, size)
    ensures TAG_SIZE <= offset && offset % PayloadAlign(vs, |vs|) == 0 && size % EnumAlign(vs) == 0
  {
    hide PayloadAlign, MaxAlign, SizeOf;
    AlignAttained(vs, |vs|);
  }

  lemma {:induction false} HousedSize(vs: seq<Variant>, offset: nat, size: nat)
    requires AllAligned(vs) && Houses(vs, offset, size)
    ensures offset + PayloadSize(vs, |vs|) <= size
  {
    hide PayloadSize, MaxAlign, SizeOf;
    SizeAttained(vs, |vs|);
  }

  lemma {:induction false} EnumLeastOffset(vs: seq<Variant>, offset: nat)
    requires AllAligned(vs) && TAG_SIZE <= offset && offset % PayloadAlign(vs, |vs|) == 0
    ensures PayloadOffset(vs) <= offset
  {
    hide PayloadAlign;
    RoundUpLeast(TAG_SIZE, PayloadAlign(vs, |vs|), offset);
  }

  lemma {:induction false} EnumLeastSize(vs: seq<Variant>, offset: nat, size: nat)
    requires AllAligned(vs) && PayloadOffset(vs) <= offset && offset + PayloadSize(vs, |vs|) <= size && size % EnumAlign(vs) == 0
    ensures EnumSize(vs) <= size
  {
    hide PayloadAlign, PayloadSize, PayloadOffset, EnumAlign;
    RoundUpLeast(PayloadOffset(vs) + PayloadSize(vs, |vs|), EnumAlign(vs), size);
  }

  /** Payload offset and size are such a place, and the least one. */
  lemma {:induction false} EnumLeast(vs: seq<Variant>, offset: nat, size: nat)
    requires Sized(vs) && AllAligned(vs) && Houses(vs, offset, size)
    ensures PayloadOffset(vs) <= offset && EnumSize(vs) <= size
  {
    hide IsPow2, Houses, PayloadOffset, EnumSize, EnumAlign, PayloadAlign, PayloadSize;
    HousedOffset(vs, offset, size);
    HousedSize(vs, offset, size);
    EnumLeastOffset(vs, offset);
    EnumLeastSize(vs, offset, size);
  }

  lemma {:induction false} EnumHouses(vs: seq<Variant>)
    requires Sized(vs) && AllAligned(vs)
    ensures Houses(vs, PayloadOffset(vs), EnumSize(vs))
  {
    hide IsPow2;
    EnumAlignPow2(vs);
    OneIsPow2();
    SmallerDivides(TAG_SIZE, EnumAlign(vs));
    DivideThrough(EnumSize(vs), EnumAlign(vs), TAG_SIZE);
    PayloadAlignPow2(vs, |vs|);
    forall i | 0 <= i < |vs|
      ensures var fs := Fields(vs[i]);
        PayloadOffset(vs) % MaxAlign(fs, |fs|) == 0 && EnumSize(vs) % MaxAlign(fs, |fs|) == 0
        && PayloadOffset(vs) + SizeOf(fs) <= EnumSize(vs)
    {
      var fs := Fields(vs[i]);
      VariantSized(vs, i);
      PayloadInside(vs, i);
      MaxIsField(fs, |fs|);
      SmallerDivides(MaxAlign(fs, |fs|), EnumAlign(vs));
      DivideThrough(EnumSize(vs), EnumAlign(vs), MaxAlign(fs, |fs|));
    }
  }
}
