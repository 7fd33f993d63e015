/** Enum literals and switches. */
module TaggedUnion {
  import opened Options
  import opened Arith
  import opened Bits
  import opened Layout
  import A64

  type Bytes = seq<A64.Byte>

  /** A field initializer with the bytes its value has. */
  datatype Init = Init(name: string, bytes: Bytes)

  /** Tags are 32-bit and tell variants apart. */
  predicate Distinct(vs: seq<Variant>) {
    && (forall i :: 0 <= i < |vs| ==> vs[i].tag < A64.TWO32)
    && (forall i, j :: 0 <= i < j < |vs| ==> vs[i].tag != vs[j].tag)
  }

  /** The first variant of that name. */
  function Find(vs: seq<Variant>, name: string, from: nat): (r: Option<nat>)
    requires from <= |vs|
    ensures r.Some? ==> from <= r.value < |vs| && vs[r.value].name == name
    ensures r.None? ==> forall i :: from <= i < |vs| ==> vs[i].name != name
    decreases |vs| - from
  {
    if from == |vs| then None else if vs[from].name == name then Some(from) else Find(vs, name, from + 1)
  }

  function FindInit(inits: seq<Init>, name: string): Option<Bytes> {
    if inits == [] then None else if inits[0].name == name then Some(inits[0].bytes) else FindInit(inits[1..], name)
  }

  /** Checked initializers are as wide as their fields. */
  predicate InitsFit(fs: seq<Field>, inits: seq<Init>) {
    forall i :: 0 <= i < |fs| && FindInit(inits, fs[i].name).Some? ==> |FindInit(inits, fs[i].name).value| == fs[i].size
  }

  // Lowering of a literal

  function Zeroed(mem: A64.Mem, a: int, n: nat): A64.Mem {
    y => if a <= y < a + n then 0 else mem(y)
  }

  function Put(mem: A64.Mem, a: int, bs: Bytes): A64.Mem {
    y => if a <= y < a + |bs| then bs[y - a] else mem(y)
  }

  /** Stores the initialized fields from the `i`-th on. */
  function PutFields(mem: A64.Mem, start: int, fs: seq<Field>, i: nat, inits: seq<Init>): A64.Mem
    requires Aligned(fs) && i <= |fs|
    decreases |fs| - i
  {
    if i == |fs| then mem
    else
      var init := FindInit(inits, fs[i].name);
      PutFields(if init.Some? then Put(mem, start + OffsetOf(fs, i), init.value) else mem, start, fs, i + 1, inits)
  }

  /** Zero the enum, write the tag, store the payload fields. */
  function Build(mem: A64.Mem, base: int, vs: seq<Variant>, name: string, inits: seq<Init>): A64.Mem
    requires AllAligned(vs)
  {
    var zero := Zeroed(mem, base, EnumSize(vs));
    var v := Find(vs, name, 0);
    var tagged := A64.Write(zero, base, TAG_SIZE, if v.Some? then vs[v.value].tag else 0);
    if v.Some? && vs[v.value].payload.Some? && inits != [] then
      PutFields(tagged, base + PayloadOffset(vs), Fields(vs[v.value]), 0, inits)
    else tagged
  }

  // Lowering of a switch

  /** The tag a case compares with; an unknown variant compares with 0. */
  function ExpectedTag(vs: seq<Variant>, name: string): nat {
    var v := Find(vs, name, 0);
    if v.Some? then vs[v.value].tag else 0
  }

  /** The first case whose tag equals the tag in memory. */
  function Select(mem: A64.Mem, base: int, vs: seq<Variant>, cases: seq<string>, from: nat): (r: Option<nat>)
    requires from <= |cases|
    decreases |cases| - from
  {
    if from == |cases| then None
    else if A64.Read(mem, base, TAG_SIZE) == ExpectedTag(vs, cases[from]) then Some(from)
    else Select(mem, base, vs, cases, from + 1)
  }

  /** The copy a case binds: the variant's payload bytes. */
  function Unpack(mem: A64.Mem, base: int, vs: seq<Variant>, name: string): (bs: Bytes)
    requires AllAligned(vs)
  {
    var v := Find(vs, name, 0);
    var size := if v.Some? && vs[v.value].payload.Some? then SizeOf(Fields(vs[v.value])) else 0;
    seq(size, k requires 0 <= k < size => mem(base + PayloadOffset(vs) + k))
  }

  // Fields in memory

  predicate InField(fs: seq<Field>, j: nat, off: int)
    requires Aligned(fs) && j < |fs|
  {
    OffsetOf(fs, j) <= off < OffsetOf(fs, j) + fs[j].size
  }

  /** Outside the fields still to come nothing changes. */
  lemma {:induction false} PutFieldsElse(mem: A64.Mem, start: int, fs: seq<Field>, i: nat, inits: seq<Init>, off: int)
    requires Aligned(fs) && i <= |fs| && InitsFit(fs, inits)
    requires forall j :: i <= j < |fs| ==> !InField(fs, j, off)
    ensures PutFields(mem, start, fs, i, inits)(start + off) == mem(start + off)
    decreases |fs| - i
  {
    hide OffsetOf;
    if i < |fs| {
      var init := FindInit(inits, fs[i].name);
      var mem' := if init.Some? then Put(mem, start + OffsetOf(fs, i), init.value) else mem;
      assert !InField(fs, i, off);
      PutFieldsElse(mem', start, fs, i + 1, inits, off);
    }
  }

  /** An initialized field holds its bytes, another one what was there. */
  lemma {:induction false} PutFieldsAt(mem: A64.Mem, start: int, fs: seq<Field>, i: nat, inits: seq<Init>, j: nat, k: nat)
    requires Aligned(fs) && InitsFit(fs, inits) && i <= j < |fs| && k < fs[j].size
    ensures var off := OffsetOf(fs, j) + k;
      var init := FindInit(inits, fs[j].name);
      PutFields(mem, start, fs, i, inits)(start + off) == if init.Some? then init.value[k] else mem(start + off)
    decreases |fs| - i
  {
    hide OffsetOf, SizeOf;
    var off := OffsetOf(fs, j) + k;
    var init := FindInit(inits, fs[i].name);
    var mem' := if init.Some? then Put(mem, start + OffsetOf(fs, i), init.value) else mem;
    if i == j {
      forall n | i + 1 <= n < |fs|
        ensures !InField(fs, n, off)
      {
        FieldsApart(fs, i, n);
      }
      PutFieldsElse(mem', start, fs, i + 1, inits, off);
    } else {
      FieldsApart(fs, i, j);
      PutFieldsAt(mem', start, fs, i + 1, inits, j, k);
    }
  }

  predicate ByteHolds(bs: Bytes, start: nat, init: Option<Bytes>, k: nat) {
    && start + k < |bs|
    && (init.Some? ==> k < |init.value| && bs[start + k] == init.value[k])
    && (init.None? ==> bs[start + k] == 0)
  }

  /** Field `j` of a payload holds its initial value, or zero when it has none. */
  predicate FieldHolds(bs: Bytes, fs: seq<Field>, j: nat, init: Option<Bytes>)
    requires Aligned(fs) && j < |fs|
  {
    forall k :: 0 <= k < fs[j].size ==> ByteHolds(bs, OffsetOf(fs, j), init, k)
  }

  // What a built literal holds

  lemma {:induction false} BuildStarts(mem: A64.Mem, base: int, vs: seq<Variant>, name: string, inits: seq<Init>, i: nat)
    requires Sized(vs) && AllAligned(vs) && Distinct(vs) && Find(vs, name, 0) == Some(i) && InitsFit(Fields(vs[i]), inits)
    ensures A64.Read(Build(mem, base, vs, name, inits), base, TAG_SIZE) == vs[i].tag
  {
    hide Sized, SizedFields, SizeOf, OffsetOf, A64.Read, Find, EnumSize, PutFields;
    A64.Pow256Of8();
    var zero := Zeroed(mem, base, EnumSize(vs));
    var tagged := A64.Write(zero, base, TAG_SIZE, vs[i].tag);
    A64.ReadWritten(zero, base, TAG_SIZE, vs[i].tag);
    var m := Build(mem, base, vs, name, inits);
    forall y | base <= y < base + TAG_SIZE
      ensures m(y) == tagged(y)
    {
      PayloadAfterTag(vs, i, y - base - PayloadOffset(vs));
      if vs[i].payload.Some? && inits != [] {
        PutFieldsElse(tagged, base + PayloadOffset(vs), Fields(vs[i]), 0, inits, y - base - PayloadOffset(vs));
      }
    }
    A64.ReadSame(m, tagged, base, TAG_SIZE);
  }

  lemma PayloadAfterTag(vs: seq<Variant>, i: nat, off: int)
    requires Sized(vs) && AllAligned(vs) && i < |vs| && off < 0
    ensures forall j :: 0 <= j < |Fields(vs[i])| ==> !InField(Fields(vs[i]), j, off)
  {
  }

  lemma {:induction false} InitFits(fs: seq<Field>, inits: seq<Init>, j: nat)
    requires InitsFit(fs, inits) && j < |fs|
    ensures FindInit(inits, fs[j].name).Some? ==> |FindInit(inits, fs[j].name).value| == fs[j].size
  {
  }

  /** Each payload byte: of an initialized field its value, anything else zero. */
  lemma {:induction false} BuiltField(mem: A64.Mem, base: int, vs: seq<Variant>, name: string, inits: seq<Init>, i: nat, j: nat, k: nat)
    requires Sized(vs) && AllAligned(vs) && Find(vs, name, 0) == Some(i) && InitsFit(Fields(vs[i]), inits)
    requires j < |Fields(vs[i])| && k < Fields(vs[i])[j].size
    ensures var init := FindInit(inits, Fields(vs[i])[j].name);
      ByteHolds(Unpack(Build(mem, base, vs, name, inits), base, vs, name), OffsetOf(Fields(vs[i]), j), init, k)
  {
    hide Sized, SizedFields, SizeOf, OffsetOf, Find, EnumSize, PutFields, PayloadOffset, Zeroed, A64.Write, InitsFit;
    InitFits(Fields(vs[i]), inits, j);
    var fs := Fields(vs[i]);
    var off := OffsetOf(fs, j) + k;
    FieldsApart(fs, j, j);
    ZeroPayload(mem, base, vs, i, off);
    var tagged := A64.Write(Zeroed(mem, base, EnumSize(vs)), base, TAG_SIZE, vs[i].tag);
    if inits != [] {
      PutFieldsAt(tagged, base + PayloadOffset(vs), fs, 0, inits, j, k);
    }
  }

  lemma ZeroPayload(mem: A64.Mem, base: int, vs: seq<Variant>, i: nat, off: nat)
    requires Sized(vs) && AllAligned(vs) && i < |vs| && off < SizeOf(Fields(vs[i]))
    ensures A64.Write(Zeroed(mem, base, EnumSize(vs)), base, TAG_SIZE, vs[i].tag)(base + PayloadOffset(vs) + off) == 0
  {
    hide Sized, SizedFields, SizeOf, EnumSize, PayloadOffset;
    PayloadInside(vs, i);
  }

  lemma {:induction false} BuiltPadding(mem: A64.Mem, base: int, vs: seq<Variant>, name: string, inits: seq<Init>, i: nat, off: nat)
    requires Sized(vs) && AllAligned(vs) && Find(vs, name, 0) == Some(i) && InitsFit(Fields(vs[i]), inits)
    requires vs[i].payload.Some? && off < SizeOf(Fields(vs[i]))
    requires forall j :: 0 <= j < |Fields(vs[i])| ==> !InField(Fields(vs[i]), j, off)
    ensures |Unpack(Build(mem, base, vs, name, inits), base, vs, name)| == SizeOf(Fields(vs[i]))
    ensures Unpack(Build(mem, base, vs, name, inits), base, vs, name)[off] == 0
  {
    hide Sized, SizedFields, SizeOf, OffsetOf, Find, EnumSize, PutFields, PayloadOffset, Zeroed, A64.Write;
    ZeroPayload(mem, base, vs, i, off);
    var tagged := A64.Write(Zeroed(mem, base, EnumSize(vs)), base, TAG_SIZE, vs[i].tag);
    PutFieldsElse(tagged, base + PayloadOffset(vs), Fields(vs[i]), 0, inits, off);
  }

  // Selection

  /** The first occurrence of a case. */
  function FirstCase(cases: seq<string>, name: string, from: nat): Option<nat>
    requires from <= |cases|
    decreases |cases| - from
  {
    if from == |cases| then None else if cases[from] == name then Some(from) else FirstCase(cases, name, from + 1)
  }

  lemma {:induction false} SelectFirst(mem: A64.Mem, base: int, vs: seq<Variant>, name: string, cases: seq<string>, from: nat, i: nat)
    requires Distinct(vs) && Find(vs, name, 0) == Some(i) && A64.Read(mem, base, TAG_SIZE) == vs[i].tag && from <= |cases|
    requires forall k :: 0 <= k < |cases| ==> Find(vs, cases[k], 0).Some?
    ensures Select(mem, base, vs, cases, from) == FirstCase(cases, name, from)
    decreases |cases| - from
  {
    hide A64.Read, Find;
    if from < |cases| {
      var j := Find(vs, cases[from], 0).value;
      assert vs[j].tag == vs[i].tag <==> j == i;
      SelectFirst(mem, base, vs, name, cases, from + 1, i);
    }
  }

  /**
    Round trip. In an enum with distinct tags, a literal of a variant is recognized by the first
    case that names that variant (of two variants of one name, both mean the first), whatever other cases there are, and the payload copy
    that case binds holds the initialized fields and zero everywhere else. The literal touches
    only its own bytes.
   */
  lemma {:induction false} UnionRoundTrip(mem: A64.Mem, base: int, vs: seq<Variant>, name: string, inits: seq<Init>, cases: seq<string>, i: nat)
    requires Sized(vs) && AllAligned(vs) && Distinct(vs) && Find(vs, name, 0) == Some(i) && InitsFit(Fields(vs[i]), inits)
    requires forall k :: 0 <= k < |cases| ==> Find(vs, cases[k], 0).Some?
    ensures var m := Build(mem, base, vs, name, inits);
      var fs := Fields(vs[i]);
      var bs := Unpack(m, base, vs, name);
      && Select(m, base, vs, cases, 0) == FirstCase(cases, name, 0)
      && (vs[i].payload.Some? ==> |bs| == SizeOf(fs))
      && (forall j :: 0 <= j < |fs| ==> FieldHolds(bs, fs, j, FindInit(inits, fs[j].name)))
      && (forall off: nat :: off < |bs| && (forall j :: 0 <= j < |fs| ==> !InField(fs, j, off)) ==> bs[off] == 0)
      && (forall y :: y < base || y >= base + EnumSize(vs) ==> m(y) == mem(y))
  {
    hide Sized, SizedFields, SizeOf, OffsetOf, Find, EnumSize, Build, Unpack, Select, FirstCase, A64.Read, FindInit, InField;
    var m := Build(mem, base, vs, name, inits);
    var fs := Fields(vs[i]);
    var bs := Unpack(m, base, vs, name);
    BuildStarts(mem, base, vs, name, inits, i);
    SelectFirst(m, base, vs, name, cases, 0, i);
    UnpackSize(m, base, vs, name, i);
    forall j | 0 <= j < |fs|
      ensures FieldHolds(bs, fs, j, FindInit(inits, fs[j].name))
    {
      forall k | 0 <= k < fs[j].size
        ensures ByteHolds(bs, OffsetOf(fs, j), FindInit(inits, fs[j].name), k)
      {
        BuiltField(mem, base, vs, name, inits, i, j, k);
      }
    }
    forall off: nat | off < |bs| && (forall j :: 0 <= j < |fs| ==> !InField(fs, j, off))
      ensures bs[off] == 0
    {
      BuiltPadding(mem, base, vs, name, inits, i, off);
    }
    forall y | y < base || y >= base + EnumSize(vs)
      ensures m(y) == mem(y)
    {
      BuildLocal(mem, base, vs, name, inits, i, y);
    }
  }

  lemma {:induction false} UnpackSize(m: A64.Mem, base: int, vs: seq<Variant>, name: string, i: nat)
    requires AllAligned(vs) && Find(vs, name, 0) == Some(i)
    ensures |Unpack(m, base, vs, name)| == if vs[i].payload.Some? then SizeOf(Fields(vs[i])) else 0
  {
    hide SizeOf, Find;
  }

  lemma {:induction false} BuildLocal(mem: A64.Mem, base: int, vs: seq<Variant>, name: string, inits: seq<Init>, i: nat, y: int)
    requires Sized(vs) && AllAligned(vs) && Find(vs, name, 0) == Some(i) && InitsFit(Fields(vs[i]), inits)
    requires y < base || y >= base + EnumSize(vs)
    ensures Build(mem, base, vs, name, inits)(y) == mem(y)
  {
    hide Sized, SizedFields, SizeOf, OffsetOf, Find, EnumSize, PutFields, PayloadOffset;
    var fs, off := Fields(vs[i]), y - base - PayloadOffset(vs);
    PayloadInside(vs, i);
    forall j | 0 <= j < |fs|
      ensures !InField(fs, j, off)
    {
      FieldsApart(fs, j, j);
    }
    var tagged := A64.Write(Zeroed(mem, base, EnumSize(vs)), base, TAG_SIZE, vs[i].tag);
    PutFieldsElse(tagged, base + PayloadOffset(vs), fs, 0, inits, off);
  }

  /** Distinct tags are needed: of two variants with one tag, each is taken for whichever is listed first. */
  lemma {:induction false} SharedTagConfuses(mem: A64.Mem, base: int, vs: seq<Variant>, i: nat, j: nat)
    requires Sized(vs) && AllAligned(vs) && i < |vs| && j < |vs| && vs[i].tag == vs[j].tag < A64.TWO32
    requires Find(vs, vs[i].name, 0) == Some(i) && Find(vs, vs[j].name, 0) == Some(j)
    ensures Select(Build(mem, base, vs, vs[i].name, []), base, vs, [vs[j].name, vs[i].name], 0) == Some(0)
  {
    hide Sized, SizedFields, SizeOf, OffsetOf, Find, EnumSize, A64.Read;
    A64.Pow256Of8();
    A64.ReadWritten(Zeroed(mem, base, EnumSize(vs)), base, TAG_SIZE, vs[i].tag);
  }
}
