/**
 * How the Go compiler lays out a struct on 386 (GOARCH=386, 4-byte pointers):
 * a field list, each field with its reflect kind, size and alignment; offsets
 * from the alignment rule; the total size rounded up to the struct's
 * alignment. Also the byte image of a struct value built from per-field
 * values, and reading one field back out of such an image.
 */
module Layout {
  import opened Base

  /** The reflect.Kind values that occur in the bridged records. */
  datatype Kind =
    | Int8 | Uint8 | Int16 | Uint16 | Int32 | Uint32 | Int64 | Float32
    | Uintptr | Ptr | UnsafePointer | Array | Struct

  /** On 386 no Go type is aligned beyond 4 bytes, not even int64. */
  type Align = a: int | a == 1 || a == 2 || a == 4 witness 1

  datatype Field = Field(name: string, kind: Kind, size: nat, align: Align)

  type Fields = seq<Field>

  /** A reflect.Type as abiTest sees it: a struct with its fields, or anything else. */
  datatype GoType = StructType(name: string, fields: Fields) | NonStruct(name: string)

  predicate IsBasic(k: Kind) { k != Array && k != Struct }

  /** Sizes of the basic kinds under gc on 386. */
  function BasicSize(k: Kind): (n: pos)
    requires IsBasic(k)
  {
    if k == Int8 || k == Uint8 then 1
    else if k == Int16 || k == Uint16 then 2
    else if k == Int64 then 8
    else 4
  }

  function BasicAlign(k: Kind): (a: Align)
    requires IsBasic(k)
    ensures a <= BasicSize(k)
  {
    if BasicSize(k) < 4 then BasicSize(k) else 4
  }

  function Basic(name: string, k: Kind): Field
    requires IsBasic(k)
  {
    Field(name, k, BasicSize(k), BasicAlign(k))
  }

  /** A fixed-size array field `[n]elem`: aligned like its element. */
  function ArrayOf(name: string, elem: Kind, n: nat): Field
    requires IsBasic(elem)
  {
    Field(name, Array, n * BasicSize(elem), BasicAlign(elem))
  }

  /** A struct-typed field carries the size and alignment of the nested struct. */
  function Nested(name: string, fs: Fields): Field
  {
    Field(name, Struct, SizeOf(fs), StructAlign(fs))
  }

  /** The least multiple of `a` that is at least `n`. */
  function AlignUp(n: nat, a: Align): (r: nat)
    ensures n <= r < n + a
    ensures n % a == 0 ==> r == n
  {
    if n % a == 0 then n else n + (a - n % a)
  }

  /** The byte just past field `k - 1` under Go's placement rule. */
  function EndAt(fs: Fields, k: nat): nat
    requires k <= |fs|
  {
    if k == 0 then 0 else AlignUp(EndAt(fs, k - 1), fs[k - 1].align) + fs[k - 1].size
  }

  /** Go's offset of field `i`: the end of the previous field, rounded up to `i`'s alignment. */
  function Offset(fs: Fields, i: nat): nat
    requires i < |fs|
  {
    AlignUp(EndAt(fs, i), fs[i].align)
  }

  /** The alignment of the struct: the largest alignment of its fields. */
  function StructAlign(fs: Fields): (a: Align)
    ensures forall i :: 0 <= i < |fs| ==> fs[i].align <= a
  {
    if fs == [] then 1
    else
      var rest := StructAlign(fs[1..]);
      assert forall i :: 1 <= i < |fs| ==> fs[i] == fs[1..][i - 1];
      if fs[0].align < rest then rest else fs[0].align
  }

  /** unsafe.Sizeof of the struct: the end of the fields rounded up to its alignment. */
  function SizeOf(fs: Fields): nat
  {
    AlignUp(EndAt(fs, |fs|), StructAlign(fs))
  }

  /** A struct whose first field is 4-aligned is 4-aligned: nothing on 386 is aligned more. */
  lemma WordAligned(fs: Fields)
    requires fs != [] && fs[0].align == 4
    ensures StructAlign(fs) == 4
  {
  }

  /** The index of the first field called `name`, as reflect's FieldByName finds it. */
  function IndexOf(fs: Fields, name: string): (r: Option<nat>)
    ensures r.Some? ==> r.value < |fs| && fs[r.value].name == name
    ensures r.Some? ==> forall j :: 0 <= j < r.value ==> fs[j].name != name
    ensures r.None? ==> forall j :: 0 <= j < |fs| ==> fs[j].name != name
  {
    if fs == [] then None
    else if fs[0].name == name then Some(0)
    else
      match IndexOf(fs[1..], name)
      case None => None
      case Some(j) => Some(j + 1)
  }

  // ---------------------------------------------------------------------
  // Packed lists: the explicit `_` fields leave the compiler nothing to add.

  /** The sum of the widths of the first `k` fields. */
  function RunningOffset(fs: Fields, k: nat): nat
    requires k <= |fs|
  {
    if k == 0 then 0 else RunningOffset(fs, k - 1) + fs[k - 1].size
  }

  function SumSizes(fs: Fields): nat
  {
    RunningOffset(fs, |fs|)
  }

  /** Each of the first `k` fields, placed at the running sum of the widths before it, is aligned. */
  predicate PackedTo(fs: Fields, k: nat)
    requires k <= |fs|
  {
    k == 0 || (PackedTo(fs, k - 1) && RunningOffset(fs, k - 1) % fs[k - 1].align == 0)
  }

  /** No field needs padding before it and the total needs none after it. */
  predicate Packed(fs: Fields)
  {
    PackedTo(fs, |fs|) && SumSizes(fs) % StructAlign(fs) == 0
  }

  lemma {:induction false} RunningMono(fs: Fields, i: nat, k: nat)
    requires i <= k <= |fs|
    ensures RunningOffset(fs, i) <= RunningOffset(fs, k)
    decreases k
  {
    if i < k {
      RunningMono(fs, i, k - 1);
    }
  }

  lemma {:induction false} PackedPrefix(fs: Fields, i: nat, k: nat)
    requires i <= k <= |fs| && PackedTo(fs, k)
    ensures PackedTo(fs, i)
    decreases k
  {
    if i < k {
      PackedPrefix(fs, i, k - 1);
    }
  }

  /** In a packed prefix Go's placement rule puts every field at the running sum. */
  lemma {:induction false} PackedEnd(fs: Fields, k: nat)
    requires k <= |fs| && PackedTo(fs, k)
    ensures EndAt(fs, k) == RunningOffset(fs, k)
    decreases k
  {
    if k > 0 {
      PackedEnd(fs, k - 1);
    }
  }

  /** A packed struct's offsets are running sums and its size is the sum of its widths. */
  lemma PackedLayout(fs: Fields)
    requires Packed(fs)
    ensures SizeOf(fs) == SumSizes(fs)
    ensures forall i :: 0 <= i < |fs| ==> Offset(fs, i) == RunningOffset(fs, i)
  {
    PackedEnd(fs, |fs|);
    forall i | 0 <= i < |fs| ensures Offset(fs, i) == RunningOffset(fs, i) {
      PackedPrefix(fs, i + 1, |fs|);
      PackedEnd(fs, i);
    }
  }

  /** Fields ending on a word boundary after `n` bytes, with no padding needed among them. */
  predicate Words(fs: Fields, n: nat)
  {
    PackedTo(fs, |fs|) && SumSizes(fs) == n && n % 4 == 0
  }

  /** A packed list that starts with a word-aligned field and ends on a word boundary. */
  lemma PackedWords(fs: Fields, n: nat)
    requires fs != [] && fs[0].align == 4 && Words(fs, n)
    ensures Packed(fs) && SizeOf(fs) == n
  {
    WordAligned(fs);
    PackedLayout(fs);
  }

  lemma PackedOffset(fs: Fields, i: nat)
    requires Packed(fs) && i < |fs|
    ensures Offset(fs, i) == RunningOffset(fs, i)
  {
    PackedLayout(fs);
  }

  /** A word-multiple offset keeps every alignment a 386 field can have. */
  lemma AlignAfterWords(s: nat, r: nat, al: Align)
    requires s % 4 == 0 && r % al == 0
    ensures (s + r) % al == 0
  {
    var q := s / 4;
    assert s == 4 * q;
    if al == 2 {
      assert s == 2 * (2 * q);
    }
  }

  /** Appending fields leaves the running sums of the earlier ones alone. */
  lemma {:induction false} AppendPrefix(a: Fields, b: Fields, j: nat)
    requires j <= |a|
    ensures RunningOffset(a + b, j) == RunningOffset(a, j)
    ensures PackedTo(a + b, j) == PackedTo(a, j)
  {
    if j > 0 {
      AppendPrefix(a, b, j - 1);
      assert (a + b)[j - 1] == a[j - 1];
    }
  }

  /** The fields of `b`, placed after the words of `a`, keep their relative positions. */
  lemma {:induction false} AppendSuffix(a: Fields, b: Fields, n: nat, k: nat)
    requires Words(a, n) && k <= |b| && PackedTo(b, k)
    ensures RunningOffset(a + b, |a| + k) == n + RunningOffset(b, k)
    ensures PackedTo(a + b, |a| + k)
  {
    if k == 0 {
      AppendPrefix(a, b, |a|);
    } else {
      AppendSuffix(a, b, n, k - 1);
      assert (a + b)[|a| + k - 1] == b[k - 1];
      AlignAfterWords(n, RunningOffset(b, k - 1), b[k - 1].align);
    }
  }

  /** Word groups concatenate: no padding appears at the seam. */
  lemma PackedAppend(a: Fields, b: Fields, n: nat, m: nat)
    requires Words(a, n) && Words(b, m)
    ensures Words(a + b, n + m)
  {
    AppendSuffix(a, b, n, |b|);
  }

  // ---------------------------------------------------------------------
  // Byte images of struct values.

  /** Each value fits the width of its field. */
  predicate Fits(fs: Fields, vals: seq<nat>)
  {
    |vals| == |fs| && forall i :: 0 <= i < |fs| ==> vals[i] < Pow256(fs[i].size)
  }

  /** The bytes of the first `k` fields of a struct value whose fields hold `vals`, end to end. */
  function ImageTo(fs: Fields, vals: seq<nat>, k: nat): (b: seq<byte>)
    requires Fits(fs, vals) && k <= |fs|
    ensures |b| == RunningOffset(fs, k)
  {
    if k == 0 then [] else ImageTo(fs, vals, k - 1) + LeEncode(vals[k - 1], fs[k - 1].size)
  }

  function Image(fs: Fields, vals: seq<nat>): (b: seq<byte>)
    requires Fits(fs, vals)
    ensures |b| == SumSizes(fs)
  {
    ImageTo(fs, vals, |fs|)
  }

  /** The value of field `i` in the struct image `mem`. */
  function ReadField(fs: Fields, mem: seq<byte>, i: nat): nat
    requires i < |fs| && Offset(fs, i) + fs[i].size <= |mem|
  {
    LeDecode(mem[Offset(fs, i)..Offset(fs, i) + fs[i].size])
  }

  /** Field `i` occupies the running-sum slot of the image. */
  lemma {:induction false} ImageSlice(fs: Fields, vals: seq<nat>, i: nat, k: nat)
    requires Fits(fs, vals) && i < k <= |fs|
    ensures RunningOffset(fs, i) + fs[i].size <= RunningOffset(fs, k)
    ensures ImageTo(fs, vals, k)[RunningOffset(fs, i)..RunningOffset(fs, i) + fs[i].size]
         == LeEncode(vals[i], fs[i].size)
    decreases k
  {
    var prefix := ImageTo(fs, vals, k - 1);
    var last := LeEncode(vals[k - 1], fs[k - 1].size);
    assert ImageTo(fs, vals, k) == prefix + last;
    if i == k - 1 {
      assert (prefix + last)[|prefix|..] == last;
    } else {
      ImageSlice(fs, vals, i, k - 1);
      var lo := RunningOffset(fs, i);
      assert (prefix + last)[lo..lo + fs[i].size] == prefix[lo..lo + fs[i].size];
    }
  }

  /** Every field of a packed struct image reads back as the value it was built from. */
  lemma ReadImage(fs: Fields, vals: seq<nat>, i: nat)
    requires Packed(fs) && Fits(fs, vals) && i < |fs|
    ensures Offset(fs, i) + fs[i].size <= |Image(fs, vals)|
    ensures ReadField(fs, Image(fs, vals), i) == vals[i]
  {
    PackedLayout(fs);
    ImageSlice(fs, vals, i, |fs|);
    DecodeEncode(vals[i], fs[i].size);
  }

  /** Only the bytes up to a struct's size matter when reading its fields. */
  lemma ReadPrefix(fs: Fields, mem: seq<byte>, n: nat, i: nat)
    requires i < |fs| && Offset(fs, i) + fs[i].size <= n <= |mem|
    ensures ReadField(fs, mem[..n], i) == ReadField(fs, mem, i)
  {
    var lo, hi := Offset(fs, i), Offset(fs, i) + fs[i].size;
    forall j | 0 <= j < hi - lo ensures mem[..n][lo..hi][j] == mem[lo..hi][j] {
      assert mem[..n][lo + j] == mem[lo + j];
    }
    assert mem[..n][lo..hi] == mem[lo..hi];
  }
}
