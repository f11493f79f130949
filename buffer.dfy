/** Vertex buffer layouts and the GPU buffer objects that carry them (`Buffer.h`, `Buffer.cpp`). */
module Buffers {
  import opened Utils

  /** One attribute of an interleaved vertex: its type, name, byte size and byte offset. */
  datatype BufferElement = BufferElement(elementType: Type, name: string, sizeInBytes: nat, offset: nat)

  /** A list of elements in vertex order and the byte size of one whole vertex. */
  datatype BufferLayout = BufferLayout(layout: seq<BufferElement>, stride: nat)

  /** An element as its constructor makes it: a supported type and the byte size the table gives it. */
  ghost predicate WellFormed(e: BufferElement)
  {
    e.elementType != None && e.sizeInBytes == SizeInBytes(e.elementType)
  }

  ghost predicate AllWellFormed(es: seq<BufferElement>)
  {
    forall i :: 0 <= i < |es| ==> WellFormed(es[i])
  }

  /** `BufferElement(type, name)`: the size comes from the type table and no offset is assigned yet. */
  function NewElement(t: Type, name: string): (e: BufferElement)
    requires t != None
    ensures WellFormed(e)
    ensures e.elementType == t && e.name == name
    ensures e.sizeInBytes == 4 * TypeSize(t) > 0
    ensures e.offset == 0
  {
    BufferElement(t, name, SizeInBytes(t), 0)
  }

  /** Total bytes of a run of elements. */
  function SumSizes(es: seq<BufferElement>): nat
  {
    if es == [] then 0 else SumSizes(es[..|es| - 1]) + es[|es| - 1].sizeInBytes
  }

  /** Element `i` with its offset set to the bytes taken by the elements before it. */
  function Placed(elems: seq<BufferElement>, i: nat): BufferElement
    requires i < |elems|
  {
    elems[i].(offset := SumSizes(elems[..i]))
  }

  /** The layout the constructor builds: same elements in the same order, each placed after the
      ones before it, and the stride covering them all. */
  function LayoutOf(elems: seq<BufferElement>): BufferLayout
  {
    BufferLayout(seq(|elems|, i requires 0 <= i < |elems| => Placed(elems, i)), SumSizes(elems))
  }

  /** Offsets are prefix sums of the sizes and the stride is the total. */
  ghost predicate ValidLayout(l: BufferLayout)
  {
    && l.stride == SumSizes(l.layout)
    && forall i :: 0 <= i < |l.layout| ==> l.layout[i].offset == SumSizes(l.layout[..i])
  }

  /** Adding one more element to a prefix adds its size. */
  lemma SumSizesStep(es: seq<BufferElement>, i: nat)
    requires i < |es|
    ensures SumSizes(es[..i + 1]) == SumSizes(es[..i]) + es[i].sizeInBytes
  {
    assert es[..i + 1][..i] == es[..i];
  }

  /** Sums only look at sizes: elements that differ in offset alone sum alike. */
  lemma {:induction false} SumSizesIgnoresOffsets(es: seq<BufferElement>, fs: seq<BufferElement>)
    requires |es| == |fs|
    requires forall i :: 0 <= i < |es| ==> es[i].sizeInBytes == fs[i].sizeInBytes
    ensures SumSizes(es) == SumSizes(fs)
  {
    if es != [] {
      SumSizesIgnoresOffsets(es[..|es| - 1], fs[..|fs| - 1]);
    }
  }

  /** A longer prefix never sums to less. */
  lemma {:induction false} SumSizesMonotone(es: seq<BufferElement>, i: nat, j: nat)
    requires i <= j <= |es|
    ensures SumSizes(es[..i]) <= SumSizes(es[..j])
    decreases j - i
  {
    if i < j {
      SumSizesStep(es, i);
      SumSizesMonotone(es, i + 1, j);
    }
  }

  /** With positive sizes a longer prefix sums to strictly more. */
  lemma {:induction false} SumSizesStrictlyMonotone(es: seq<BufferElement>, i: nat, j: nat)
    requires i < j <= |es|
    requires forall k :: 0 <= k < |es| ==> es[k].sizeInBytes > 0
    ensures SumSizes(es[..i]) < SumSizes(es[..j])
  {
    SumSizesStep(es, i);
    SumSizesMonotone(es, i + 1, j);
  }

  /** The constructor's result keeps the input elements, in order, and is a valid layout. */
  lemma LayoutOfIsValid(elems: seq<BufferElement>)
    ensures |LayoutOf(elems).layout| == |elems|
    ensures forall i :: 0 <= i < |elems| ==>
      LayoutOf(elems).layout[i].(offset := elems[i].offset) == elems[i]
    ensures ValidLayout(LayoutOf(elems))
  {
    var l := LayoutOf(elems);
    forall i | 0 <= i <= |elems|
      ensures SumSizes(l.layout[..i]) == SumSizes(elems[..i])
    {
      SumSizesIgnoresOffsets(l.layout[..i], elems[..i]);
    }
    assert l.layout[..|elems|] == l.layout && elems[..|elems|] == elems;
  }

  /** The `BufferLayout` constructor: copies the elements, then walks them once, giving each the
      running total as its offset and adding its size to the stride. */
  method NewLayout(elems: seq<BufferElement>) returns (l: BufferLayout)
    ensures l == LayoutOf(elems)
    ensures ValidLayout(l)
  {
    var items := new BufferElement[|elems|](i requires 0 <= i < |elems| => elems[i]);
    var stride := 0;
    for i := 0 to items.Length
      invariant stride == SumSizes(elems[..i])
      invariant forall j :: 0 <= j < i ==> items[j] == Placed(elems, j)
      invariant forall j :: i <= j < items.Length ==> items[j] == elems[j]
    {
      items[i] := items[i].(offset := stride);
      SumSizesStep(elems, i);
      stride := stride + items[i].sizeInBytes;
    }
    assert items[..] == LayoutOf(elems).layout;
    assert elems[..|elems|] == elems;
    l := BufferLayout(items[..], stride);
    LayoutOfIsValid(elems);
  }

  /** The first element starts the vertex, each element ends where the next begins, and the last
      one ends at the stride. */
  lemma LayoutIsContiguous(l: BufferLayout, i: nat)
    requires ValidLayout(l)
    requires i < |l.layout|
    ensures i == 0 ==> l.layout[i].offset == 0
    ensures i + 1 < |l.layout| ==> l.layout[i].offset + l.layout[i].sizeInBytes == l.layout[i + 1].offset
    ensures i + 1 == |l.layout| ==> l.layout[i].offset + l.layout[i].sizeInBytes == l.stride
  {
    SumSizesStep(l.layout, i);
    assert l.layout[..|l.layout|] == l.layout;
  }

  /** Every element lies inside one vertex. */
  lemma ElementFitsInStride(l: BufferLayout, i: nat)
    requires ValidLayout(l)
    requires i < |l.layout|
    ensures l.layout[i].offset + l.layout[i].sizeInBytes <= l.stride
  {
    SumSizesStep(l.layout, i);
    SumSizesMonotone(l.layout, i + 1, |l.layout|);
    assert l.layout[..|l.layout|] == l.layout;
  }

  /** Elements built by the element constructor get strictly increasing offsets. */
  lemma OffsetsIncrease(l: BufferLayout, i: nat, j: nat)
    requires ValidLayout(l) && AllWellFormed(l.layout)
    requires i < j < |l.layout|
    ensures l.layout[i].offset < l.layout[j].offset
  {
    SumSizesStrictlyMonotone(l.layout, i, j);
  }

  /** The sandbox's layout {Vec3 aPos, Vec4 aColor}: offsets 0 and 12, stride 28. */
  lemma PositionColorLayout()
    ensures var l := LayoutOf([NewElement(Vec3, "aPos"), NewElement(Vec4, "aColor")]);
      && |l.layout| == 2
      && l.layout[0].offset == 0 && l.layout[1].offset == 12
      && l.stride == 28
  {
  }

  /** A vertex buffer object: the layout attached to it and its driver handle. */
  class VertexBuffer {
    var bufferLayout: BufferLayout
    var rendererId: nat

    /** A default-constructed buffer has the empty layout and handle 0. */
    constructor ()
      ensures bufferLayout == BufferLayout([], 0) && ValidLayout(bufferLayout)
      ensures rendererId == 0
    {
      bufferLayout := BufferLayout([], 0);
      rendererId := 0;
    }

    /** The layout last attached to the buffer. */
    function GetBufferLayout(): (l: BufferLayout)
      reads this
      ensures l == bufferLayout
    {
      bufferLayout
    }

    /** Replaces the whole layout; the handle stays, and reading the layout back gives `l`. */
    method SetBufferLayout(l: BufferLayout)
      modifies this
      ensures GetBufferLayout() == l
      ensures rendererId == old(rendererId)
    {
      bufferLayout := l;
    }
  }

  /** Two writes in a row: the second one is what the buffer keeps. */
  method LastLayoutWins(vb: VertexBuffer, first: BufferLayout, second: BufferLayout)
    modifies vb
    ensures vb.GetBufferLayout() == second
    ensures vb.rendererId == old(vb.rendererId)
  {
    vb.SetBufferLayout(first);
    vb.SetBufferLayout(second);
  }

  /** An element (index) buffer object; only its driver handle is state. */
  class ElementBuffer {
    var rendererId: nat

    constructor ()
      ensures rendererId == 0
    {
      rendererId := 0;
    }
  }
}
