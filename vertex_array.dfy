/** Vertex array objects: the attribute pointers they set up and the buffers they hold (`VertexArray.cpp`). */
module VertexArrays {
  import opened Utils
  import opened Buffers

  /** The component data types OpenGL is told about. */
  datatype GLType = GLBool | GLInt | GLFloat

  /** Data type of a supported element type's components: chosen by its scalar kind alone. */
  function GLDataType(t: Type): (g: GLType)
    requires t != None
    ensures g == GLBool <==> ScalarOf(t) == BoolScalar
    ensures g == GLInt <==> ScalarOf(t) == IntScalar
    ensures g == GLFloat <==> ScalarOf(t) == FloatScalar
  {
    match t
    case Bool => GLBool
    case Int | Vec2i | Vec3i | Vec4i | Mat3x3i | Mat4x3i | Mat4x4i => GLInt
    case Float | Vec2 | Vec3 | Vec4 | Mat3x3 | Mat4x3 | Mat4x4 => GLFloat
  }

  /** One `glVertexAttribPointer` call: attribute index, component count, component type,
      normalisation flag, stride and byte offset. */
  datatype AttribPointer = AttribPointer(
    index: nat, size: nat, dataType: GLType, normalized: bool, stride: nat, offset: nat)

  /** Every element of the layout has a supported type. */
  ghost predicate SupportedTypes(l: BufferLayout)
  {
    forall i :: 0 <= i < |l.layout| ==> l.layout[i].elementType != None
  }

  /** The pointer set up for element `i` of a layout: attribute index `i`, one component per
      component of the element's type (so four bytes per component, as the byte table counts
      them), the layout's stride and the element's offset, never normalised. */
  function AttributeFor(l: BufferLayout, i: nat): (a: AttribPointer)
    requires i < |l.layout| && l.layout[i].elementType != None
    ensures a.index == i && !a.normalized
    ensures 4 * a.size == SizeInBytes(l.layout[i].elementType)
    ensures a.stride == l.stride && a.offset == l.layout[i].offset
  {
    var e := l.layout[i];
    AttribPointer(i, TypeSize(e.elementType), GLDataType(e.elementType), false, l.stride, e.offset)
  }

  /** The loop of `AddVertexBuffer`: one pointer per element, in layout order, with an index
      counter that starts at 0. */
  method AttributePointers(l: BufferLayout) returns (attribs: seq<AttribPointer>)
    requires SupportedTypes(l)
    ensures |attribs| == |l.layout|
    ensures forall i :: 0 <= i < |attribs| ==> attribs[i] == AttributeFor(l, i)
    ensures forall i :: 0 <= i < |attribs| ==> attribs[i].index == i && attribs[i].stride == l.stride
  {
    attribs := [];
    var index := 0;
    for k := 0 to |l.layout|
      invariant index == k == |attribs|
      invariant forall i :: 0 <= i < k ==> attribs[i] == AttributeFor(l, i)
    {
      var item := l.layout[k];
      attribs := attribs + [AttribPointer(index, TypeSize(item.elementType), GLDataType(item.elementType),
                                          false, l.stride, item.offset)];
      index := index + 1;
    }
  }

  /** For a layout the `BufferLayout` constructor built from constructed elements, the byte range
      descriptor `i` names (from its offset, four bytes per component it declares) ends where
      element `i` ends and where descriptor `i + 1` starts, and stays inside one vertex. */
  lemma AttributeCoversItsElement(l: BufferLayout, i: nat)
    requires ValidLayout(l) && AllWellFormed(l.layout)
    requires i < |l.layout|
    ensures var a := AttributeFor(l, i);
      && a.offset + 4 * a.size == l.layout[i].offset + l.layout[i].sizeInBytes
      && a.offset + 4 * a.size <= a.stride
      && (i + 1 < |l.layout| ==> a.offset + 4 * a.size == AttributeFor(l, i + 1).offset)
  {
    assert WellFormed(l.layout[i]);
    LayoutIsContiguous(l, i);
    ElementFitsInStride(l, i);
    if i + 1 < |l.layout| {
      assert WellFormed(l.layout[i + 1]);
    }
  }

  /** The descriptors as written are not all ones the driver accepts: a matrix element yields a
      single descriptor with more than four components, and a `Bool` element one with the
      boolean data type. */
  lemma MatrixAndBoolDescriptors(t: Type)
    requires t != None
    ensures var a := AttributeFor(LayoutOf([NewElement(t, "m")]), 0);
      && (ShapeOf(t).cols > 1 ==> a.size > 4)
      && (t == Bool ==> a.dataType == GLBool)
  {
  }

  /** The concrete case: a layout of one `Mat3x3` element gets one descriptor of size 9. */
  lemma Mat3x3Descriptor()
    ensures AttributeFor(LayoutOf([NewElement(Mat3x3, "m")]), 0).size == 9
  {
  }

  /** A vertex array object: the vertex buffers added to it, the element buffer, its handle. */
  class VertexArray {
    var vertexBuffers: set<VertexBuffer>
    var elementBuffer: ElementBuffer?
    var rendererId: nat

    constructor ()
      ensures vertexBuffers == {} && elementBuffer == null && rendererId == 0
    {
      vertexBuffers := {};
      elementBuffer := null;
      rendererId := 0;
    }

    /** Sets up one pointer per element of the buffer's layout (indices from 0 again for every
        buffer) and adds the buffer to the set; adding a buffer twice leaves the set as it was. */
    method AddVertexBuffer(vertexBuffer: VertexBuffer) returns (attribs: seq<AttribPointer>)
      requires SupportedTypes(vertexBuffer.bufferLayout)
      modifies this
      ensures |attribs| == |vertexBuffer.bufferLayout.layout|
      ensures forall i :: 0 <= i < |attribs| ==> attribs[i] == AttributeFor(vertexBuffer.bufferLayout, i)
      ensures vertexBuffers == old(vertexBuffers) + {vertexBuffer}
      ensures old(vertexBuffer in vertexBuffers) ==> vertexBuffers == old(vertexBuffers)
      ensures elementBuffer == old(elementBuffer) && rendererId == old(rendererId)
    {
      attribs := AttributePointers(vertexBuffer.GetBufferLayout());
      vertexBuffers := vertexBuffers + {vertexBuffer};
    }

    /** Drops exactly the given buffer; a null buffer or one that was never added changes nothing. */
    method RemoveVertexBuffer(vertexBuffer: VertexBuffer?)
      modifies this
      ensures vertexBuffer != null ==> vertexBuffers == old(vertexBuffers) - {vertexBuffer}
      ensures vertexBuffer == null || old(vertexBuffer !in vertexBuffers) ==> vertexBuffers == old(vertexBuffers)
      ensures elementBuffer == old(elementBuffer) && rendererId == old(rendererId)
    {
      if vertexBuffer == null || vertexBuffer !in vertexBuffers {
        return;
      }
      vertexBuffers := vertexBuffers - {vertexBuffer};
    }

    /** The given element buffer becomes the stored one. */
    method SetElementBuffer(buffer: ElementBuffer)
      modifies this
      ensures elementBuffer == buffer
      ensures vertexBuffers == old(vertexBuffers) && rendererId == old(rendererId)
    {
      elementBuffer := buffer;
    }

    /** Clears the stored element buffer, which must be set (it is dereferenced first). */
    method UnsetElementBuffer()
      requires elementBuffer != null
      modifies this
      ensures elementBuffer == null
      ensures vertexBuffers == old(vertexBuffers) && rendererId == old(rendererId)
    {
      elementBuffer := null;
    }
  }
}
