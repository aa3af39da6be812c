/** The part of the WebGL2 rendering context the core drives, as an abstract
    machine: object allocation and deletion, the current bindings, buffer
    contents and a trace of the draw calls issued. Also the vertex-layout and
    draw-mode types, the drawable capability and the drawing of a drawable. */
module Gl {
  import opened Wrappers

  /** A vertex-array or buffer object; both kinds share one numbering. */
  type Handle = nat

  /** A texture object, compared by identity. */
  datatype Texture = Texture(id: nat)

  /** How a vertex attribute lies in the uploaded floats: byte offset of its
      first component, number of float components, byte stride between
      consecutive vertices (0 meaning tightly packed, as in WebGL). */
  datatype VertexAttribute = VertexAttribute(offset: nat, size: nat, stride: nat)

  datatype DrawArrayMode = TriangleStrip | TriangleList

  /** What a draw needs to know about a geometry. */
  datatype Drawable = Drawable(
    mode: DrawArrayMode,
    position: Option<VertexAttribute>,
    color: Option<VertexAttribute>,
    textureCoordination: Option<VertexAttribute>,
    vertexCount: nat,
    vertexArray: Handle)

  /** One `drawArrays` call together with the state it draws from. */
  datatype DrawCall = DrawCall(
    texture: Option<Texture>,
    vertexArray: Option<Handle>,
    mode: DrawArrayMode,
    first: nat,
    count: nat,
    data: seq<real>)

  class Context {
    /** How many more objects the driver will allocate before refusing. */
    var budget: nat
    var nextHandle: Handle
    var vertexArrays: set<Handle>
    var buffers: set<Handle>
    var contents: map<Handle, seq<real>>
    var boundVertexArray: Option<Handle>
    var boundArrayBuffer: Option<Handle>
    var boundTexture: Option<Texture>
    var depthTest: bool
    var cullFace: bool
    var draws: seq<DrawCall>

    /** Every live object was handed out before `nextHandle`, every live
        buffer has contents, and only live objects are bound. */
    ghost predicate Valid()
      reads this
    {
      && (forall h :: h in vertexArrays ==> h < nextHandle)
      && (forall h :: h in buffers ==> h < nextHandle && h in contents)
      && (boundVertexArray.Some? ==> boundVertexArray.value in vertexArrays)
      && (boundArrayBuffer.Some? ==> boundArrayBuffer.value in buffers)
    }

    /** A fresh context as WebGL creates it: nothing allocated or bound,
        depth testing and face culling off, nothing drawn. */
    constructor (budget: nat)
      ensures Valid()
      ensures this.budget == budget && nextHandle == 0
      ensures vertexArrays == {} && buffers == {} && contents == map[]
      ensures boundVertexArray == None && boundArrayBuffer == None && boundTexture == None
      ensures !depthTest && !cullFace && draws == []
    {
      this.budget := budget;
      nextHandle := 0;
      vertexArrays, buffers, contents := {}, {}, map[];
      boundVertexArray, boundArrayBuffer, boundTexture := None, None, None;
      depthTest, cullFace := false, false;
      draws := [];
    }

    method CreateVertexArray() returns (h: Option<Handle>)
      requires Valid()
      modifies this`budget, this`nextHandle, this`vertexArrays
      ensures Valid()
      ensures old(budget) == 0 ==> h == None && unchanged(this)
      ensures old(budget) > 0 ==>
        && h == Some(old(nextHandle))
        && budget == old(budget) - 1 && nextHandle == old(nextHandle) + 1
        && vertexArrays == old(vertexArrays) + {h.value}
    {
      if budget == 0 {
        return None;
      }
      h := Some(nextHandle);
      vertexArrays := vertexArrays + {nextHandle};
      budget, nextHandle := budget - 1, nextHandle + 1;
    }

    method CreateBuffer() returns (h: Option<Handle>)
      requires Valid()
      modifies this`budget, this`nextHandle, this`buffers, this`contents
      ensures Valid()
      ensures old(budget) == 0 ==> h == None && unchanged(this)
      ensures old(budget) > 0 ==>
        && h == Some(old(nextHandle))
        && budget == old(budget) - 1 && nextHandle == old(nextHandle) + 1
        && buffers == old(buffers) + {h.value}
        && contents == old(contents)[h.value := []]
    {
      if budget == 0 {
        return None;
      }
      h := Some(nextHandle);
      buffers := buffers + {nextHandle};
      contents := contents[nextHandle := []];
      budget, nextHandle := budget - 1, nextHandle + 1;
    }

    /** `deleteVertexArray`: the object stops being live; if it was bound,
        the binding reverts to none. */
    method DeleteVertexArray(h: Handle)
      requires Valid()
      modifies this`vertexArrays, this`boundVertexArray
      ensures Valid()
      ensures vertexArrays == old(vertexArrays) - {h}
      ensures boundVertexArray == if old(boundVertexArray) == Some(h) then None else old(boundVertexArray)
    {
      vertexArrays := vertexArrays - {h};
      if boundVertexArray == Some(h) {
        boundVertexArray := None;
      }
    }

    /** `deleteBuffer`: the buffer stops being live; if it was bound, the
        binding reverts to none. Its stale contents are never read again. */
    method DeleteBuffer(h: Handle)
      requires Valid()
      modifies this`buffers, this`boundArrayBuffer
      ensures Valid()
      ensures buffers == old(buffers) - {h}
      ensures boundArrayBuffer == if old(boundArrayBuffer) == Some(h) then None else old(boundArrayBuffer)
    {
      buffers := buffers - {h};
      if boundArrayBuffer == Some(h) {
        boundArrayBuffer := None;
      }
    }

    /** `bindVertexArray`: binding an object that is not live is an
        INVALID_OPERATION and changes nothing. */
    method BindVertexArray(h: Option<Handle>)
      requires Valid()
      modifies this`boundVertexArray
      ensures Valid()
      ensures boundVertexArray == if h.None? || h.value in vertexArrays then h else old(boundVertexArray)
    {
      if h.None? || h.value in vertexArrays {
        boundVertexArray := h;
      }
    }

    /** `bindBuffer` on ARRAY_BUFFER: binding a buffer that is not live is an
        INVALID_OPERATION and changes nothing. */
    method BindArrayBuffer(h: Option<Handle>)
      requires Valid()
      modifies this`boundArrayBuffer
      ensures Valid()
      ensures boundArrayBuffer == if h.None? || h.value in buffers then h else old(boundArrayBuffer)
    {
      if h.None? || h.value in buffers {
        boundArrayBuffer := h;
      }
    }

    method BindTexture(t: Option<Texture>)
      modifies this`boundTexture
      ensures boundTexture == t
    {
      boundTexture := t;
    }

    /** `bufferData` on ARRAY_BUFFER: replaces the contents of the bound
        buffer; without a live bound buffer it is an error and changes nothing. */
    method BufferData(data: seq<real>)
      requires Valid()
      modifies this`contents
      ensures Valid()
      ensures contents == if boundArrayBuffer.Some? && boundArrayBuffer.value in buffers
        then old(contents)[boundArrayBuffer.value := data] else old(contents)
    {
      if boundArrayBuffer.Some? && boundArrayBuffer.value in buffers {
        contents := contents[boundArrayBuffer.value := data];
      }
    }

    method DisableDepthTest()
      modifies this`depthTest
      ensures !depthTest
    {
      depthTest := false;
    }

    method DisableCullFace()
      modifies this`cullFace
      ensures !cullFace
    {
      cullFace := false;
    }

    /** The floats a draw reads: those of the bound array buffer. */
    function SourceData(): seq<real>
      reads this
    {
      if boundArrayBuffer.Some? && boundArrayBuffer.value in contents
      then contents[boundArrayBuffer.value] else []
    }

    /** `drawArrays`: recorded with the state it draws from. */
    method DrawArrays(mode: DrawArrayMode, first: nat, count: nat)
      modifies this`draws
      ensures draws == old(draws) + [DrawCall(boundTexture, boundVertexArray, mode, first, count, SourceData())]
    {
      draws := draws + [DrawCall(boundTexture, boundVertexArray, mode, first, count, SourceData())];
    }
  }

  /** `Shader::draw`: binds the drawable's vertex array, issues one
      non-indexed draw of its vertex count from vertex 0, and unbinds.
      A vertex array that is no longer live is not bound, and the draw uses
      whatever was bound before. The attribute-pointer setup in between is
      not part of this model. */
  method DrawDrawable(ctx: Context, d: Drawable)
    requires ctx.Valid()
    modifies ctx`boundVertexArray, ctx`draws
    ensures ctx.Valid()
    ensures ctx.boundVertexArray == None
    ensures ctx.draws == old(ctx.draws) +
      [DrawCall(ctx.boundTexture,
                if d.vertexArray in ctx.vertexArrays then Some(d.vertexArray) else old(ctx.boundVertexArray),
                d.mode, 0, d.vertexCount, ctx.SourceData())]
  {
    ctx.BindVertexArray(Some(d.vertexArray));
    ctx.DrawArrays(d.mode, 0, d.vertexCount);
    ctx.BindVertexArray(None);
  }
}
