/** The closed set of vertex formats, their layout constants, their
    flattening into the floats the GPU receives, and the geometry resources
    built from them: the owned `Primitive` and the borrowed
    `EphemeralPrimitive`. */
module Primitives {
  import opened Wrappers
  import opened Vectors
  import Gl

  /** The four vertex formats, each named after the type that implements it. */
  datatype Format = UVMappedStrip | UVMappedList | ColoredStrip | PositionStrip

  /** Vertex data of each format: tuples of position and texture coordinate
      (drawn as a strip or as a list of triangles), tuples of position and
      colour, or bare floats taken three at a time as positions. */
  datatype VertexData =
    | UVMappedSliceTriangleStrip(uvVertices: seq<(Vector3, Vector2)>)
    | UVMappedSliceTriangleList(uvVertices: seq<(Vector3, Vector2)>)
    | ColoredSliceTriangleStrip(coloredVertices: seq<(Vector3, Vector4)>)
    | TriangleStrip(vertices: seq<real>)

  function FormatOf(d: VertexData): Format
  {
    match d
    case UVMappedSliceTriangleStrip(_) => UVMappedStrip
    case UVMappedSliceTriangleList(_) => UVMappedList
    case ColoredSliceTriangleStrip(_) => ColoredStrip
    case TriangleStrip(_) => PositionStrip
  }

  // The per-format constants.

  function Mode(f: Format): Gl.DrawArrayMode
  {
    if f == UVMappedList then Gl.TriangleList else Gl.TriangleStrip
  }

  function Position(f: Format): Option<Gl.VertexAttribute>
  {
    match f
    case UVMappedStrip => Some(Gl.VertexAttribute(0, 3, 20))
    case UVMappedList => Some(Gl.VertexAttribute(0, 3, 20))
    case ColoredStrip => Some(Gl.VertexAttribute(0, 3, 28))
    case PositionStrip => Some(Gl.VertexAttribute(0, 3, 0))
  }

  /** The colour starts right after the 12-byte `Vector3` position. */
  function Color(f: Format): Option<Gl.VertexAttribute>
  {
    if f == ColoredStrip then Some(Gl.VertexAttribute(12, 4, 28)) else None
  }

  function TextureCoordination(f: Format): Option<Gl.VertexAttribute>
  {
    if f == UVMappedStrip || f == UVMappedList then Some(Gl.VertexAttribute(12, 2, 20)) else None
  }

  /** Floats per vertex in the flattened data. */
  function FloatsPerVertex(f: Format): nat
  {
    match f
    case UVMappedStrip => 5
    case UVMappedList => 5
    case ColoredStrip => 7
    case PositionStrip => 3
  }

  /** The byte distance between consecutive vertices; a stride of 0 means
      the components are tightly packed. */
  function EffectiveStride(a: Gl.VertexAttribute): nat
  {
    if a.stride == 0 then 4 * a.size else a.stride
  }

  /** The three attribute slots a drawable may declare. */
  datatype Slot = PositionSlot | ColorSlot | TextureSlot

  function Attribute(d: Gl.Drawable, s: Slot): Option<Gl.VertexAttribute>
  {
    match s
    case PositionSlot => d.position
    case ColorSlot => d.color
    case TextureSlot => d.textureCoordination
  }

  // Vertex counts and flattening.

  function VertexCount(d: VertexData): nat
  {
    match d
    case UVMappedSliceTriangleStrip(s) => |s|
    case UVMappedSliceTriangleList(s) => |s|
    case ColoredSliceTriangleStrip(s) => |s|
    case TriangleStrip(v) => |v| / 3
  }

  function UVFloats(v: (Vector3, Vector2)): seq<real>
  {
    [v.0.x, v.0.y, v.0.z, v.1.x, v.1.y]
  }

  function ColoredFloats(v: (Vector3, Vector4)): seq<real>
  {
    [v.0.x, v.0.y, v.0.z, v.1.x, v.1.y, v.1.z, v.1.w]
  }

  /** The tuples laid end to end, as they lie in memory. */
  function FlattenUV(s: seq<(Vector3, Vector2)>): (r: seq<real>)
    ensures |r| == 5 * |s|
  {
    if s == [] then [] else UVFloats(s[0]) + FlattenUV(s[1..])
  }

  function FlattenColored(s: seq<(Vector3, Vector4)>): (r: seq<real>)
    ensures |r| == 7 * |s|
  {
    if s == [] then [] else ColoredFloats(s[0]) + FlattenColored(s[1..])
  }

  /** `as_slice` reads through a pointer to the first tuple, so the
      slice-backed formats panic on empty data. */
  predicate ValidData(d: VertexData)
  {
    match d
    case UVMappedSliceTriangleStrip(s) => |s| > 0
    case UVMappedSliceTriangleList(s) => |s| > 0
    case ColoredSliceTriangleStrip(s) => |s| > 0
    case TriangleStrip(_) => true
  }

  /** `as_slice`: the floats uploaded to the GPU. The strip formats take the
      byte size of the whole slice; the list format takes `vertex_count() * 5`
      floats. */
  function AsSlice(d: VertexData): seq<real>
    requires ValidData(d)
  {
    match d
    case UVMappedSliceTriangleStrip(s) => FlattenUV(s)
    case UVMappedSliceTriangleList(s) => FlattenUV(s)[..VertexCount(d) * 5]
    case ColoredSliceTriangleStrip(s) => FlattenColored(s)
    case TriangleStrip(v) => v
  }

  /** Component `c` of the given slot of vertex `i`, read from the tuples
      themselves rather than from the flattened floats. */
  function AttributeValue(d: VertexData, s: Slot, i: nat, c: nat): real
    requires i < VertexCount(d)
  {
    match d
    case UVMappedSliceTriangleStrip(t) => TupleUV(t[i], s, c)
    case UVMappedSliceTriangleList(t) => TupleUV(t[i], s, c)
    case ColoredSliceTriangleStrip(t) =>
      if s == ColorSlot then (if c < 4 then [t[i].1.x, t[i].1.y, t[i].1.z, t[i].1.w][c] else 0.0)
      else Coordinate(t[i].0, c)
    case TriangleStrip(v) => if c < 3 then v[3 * i + c] else 0.0
  }

  function TupleUV(v: (Vector3, Vector2), s: Slot, c: nat): real
  {
    if s == TextureSlot then (if c == 0 then v.1.x else v.1.y) else Coordinate(v.0, c)
  }

  function Coordinate(p: Vector3, c: nat): real
  {
    if c == 0 then p.x else if c == 1 then p.y else p.z
  }

  /** What a geometry built from `d` reports through its drawable accessors. */
  function DrawableOf(d: VertexData, vao: Gl.Handle): Gl.Drawable
  {
    var f := FormatOf(d);
    Gl.Drawable(Mode(f), Position(f), Color(f), TextureCoordination(f), VertexCount(d), vao)
  }

  lemma {:induction false} FlattenUVAt(s: seq<(Vector3, Vector2)>, i: nat, k: nat)
    requires i < |s| && k < 5
    ensures FlattenUV(s)[5 * i + k] == UVFloats(s[i])[k]
  {
    if i > 0 {
      FlattenUVAt(s[1..], i - 1, k);
    }
  }

  lemma {:induction false} FlattenColoredAt(s: seq<(Vector3, Vector4)>, i: nat, k: nat)
    requires i < |s| && k < 7
    ensures FlattenColored(s)[7 * i + k] == ColoredFloats(s[i])[k]
  {
    if i > 0 {
      FlattenColoredAt(s[1..], i - 1, k);
    }
  }

  /** In every format the position comes first, each declared attribute fits
      inside one vertex, attributes do not overlap, and the stride is the
      size of one flattened vertex. */
  lemma FormatLayout(f: Format)
    ensures Position(f).Some? && Position(f).value.offset == 0 && Position(f).value.size == 3
    ensures forall s: Slot, h: Gl.Handle :: Attribute(Gl.Drawable(Mode(f), Position(f), Color(f), TextureCoordination(f), 0, h), s).Some? ==>
      var a := Attribute(Gl.Drawable(Mode(f), Position(f), Color(f), TextureCoordination(f), 0, h), s).value;
      && a.offset + 4 * a.size <= EffectiveStride(a)
      && EffectiveStride(a) == 4 * FloatsPerVertex(f)
      && (s != PositionSlot ==> a.offset == 4 * Position(f).value.size)
    ensures Color(f).Some? ==> TextureCoordination(f).None?
    ensures TextureCoordination(f).Some? <==> f == UVMappedStrip || f == UVMappedList
    ensures Mode(f) == (if f == UVMappedList then Gl.TriangleList else Gl.TriangleStrip)
  {
  }

  /** The uploaded floats hold every vertex the drawable counts: exactly
      for the tuple formats, up to two trailing floats for the bare strip. */
  lemma SliceShape(d: VertexData)
    requires ValidData(d)
    ensures VertexCount(d) * FloatsPerVertex(FormatOf(d)) <= |AsSlice(d)| < (VertexCount(d) + 1) * FloatsPerVertex(FormatOf(d))
    ensures !d.TriangleStrip? ==> |AsSlice(d)| == VertexCount(d) * FloatsPerVertex(FormatOf(d))
    ensures d.TriangleStrip? ==> AsSlice(d) == d.vertices && VertexCount(d) == |d.vertices| / 3
    ensures d.UVMappedSliceTriangleStrip? || d.UVMappedSliceTriangleList? ==> VertexCount(d) == |d.uvVertices|
    ensures d.ColoredSliceTriangleStrip? ==> VertexCount(d) == |d.coloredVertices|
  {
  }

  /** The declared offsets and strides find each attribute where the
      flattening put it: for every vertex the drawable counts and every
      component of a declared attribute, the float at byte
      stride * i + offset + 4 * c of the upload is that component. */
  lemma LayoutAgrees(d: VertexData, h: Gl.Handle, s: Slot, i: nat, c: nat)
    requires ValidData(d)
    requires Attribute(DrawableOf(d, h), s).Some?
    requires i < DrawableOf(d, h).vertexCount && c < Attribute(DrawableOf(d, h), s).value.size
    ensures var a := Attribute(DrawableOf(d, h), s).value;
      && EffectiveStride(a) % 4 == 0 && a.offset % 4 == 0
      && (EffectiveStride(a) * i + a.offset) / 4 + c < |AsSlice(d)|
      && AsSlice(d)[(EffectiveStride(a) * i + a.offset) / 4 + c] == AttributeValue(d, s, i, c)
  {
    match d
    case UVMappedSliceTriangleStrip(_) => UVStripLayout(d, h, s, i, c);
    case UVMappedSliceTriangleList(_) => UVListLayout(d, h, s, i, c);
    case ColoredSliceTriangleStrip(_) => ColoredLayout(d, h, s, i, c);
    case TriangleStrip(_) => PositionLayout(d, h, s, i, c);
  }

  /** Position at byte 0 and texture coordinate at byte 12 of each 20-byte vertex: floats 5i and 5i + 3. */
  lemma UVStripLayout(d: VertexData, h: Gl.Handle, s: Slot, i: nat, c: nat)
    requires d.UVMappedSliceTriangleStrip?
    requires ValidData(d)
    requires Attribute(DrawableOf(d, h), s).Some?
    requires i < DrawableOf(d, h).vertexCount && c < Attribute(DrawableOf(d, h), s).value.size
    ensures var a := Attribute(DrawableOf(d, h), s).value;
      && EffectiveStride(a) % 4 == 0 && a.offset % 4 == 0
      && (EffectiveStride(a) * i + a.offset) / 4 + c < |AsSlice(d)|
      && AsSlice(d)[(EffectiveStride(a) * i + a.offset) / 4 + c] == AttributeValue(d, s, i, c)
  {
    var t := d.uvVertices;
    var k := if s == TextureSlot then 3 + c else c;
    assert Attribute(DrawableOf(d, h), s).value == Gl.VertexAttribute(4 * (k - c), if s == TextureSlot then 2 else 3, 20);
    QuarterOf(20 * i + 4 * (k - c), 5 * i + k - c);
    FlattenUVAt(t, i, k);
  }

  /** The list format has the strip format's layout, over a slice of vertex_count * 5 floats. */
  lemma UVListLayout(d: VertexData, h: Gl.Handle, s: Slot, i: nat, c: nat)
    requires d.UVMappedSliceTriangleList?
    requires ValidData(d)
    requires Attribute(DrawableOf(d, h), s).Some?
    requires i < DrawableOf(d, h).vertexCount && c < Attribute(DrawableOf(d, h), s).value.size
    ensures var a := Attribute(DrawableOf(d, h), s).value;
      && EffectiveStride(a) % 4 == 0 && a.offset % 4 == 0
      && (EffectiveStride(a) * i + a.offset) / 4 + c < |AsSlice(d)|
      && AsSlice(d)[(EffectiveStride(a) * i + a.offset) / 4 + c] == AttributeValue(d, s, i, c)
  {
    var t := d.uvVertices;
    var k := if s == TextureSlot then 3 + c else c;
    assert Attribute(DrawableOf(d, h), s).value == Gl.VertexAttribute(4 * (k - c), if s == TextureSlot then 2 else 3, 20);
    QuarterOf(20 * i + 4 * (k - c), 5 * i + k - c);
    FlattenUVAt(t, i, k);
    assert AsSlice(d) == FlattenUV(t);
  }

  /** Position at byte 0 and colour at byte 12 of each 28-byte vertex: floats 7i and 7i + 3. */
  lemma ColoredLayout(d: VertexData, h: Gl.Handle, s: Slot, i: nat, c: nat)
    requires d.ColoredSliceTriangleStrip?
    requires ValidData(d)
    requires Attribute(DrawableOf(d, h), s).Some?
    requires i < DrawableOf(d, h).vertexCount && c < Attribute(DrawableOf(d, h), s).value.size
    ensures var a := Attribute(DrawableOf(d, h), s).value;
      && EffectiveStride(a) % 4 == 0 && a.offset % 4 == 0
      && (EffectiveStride(a) * i + a.offset) / 4 + c < |AsSlice(d)|
      && AsSlice(d)[(EffectiveStride(a) * i + a.offset) / 4 + c] == AttributeValue(d, s, i, c)
  {
    var t := d.coloredVertices;
    var k := if s == ColorSlot then 3 + c else c;
    assert Attribute(DrawableOf(d, h), s).value == Gl.VertexAttribute(4 * (k - c), if s == ColorSlot then 4 else 3, 28);
    QuarterOf(28 * i + 4 * (k - c), 7 * i + k - c);
    FlattenColoredAt(t, i, k);
  }

  /** Tightly packed positions: vertex i starts at float 3i. */
  lemma PositionLayout(d: VertexData, h: Gl.Handle, s: Slot, i: nat, c: nat)
    requires d.TriangleStrip?
    requires ValidData(d)
    requires Attribute(DrawableOf(d, h), s).Some?
    requires i < DrawableOf(d, h).vertexCount && c < Attribute(DrawableOf(d, h), s).value.size
    ensures var a := Attribute(DrawableOf(d, h), s).value;
      && EffectiveStride(a) % 4 == 0 && a.offset % 4 == 0
      && (EffectiveStride(a) * i + a.offset) / 4 + c < |AsSlice(d)|
      && AsSlice(d)[(EffectiveStride(a) * i + a.offset) / 4 + c] == AttributeValue(d, s, i, c)
  {
    assert Attribute(DrawableOf(d, h), s).value == Gl.VertexAttribute(0, 3, 0);
    QuarterOf(12 * i, 3 * i);
  }

  lemma QuarterOf(n: int, q: int)
    requires n == 4 * q
    ensures n / 4 == q
  {
  }

  /** `transfer`: binds the vertex array and the buffer, replaces the
      buffer's contents with the flattened data, and unbinds the vertex
      array (the buffer stays bound). */
  method Transfer(ctx: Gl.Context, data: VertexData, vao: Gl.Handle, buffer: Gl.Handle)
    requires ctx.Valid() && ValidData(data) && buffer in ctx.buffers
    modifies ctx`boundVertexArray, ctx`boundArrayBuffer, ctx`contents
    ensures ctx.Valid()
    ensures ctx.contents == old(ctx.contents)[buffer := AsSlice(data)]
    ensures ctx.boundVertexArray == None && ctx.boundArrayBuffer == Some(buffer)
  {
    ctx.BindVertexArray(Some(vao));
    ctx.BindArrayBuffer(Some(buffer));
    ctx.BufferData(AsSlice(data));
    ctx.BindVertexArray(None);
  }

  /** A geometry that owns its vertex array and its buffer. */
  class Primitive {
    const ctx: Gl.Context
    const vao: Gl.Handle
    const vertexBuffer: Gl.Handle
    const vertexCount: nat
    const drawArrayMode: Gl.DrawArrayMode
    const position: Option<Gl.VertexAttribute>
    const color: Option<Gl.VertexAttribute>
    const textureCoordination: Option<Gl.VertexAttribute>
    /** Whether `drop` has run; Rust runs it exactly once. */
    ghost var dropped: bool

    /** Until it is dropped, a primitive's objects are alive. */
    ghost predicate Valid()
      reads this, ctx
    {
      ctx.Valid() && (!dropped ==> vao in ctx.vertexArrays && vertexBuffer in ctx.buffers)
    }

    constructor (ctx: Gl.Context, vao: Gl.Handle, vertexBuffer: Gl.Handle, vertexCount: nat, f: Format)
      ensures this.ctx == ctx && this.vao == vao && this.vertexBuffer == vertexBuffer
      ensures this.vertexCount == vertexCount && drawArrayMode == Mode(f)
      ensures position == Position(f) && color == Color(f) && textureCoordination == TextureCoordination(f)
      ensures !dropped
    {
      this.ctx, this.vao, this.vertexBuffer, this.vertexCount := ctx, vao, vertexBuffer, vertexCount;
      drawArrayMode, position, color, textureCoordination := Mode(f), Position(f), Color(f), TextureCoordination(f);
      dropped := false;
    }

    /** The `Drawable` accessors. */
    function AsDrawable(): Gl.Drawable
      reads this
    {
      Gl.Drawable(drawArrayMode, position, color, textureCoordination, vertexCount, vao)
    }

    /** `Primitive::new` as written: a vertex array is created first, then a
        buffer; the vertex count is taken and the data uploaded. When the
        buffer cannot be created the vertex array already created is not
        deleted. */
    static method New(ctx: Gl.Context, data: VertexData) returns (r: Result<Primitive>)
      requires ctx.Valid() && ValidData(data)
      modifies ctx`budget, ctx`nextHandle, ctx`vertexArrays, ctx`buffers, ctx`contents
      modifies ctx`boundVertexArray, ctx`boundArrayBuffer
      ensures ctx.Valid()
      ensures old(ctx.budget) == 0 ==>
        && r == Err("createVertexArray failed.")
        && ctx.budget == 0 && ctx.nextHandle == old(ctx.nextHandle)
        && ctx.vertexArrays == old(ctx.vertexArrays)
      ensures old(ctx.budget) == 1 ==>
        && r == Err("createBuffer failed.")
        && ctx.budget == 0 && ctx.nextHandle == old(ctx.nextHandle) + 1
        && ctx.vertexArrays == old(ctx.vertexArrays) + {old(ctx.nextHandle)}
      ensures r.Err? ==>
        && ctx.buffers == old(ctx.buffers) && ctx.contents == old(ctx.contents)
        && ctx.boundVertexArray == old(ctx.boundVertexArray) && ctx.boundArrayBuffer == old(ctx.boundArrayBuffer)
      ensures old(ctx.budget) >= 2 ==>
        && r.Ok? && fresh(r.value) && r.value.ctx == ctx && r.value.Valid() && !r.value.dropped
        && r.value.vao == old(ctx.nextHandle) && r.value.vertexBuffer == old(ctx.nextHandle) + 1
        && r.value.AsDrawable() == DrawableOf(data, r.value.vao)
        && ctx.vertexArrays == old(ctx.vertexArrays) + {r.value.vao}
        && ctx.buffers == old(ctx.buffers) + {r.value.vertexBuffer}
        && ctx.contents == old(ctx.contents)[r.value.vertexBuffer := AsSlice(data)]
        && ctx.budget == old(ctx.budget) - 2 && ctx.nextHandle == old(ctx.nextHandle) + 2
        && ctx.boundVertexArray == None && ctx.boundArrayBuffer == Some(r.value.vertexBuffer)
    {
      var vao := ctx.CreateVertexArray();
      if vao.None? {
        return Err("createVertexArray failed.");
      }
      var buffer := ctx.CreateBuffer();
      if buffer.None? {
        return Err("createBuffer failed.");
      }
      var vertexCount := VertexCount(data);
      Transfer(ctx, data, vao.value, buffer.value);
      var p := new Primitive(ctx, vao.value, buffer.value, vertexCount, FormatOf(data));
      return Ok(p);
    }

    /** `Primitive::new` as evidently intended: on every failure, whatever it
        created is deleted again, so a failed construction leaves no live
        object behind. */
    static method NewWithoutLeak(ctx: Gl.Context, data: VertexData) returns (r: Result<Primitive>)
      requires ctx.Valid() && ValidData(data)
      modifies ctx`budget, ctx`nextHandle, ctx`vertexArrays, ctx`buffers, ctx`contents
      modifies ctx`boundVertexArray, ctx`boundArrayBuffer
      ensures ctx.Valid()
      ensures old(ctx.budget) == 0 ==>
        && r == Err("createVertexArray failed.")
        && ctx.budget == 0 && ctx.nextHandle == old(ctx.nextHandle)
      ensures old(ctx.budget) == 1 ==>
        && r == Err("createBuffer failed.")
        && ctx.budget == 0 && ctx.nextHandle == old(ctx.nextHandle) + 1
      ensures r.Err? ==>
        && ctx.vertexArrays == old(ctx.vertexArrays)
        && ctx.buffers == old(ctx.buffers) && ctx.contents == old(ctx.contents)
        && ctx.boundVertexArray == old(ctx.boundVertexArray) && ctx.boundArrayBuffer == old(ctx.boundArrayBuffer)
      ensures old(ctx.budget) >= 2 ==>
        && r.Ok? && fresh(r.value) && r.value.ctx == ctx && r.value.Valid() && !r.value.dropped
        && r.value.vao == old(ctx.nextHandle) && r.value.vertexBuffer == old(ctx.nextHandle) + 1
        && r.value.AsDrawable() == DrawableOf(data, r.value.vao)
        && ctx.vertexArrays == old(ctx.vertexArrays) + {r.value.vao}
        && ctx.buffers == old(ctx.buffers) + {r.value.vertexBuffer}
        && ctx.contents == old(ctx.contents)[r.value.vertexBuffer := AsSlice(data)]
        && ctx.budget == old(ctx.budget) - 2 && ctx.nextHandle == old(ctx.nextHandle) + 2
        && ctx.boundVertexArray == None && ctx.boundArrayBuffer == Some(r.value.vertexBuffer)
    {
      var vao := ctx.CreateVertexArray();
      if vao.None? {
        return Err("createVertexArray failed.");
      }
      var buffer := ctx.CreateBuffer();
      if buffer.None? {
        ctx.DeleteVertexArray(vao.value);
        return Err("createBuffer failed.");
      }
      var vertexCount := VertexCount(data);
      Transfer(ctx, data, vao.value, buffer.value);
      var p := new Primitive(ctx, vao.value, buffer.value, vertexCount, FormatOf(data));
      return Ok(p);
    }

    /** `Drop`: deletes the vertex array and the buffer. */
    method Drop()
      requires Valid() && !dropped
      modifies this`dropped, ctx`vertexArrays, ctx`buffers, ctx`boundVertexArray, ctx`boundArrayBuffer
      ensures Valid() && dropped
      ensures ctx.vertexArrays == old(ctx.vertexArrays) - {vao}
      ensures ctx.buffers == old(ctx.buffers) - {vertexBuffer}
      ensures ctx.boundVertexArray == if old(ctx.boundVertexArray) == Some(vao) then None else old(ctx.boundVertexArray)
      ensures ctx.boundArrayBuffer == if old(ctx.boundArrayBuffer) == Some(vertexBuffer) then None else old(ctx.boundArrayBuffer)
    {
      ctx.DeleteVertexArray(vao);
      ctx.DeleteBuffer(vertexBuffer);
      dropped := true;
    }
  }

  /** A primitive whose lifetime is a scope: built with the corrected
      constructor `NewWithoutLeak`, then dropped at the end of the scope.
      Every object it creates is deleted by the time the scope ends, whether
      construction succeeds or fails. With `New` as written this does not
      hold: a failed construction leaves a vertex array alive (see
      `NewLeaksOnBufferFailure`). */
  method WithPrimitive(ctx: Gl.Context, data: VertexData) returns (r: Result<Gl.Drawable>)
    requires ctx.Valid() && ValidData(data)
    modifies ctx`budget, ctx`nextHandle, ctx`vertexArrays, ctx`buffers, ctx`contents
    modifies ctx`boundVertexArray, ctx`boundArrayBuffer
    ensures ctx.Valid()
    ensures ctx.vertexArrays == old(ctx.vertexArrays) && ctx.buffers == old(ctx.buffers)
    ensures old(ctx.budget) >= 2 <==> r.Ok?
    ensures r.Ok? ==> r.value == DrawableOf(data, old(ctx.nextHandle))
  {
    var p := Primitive.NewWithoutLeak(ctx, data);
    if p.Err? {
      return Err(p.message);
    }
    r := Ok(p.value.AsDrawable());
    p.value.Drop();
  }

  /** A primitive built and then dropped leaves nothing bound: its buffer,
      bound by the upload, is unbound when it is deleted, so no later draw
      can read the stale floats. */
  method NewThenDropUnbinds(data: VertexData) returns (ctx: Gl.Context, r: Result<Primitive>)
    requires ValidData(data)
    ensures r.Ok? && r.value.ctx == ctx && r.value.dropped
    ensures ctx.vertexArrays == {} && ctx.buffers == {}
    ensures ctx.boundVertexArray == None && ctx.boundArrayBuffer == None
    ensures ctx.SourceData() == []
  {
    ctx := new Gl.Context(2);
    r := Primitive.New(ctx, data);
    r.value.Drop();
  }

  /** The leak of `Primitive.New`: when the driver grants exactly one
      allocation, construction fails and leaves a vertex array alive that
      is never explicitly deleted: creations and deletions do not balance. */
  method NewLeaksOnBufferFailure() returns (ctx: Gl.Context, r: Result<Primitive>)
    ensures r == Err("createBuffer failed.")
    ensures ctx.vertexArrays == {0} && ctx.buffers == {}
  {
    ctx := new Gl.Context(1);
    r := Primitive.New(ctx, TriangleStrip([]));
  }

  /** Two primitives built one after the other on a context that grants
      four allocations: both constructions succeed, with distinct objects,
      and the second leaves its own buffer bound. */
  method TwoPrimitivesOnFourAllocations(data: VertexData) returns (a: Result<Primitive>, b: Result<Primitive>)
    requires ValidData(data)
    ensures a.Ok? && b.Ok?
    ensures a.value.vao != b.value.vao && a.value.vertexBuffer != b.value.vertexBuffer
    ensures a.value.ctx == b.value.ctx && a.value.ctx.budget == 0
    ensures a.value.ctx.boundVertexArray == None && a.value.ctx.boundArrayBuffer == Some(b.value.vertexBuffer)
  {
    var ctx := new Gl.Context(4);
    a := Primitive.New(ctx, data);
    b := Primitive.New(ctx, data);
  }

  /** A geometry that borrows a vertex array and a buffer owned elsewhere
      and remembers only the vertex count captured at transfer time. */
  datatype EphemeralPrimitive = EphemeralPrimitive(format: Format, vao: Gl.Handle, buffer: Gl.Handle, vertexCount: nat)
  {
    /** The `Drawable` accessors: the format's constants and the captured count. */
    function AsDrawable(): Gl.Drawable
    {
      Gl.Drawable(Mode(format), Position(format), Color(format), TextureCoordination(format), vertexCount, vao)
    }
  }

  /** `EphemeralPrimitive::transfer`: overwrites the borrowed buffer with the
      data and describes it as a drawable exactly as a `Primitive` built
      from the same data would. */
  method TransferEphemeral(ctx: Gl.Context, data: VertexData, vao: Gl.Handle, buffer: Gl.Handle)
    returns (e: EphemeralPrimitive)
    requires ctx.Valid() && ValidData(data) && buffer in ctx.buffers
    modifies ctx`boundVertexArray, ctx`boundArrayBuffer, ctx`contents
    ensures ctx.Valid()
    ensures e.AsDrawable() == DrawableOf(data, vao) && e.buffer == buffer
    ensures ctx.contents == old(ctx.contents)[buffer := AsSlice(data)]
    ensures ctx.boundVertexArray == None && ctx.boundArrayBuffer == Some(buffer)
  {
    var vertexCount := VertexCount(data);
    Transfer(ctx, data, vao, buffer);
    e := EphemeralPrimitive(FormatOf(data), vao, buffer, vertexCount);
  }
}
