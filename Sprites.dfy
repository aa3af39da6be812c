/** The sprite batch, which groups textured quads into as few draw commands
    as their order allows, and the sprite renderer, which replays those
    commands through the graphics context. */
module Sprites {
  import opened Wrappers
  import opened Vectors
  import opened Rectangles
  import opened Matrices
  import opened Gl
  import Primitives

  /** A batch vertex: a destination position in pixels and a texture
      coordinate. The position becomes a three-component vector only when
      it is uploaded. */
  datatype Vertex = Vertex(position: Vector2, uv: Vector2)

  /** One call of `add`. The source rectangle is (u1, v1, u2, v2). */
  datatype Request = Request(texture: Texture, source: Vector4, destination: Rectangle)

  /** A batch entry: one texture, one source rectangle and the vertices of
      every quad drawn with them. */
  datatype Command = Command(texture: Texture, source: Vector4, vertices: seq<Vertex>)

  /** A vertex labelled with the texture and source it is drawn with. */
  datatype TaggedVertex = TaggedVertex(texture: Texture, source: Vector4, vertex: Vertex)

  function Last<T>(s: seq<T>): T
    requires |s| > 0
  {
    s[|s| - 1]
  }

  function DropLast<T>(s: seq<T>): seq<T>
    requires |s| > 0
  {
    s[..|s| - 1]
  }

  // Quads.

  /** The six vertices `push_vertices` appends for one sprite: the triangles
      top-left, bottom-left, top-right and bottom-right, top-right,
      bottom-left. The top of the destination (smaller y on screen) takes
      the top of the source (v2, larger v in texture space). */
  function Quad(source: Vector4, destination: Rectangle): (q: seq<Vertex>)
    ensures |q| == 6
  {
    var d := Vector4OfRectangle(destination);
    var topLeft := Vertex(Vector2(d.x, d.y), Vector2(source.x, source.w));
    var topRight := Vertex(Vector2(d.x + d.z, d.y), Vector2(source.z, source.w));
    var bottomLeft := Vertex(Vector2(d.x, d.y + d.w), Vector2(source.x, source.y));
    var bottomRight := Vertex(Vector2(d.x + d.z, d.y + d.w), Vector2(source.z, source.y));
    [topLeft, bottomLeft, topRight, bottomRight, topRight, bottomLeft]
  }

  /** Twice the signed area of a triangle; negative when its vertices turn
      clockwise in a y-up frame. */
  function SignedArea(a: Vector2, b: Vector2, c: Vector2): real
  {
    (b.x - a.x) * (c.y - a.y) - (b.y - a.y) * (c.x - a.x)
  }

  /** Every corner of the destination and of the source appears in the quad,
      in the order the two triangles visit them. */
  lemma QuadCorners(source: Vector4, destination: Rectangle)
    ensures var q := Quad(source, destination);
      var x, y, w, h := destination.x as int as real, destination.y as int as real, destination.w as int as real, destination.h as int as real;
      && q[0].position == Vector2(x, y) && q[1].position == Vector2(x, y + h)
      && q[2].position == Vector2(x + w, y) && q[3].position == Vector2(x + w, y + h)
      && q[4] == q[2] && q[5] == q[1]
      && q[0].uv == Vector2(source.x, source.w) && q[1].uv == Vector2(source.x, source.y)
      && q[2].uv == Vector2(source.z, source.w) && q[3].uv == Vector2(source.z, source.y)
  {
  }

  /** The left edge of the destination samples u1 and the right edge u2;
      the top edge samples v2 and the bottom edge v1, so the image is flipped
      vertically between texture space and screen space. */
  lemma QuadSamplesMatchingEdges(source: Vector4, destination: Rectangle, k: nat)
    requires destination.w != 0 && destination.h != 0 && k < 6
    ensures var v := Quad(source, destination)[k];
      var x, y, w, h := destination.x as int as real, destination.y as int as real, destination.w as int as real, destination.h as int as real;
      && (v.position.x == x ==> v.uv.x == source.x)
      && (v.position.x == x + w ==> v.uv.x == source.z)
      && (v.position.y == y ==> v.uv.y == source.w)
      && (v.position.y == y + h ==> v.uv.y == source.y)
  {
  }

  /** Both triangles of a quad have the same orientation, with signed area
      -(w * h) in pixel coordinates. */
  lemma QuadWinding(source: Vector4, destination: Rectangle)
    ensures var q := Quad(source, destination);
      var area := -((destination.w as int as real) * (destination.h as int as real));
      && SignedArea(q[0].position, q[1].position, q[2].position) == area
      && SignedArea(q[3].position, q[4].position, q[5].position) == area
  {
  }

  // The normalizer.

  /** `normalizer`: maps pixel x in [0, w] to [-1, 1] and pixel y in [0, h]
      to [1, -1], and flattens z to 0. With a zero width or height the
      program divides by zero; the model has no matrix then. */
  function Normalizer(size: Size): (r: Option<Matrix4>)
    ensures r.Some? <==> size.w != 0 && size.h != 0
  {
    if size.w == 0 || size.h == 0 then None
    else
      var w, h := size.w as int as real, size.h as int as real;
      Some(Matrix4(
        2.0 / w, 0.0, 0.0, -1.0,
        0.0, -2.0 / h, 0.0, 1.0,
        0.0, 0.0, 0.0, 0.0,
        0.0, 0.0, 0.0, 1.0))
  }

  /** The screen position of a pixel position under the normalizer. */
  function Clip(size: Size, p: Vector2): Vector2
    requires size.w != 0 && size.h != 0
  {
    Vector2(2.0 / (size.w as int as real) * p.x - 1.0, 1.0 - 2.0 / (size.h as int as real) * p.y)
  }

  /** The normalizer never divides, sends every point to the plane z = 0,
      and sends the screen's top-left corner to (-1, 1) and its bottom-right
      corner to (1, -1). */
  lemma NormalizerMapsScreen(size: Size, p: Vector2, z: real)
    requires size.w != 0 && size.h != 0
    ensures Normalizer(size).Some?
    ensures Transform(Normalizer(size).value, Vector3(p.x, p.y, z)) == Some(Vector3(Clip(size, p).x, Clip(size, p).y, 0.0))
    ensures Clip(size, Vector2(0.0, 0.0)) == Vector2(-1.0, 1.0)
    ensures Clip(size, Vector2(size.w as int as real, size.h as int as real)) == Vector2(1.0, -1.0)
  {
    var m := Normalizer(size).value;
    assert IsAffine(m);
    AffineNeverDivides(m, Vector3(p.x, p.y, z));
    var w, h := size.w as int as real, size.h as int as real;
    assert Projected(m, Vector3(p.x, p.y, z)) == Vector3(2.0 / w * p.x - 1.0, 1.0 - 2.0 / h * p.y, 0.0) by {
      assert -2.0 / h * p.y == -(2.0 / h * p.y);
    }
    assert Scale(Projected(m, Vector3(p.x, p.y, z)), 1.0) == Projected(m, Vector3(p.x, p.y, z));
    assert Clip(size, p) == Vector2(2.0 / w * p.x - 1.0, 1.0 - 2.0 / h * p.y);
    assert Transform(m, Vector3(p.x, p.y, z)) == Some(Projected(m, Vector3(p.x, p.y, z)));
    assert 2.0 / w * w == 2.0;
    assert 2.0 / h * h == 2.0;
  }

  /** Scaling the axes by sx and sy scales signed areas by sx * sy. */
  lemma AreaUnderAxisScaling(a: Vector2, b: Vector2, c: Vector2, sx: real, sy: real, tx: real, ty: real)
    ensures SignedArea(Vector2(sx * a.x + tx, sy * a.y + ty), Vector2(sx * b.x + tx, sy * b.y + ty), Vector2(sx * c.x + tx, sy * c.y + ty))
      == sx * sy * SignedArea(a, b, c)
  {
    var dx1, dy1, dx2, dy2 := b.x - a.x, b.y - a.y, c.x - a.x, c.y - a.y;
    assert (sx * b.x + tx) - (sx * a.x + tx) == sx * dx1;
    assert (sy * b.y + ty) - (sy * a.y + ty) == sy * dy1;
    assert (sx * c.x + tx) - (sx * a.x + tx) == sx * dx2;
    assert (sy * c.y + ty) - (sy * a.y + ty) == sy * dy2;
    assert (sx * dx1) * (sy * dy2) - (sy * dy1) * (sx * dx2) == sx * sy * (dx1 * dy2 - dy1 * dx2);
  }

  /** Because the normalizer flips y, a quad of positive size on a screen of
      positive size ends up with both triangles counter-clockwise, the
      orientation that faces the viewer. */
  lemma NormalizedQuadFacesViewer(size: Size, source: Vector4, destination: Rectangle)
    requires size.w > 0 && size.h > 0 && destination.w > 0 && destination.h > 0
    ensures var q := Quad(source, destination);
      && SignedArea(Clip(size, q[0].position), Clip(size, q[1].position), Clip(size, q[2].position)) > 0.0
      && SignedArea(Clip(size, q[3].position), Clip(size, q[4].position), Clip(size, q[5].position)) > 0.0
  {
    var q := Quad(source, destination);
    QuadWinding(source, destination);
    PositiveProduct(destination.w as int as real, destination.h as int as real);
    ClipReversesOrientation(size, q[0].position, q[1].position, q[2].position);
    ClipReversesOrientation(size, q[3].position, q[4].position, q[5].position);
  }

  /** The normalizer turns a clockwise pixel triangle into a
      counter-clockwise screen triangle. */
  lemma ClipReversesOrientation(size: Size, a: Vector2, b: Vector2, c: Vector2)
    requires size.w > 0 && size.h > 0 && SignedArea(a, b, c) < 0.0
    ensures SignedArea(Clip(size, a), Clip(size, b), Clip(size, c)) > 0.0
  {
    var sx, sy := 2.0 / (size.w as int as real), -(2.0 / (size.h as int as real));
    PositiveProduct(sx, -sy);
    assert Clip(size, a) == Vector2(sx * a.x + -1.0, sy * a.y + 1.0);
    assert Clip(size, b) == Vector2(sx * b.x + -1.0, sy * b.y + 1.0);
    assert Clip(size, c) == Vector2(sx * c.x + -1.0, sy * c.y + 1.0);
    AreaUnderAxisScaling(a, b, c, sx, sy, -1.0, 1.0);
    PositiveProduct(-(sx * sy), -SignedArea(a, b, c));
    assert sx * sy * SignedArea(a, b, c) == (-(sx * sy)) * (-SignedArea(a, b, c));
  }

  lemma PositiveProduct(a: real, b: real)
    requires a > 0.0 && b > 0.0
    ensures a * b > 0.0
  {
  }

  // The batch, specified by its request history.

  /** Whether a request extends a command: the same texture and the same
      source rectangle. `Vector4` declares no equality of its own; the
      comparison of sources is read as field-by-field equality. */
  predicate SameKey(c: Command, r: Request)
  {
    c.texture == r.texture && c.source == r.source
  }

  /** One `add`: extend the last command when it has the same texture and
      source, otherwise start a new command. */
  function Merge(commands: seq<Command>, r: Request): seq<Command>
  {
    if |commands| > 0 && SameKey(Last(commands), r)
    then DropLast(commands) + [Last(commands).(vertices := Last(commands).vertices + Quad(r.source, r.destination))]
    else commands + [Command(r.texture, r.source, Quad(r.source, r.destination))]
  }

  /** The commands after the given requests, in order, on a new batch. */
  function Batch(requests: seq<Request>): seq<Command>
  {
    if requests == [] then [] else Merge(Batch(DropLast(requests)), Last(requests))
  }

  /** The number of maximal runs of consecutive requests with equal texture
      and source. */
  function RunCount(requests: seq<Request>): nat
  {
    if requests == [] then 0
    else
      var n := |requests|;
      RunCount(DropLast(requests)) +
        (if n >= 2 && requests[n - 2].texture == requests[n - 1].texture && requests[n - 2].source == requests[n - 1].source then 0 else 1)
  }

  function TotalVertices(commands: seq<Command>): nat
  {
    if commands == [] then 0 else TotalVertices(DropLast(commands)) + |Last(commands).vertices|
  }

  function Tag(t: Texture, s: Vector4, vs: seq<Vertex>): (r: seq<TaggedVertex>)
    ensures |r| == |vs|
  {
    seq(|vs|, i requires 0 <= i < |vs| => TaggedVertex(t, s, vs[i]))
  }

  /** All vertices of a command list, in order, each with its command's
      texture and source. */
  function TaggedVertices(commands: seq<Command>): seq<TaggedVertex>
  {
    if commands == [] then []
    else TaggedVertices(DropLast(commands)) + Tag(Last(commands).texture, Last(commands).source, Last(commands).vertices)
  }

  /** The quads of the requests, in request order, each with its request's
      texture and source: what an unbatched renderer would draw. */
  function TaggedQuads(requests: seq<Request>): seq<TaggedVertex>
  {
    if requests == [] then []
    else TaggedQuads(DropLast(requests)) + Tag(Last(requests).texture, Last(requests).source, Quad(Last(requests).source, Last(requests).destination))
  }

  /** No two neighbouring commands share texture and source, and every
      command holds a positive whole number of quads. */
  predicate WellFormed(commands: seq<Command>)
  {
    && (forall i :: 0 < i < |commands| ==>
          !(commands[i - 1].texture == commands[i].texture && commands[i - 1].source == commands[i].source))
    && (forall i :: 0 <= i < |commands| ==> |commands[i].vertices| > 0 && |commands[i].vertices| % 6 == 0)
  }

  lemma DropLastAppend<T>(s: seq<T>, x: T)
    ensures DropLast(s + [x]) == s && Last(s + [x]) == x
  {
    assert (s + [x])[..|s|] == s;
  }

  lemma TagAppend(t: Texture, s: Vector4, a: seq<Vertex>, b: seq<Vertex>)
    ensures Tag(t, s, a + b) == Tag(t, s, a) + Tag(t, s, b)
  {
  }

  /** Merging keeps the list well formed and leaves a last command keyed by
      the request. */
  lemma MergeWellFormed(commands: seq<Command>, r: Request)
    requires WellFormed(commands)
    ensures WellFormed(Merge(commands, r))
    ensures |Merge(commands, r)| > 0 && SameKey(Last(Merge(commands, r)), r)
  {
  }

  lemma {:induction false} BatchWellFormed(requests: seq<Request>)
    ensures WellFormed(Batch(requests))
    ensures requests != [] ==> |Batch(requests)| > 0 && SameKey(Last(Batch(requests)), Last(requests))
  {
    if requests != [] {
      BatchWellFormed(DropLast(requests));
      MergeWellFormed(Batch(DropLast(requests)), Last(requests));
    }
  }

  lemma CommandNotEmpty(requests: seq<Request>, i: nat)
    requires i < |Batch(requests)|
    ensures |Batch(requests)[i].vertices| > 0
  {
    BatchWellFormed(requests);
  }

  /** The batch has one command per run of equal (texture, source) requests. */
  lemma {:induction false} BatchCommandCount(requests: seq<Request>)
    ensures |Batch(requests)| == RunCount(requests)
  {
    if requests != [] {
      var init := DropLast(requests);
      BatchCommandCount(init);
      BatchWellFormed(init);
      if |requests| >= 2 {
        assert Last(init) == requests[|requests| - 2];
      }
    }
  }

  lemma MergeTotal(commands: seq<Command>, r: Request)
    ensures TotalVertices(Merge(commands, r)) == TotalVertices(commands) + 6
  {
    if |commands| > 0 && SameKey(Last(commands), r) {
      var last := Last(commands);
      DropLastAppend(DropLast(commands), last.(vertices := last.vertices + Quad(r.source, r.destination)));
    } else {
      DropLastAppend(commands, Command(r.texture, r.source, Quad(r.source, r.destination)));
    }
  }

  /** Every request contributes exactly six vertices. */
  lemma {:induction false} BatchTotalVertices(requests: seq<Request>)
    ensures TotalVertices(Batch(requests)) == 6 * |requests|
  {
    if requests != [] {
      BatchTotalVertices(DropLast(requests));
      MergeTotal(Batch(DropLast(requests)), Last(requests));
    }
  }

  lemma MergeTagged(commands: seq<Command>, r: Request)
    ensures TaggedVertices(Merge(commands, r)) == TaggedVertices(commands) + Tag(r.texture, r.source, Quad(r.source, r.destination))
  {
    var q := Quad(r.source, r.destination);
    if |commands| > 0 && SameKey(Last(commands), r) {
      var last := Last(commands);
      DropLastAppend(DropLast(commands), last.(vertices := last.vertices + q));
      TagAppend(last.texture, last.source, last.vertices, q);
      assert commands == DropLast(commands) + [last];
      DropLastAppend(DropLast(commands), last);
    } else {
      DropLastAppend(commands, Command(r.texture, r.source, q));
    }
  }

  /** Batching changes neither which vertices are drawn, nor their order,
      nor the texture and source each is drawn with. */
  lemma {:induction false} BatchPreservesDrawing(requests: seq<Request>)
    ensures TaggedVertices(Batch(requests)) == TaggedQuads(requests)
  {
    if requests != [] {
      BatchPreservesDrawing(DropLast(requests));
      MergeTagged(Batch(DropLast(requests)), Last(requests));
    }
  }

  /** Two sprites with the same texture and source share one command; a
      third with another texture starts a second one. */
  lemma BatchExample(t: Texture, u: Texture, s: Vector4, d1: Rectangle, d2: Rectangle, d3: Rectangle)
    requires t != u
    ensures var two := [Request(t, s, d1), Request(t, s, d2)];
      && Batch(two) == [Command(t, s, Quad(s, d1) + Quad(s, d2))]
      && Batch(two + [Request(u, s, d3)]) == [Command(t, s, Quad(s, d1) + Quad(s, d2)), Command(u, s, Quad(s, d3))]
  {
    var r1, r2, r3 := Request(t, s, d1), Request(t, s, d2), Request(u, s, d3);
    var c1 := Command(t, s, Quad(s, d1));
    var c12 := Command(t, s, Quad(s, d1) + Quad(s, d2));
    assert DropLast([r1]) == [];
    assert Batch([r1]) == Merge([], r1) == [c1];
    assert DropLast([r1, r2]) == [r1];
    assert Batch([r1, r2]) == Merge([c1], r2);
    assert DropLast([c1]) == [];
    assert Merge([c1], r2) == [c12];
    assert DropLast([r1, r2, r3]) == [r1, r2];
    assert [r1, r2] + [r3] == [r1, r2, r3];
    assert Batch([r1, r2, r3]) == Merge([c12], r3) == [c12, Command(u, s, Quad(s, d3))];
  }

  /** The batch, holding the commands built so far and, for the proofs, the
      requests that built them. */
  class SpriteBatch {
    var commands: seq<Command>
    ghost var requests: seq<Request>

    ghost predicate Valid()
      reads this
    {
      commands == Batch(requests)
    }

    /** `SpriteBatch::new`. */
    constructor ()
      ensures Valid() && commands == [] && requests == []
    {
      commands := [];
      requests := [];
    }

    /** `push_vertices`: appends the quad's six vertices. */
    static method PushVertices(v: seq<Vertex>, source: Vector4, destination: Rectangle) returns (v': seq<Vertex>)
      ensures v' == v + Quad(source, destination)
    {
      var d := Vector4OfRectangle(destination);
      var x, y, w, h := d.x, d.y, d.z, d.w;
      var dtl, dtr, dbl, dbr := Vector2(x, y), Vector2(x + w, y), Vector2(x, y + h), Vector2(x + w, y + h);
      var u1, v1, u2, v2 := source.x, source.y, source.z, source.w;
      var stl, str, sbl, sbr := Vector2(u1, v2), Vector2(u2, v2), Vector2(u1, v1), Vector2(u2, v1);
      v' := v;
      v' := v' + [Vertex(dtl, stl)];
      v' := v' + [Vertex(dbl, sbl)];
      v' := v' + [Vertex(dtr, str)];
      v' := v' + [Vertex(dbr, sbr)];
      v' := v' + [Vertex(dtr, str)];
      v' := v' + [Vertex(dbl, sbl)];
    }

    /** `add`: extends the last command when texture and source both match
        it, otherwise appends a new command; earlier commands never change. */
    method Add(texture: Texture, source: Vector4, destination: Rectangle)
      requires Valid()
      modifies this
      ensures Valid()
      ensures requests == old(requests) + [Request(texture, source, destination)]
      ensures var n := |old(commands)|;
        if n > 0 && old(commands)[n - 1].texture == texture && old(commands)[n - 1].source == source
        then commands == old(commands)[..n - 1] + [old(commands)[n - 1].(vertices := old(commands)[n - 1].vertices + Quad(source, destination))]
        else commands == old(commands) + [Command(texture, source, Quad(source, destination))]
      ensures WellFormed(commands) && |commands| == RunCount(requests) && TotalVertices(commands) == 6 * |requests|
    {
      var r := Request(texture, source, destination);
      ghost var rs := requests + [r];
      DropLastAppend(requests, r);
      assert Batch(rs) == Merge(commands, r);
      var n := |commands|;
      if n > 0 && commands[n - 1].texture == texture && commands[n - 1].source == source {
        var last := commands[n - 1];
        var verts := PushVertices(last.vertices, source, destination);
        commands := commands[..n - 1] + [last.(vertices := verts)];
      } else {
        var verts := PushVertices([], source, destination);
        assert verts == Quad(source, destination);
        commands := commands + [Command(texture, source, verts)];
      }
      requests := rs;
      BatchWellFormed(requests);
      BatchCommandCount(requests);
      BatchTotalVertices(requests);
    }
  }

  // Drawing.

  /** The uploaded form of a batch vertex, with the given z. */
  function Lift(vs: seq<Vertex>, z: real): (r: seq<(Vector3, Vector2)>)
    ensures |r| == |vs|
  {
    seq(|vs|, i requires 0 <= i < |vs| => (Vector3(vs[i].position.x, vs[i].position.y, z), vs[i].uv))
  }

  /** The draw issued for one command: its texture bound, the sprite's
      vertex array, a triangle list over all its vertices from vertex 0,
      reading the lifted vertices' floats. */
  function DrawCallOf(c: Command, vao: Handle, z: real): DrawCall
  {
    DrawCall(Some(c.texture), Some(vao), TriangleList, 0, |c.vertices|, Primitives.FlattenUV(Lift(c.vertices, z)))
  }

  /** The draws issued for a command list, in order. */
  function Replay(commands: seq<Command>, vao: Handle, z: real): seq<DrawCall>
  {
    if commands == [] then [] else Replay(DropLast(commands), vao, z) + [DrawCallOf(Last(commands), vao, z)]
  }

  lemma ReplayAppend(commands: seq<Command>, c: Command, vao: Handle, z: real)
    ensures Replay(commands + [c], vao, z) == Replay(commands, vao, z) + [DrawCallOf(c, vao, z)]
  {
    DropLastAppend(commands, c);
  }

  function DrawnVertices(draws: seq<DrawCall>): nat
  {
    if draws == [] then 0 else DrawnVertices(DropLast(draws)) + Last(draws).count
  }

  /** One draw per command, in command order. */
  lemma {:induction false} ReplayAt(commands: seq<Command>, vao: Handle, z: real)
    ensures |Replay(commands, vao, z)| == |commands|
    ensures forall i :: 0 <= i < |commands| ==> Replay(commands, vao, z)[i] == DrawCallOf(commands[i], vao, z)
  {
    if commands != [] {
      ReplayAt(DropLast(commands), vao, z);
    }
  }

  lemma {:induction false} ReplayDrawsEveryVertex(commands: seq<Command>, vao: Handle, z: real)
    ensures DrawnVertices(Replay(commands, vao, z)) == TotalVertices(commands)
  {
    if commands != [] {
      ReplayDrawsEveryVertex(DropLast(commands), vao, z);
      DropLastAppend(Replay(DropLast(commands), vao, z), DrawCallOf(Last(commands), vao, z));
    }
  }

  /** Drawing a batch built from some requests issues one draw per run of
      equal (texture, source) requests, six vertices per request in total,
      and every draw reads exactly five floats per vertex it draws. */
  lemma DrawsOfBatch(requests: seq<Request>, vao: Handle, z: real)
    ensures var draws := Replay(Batch(requests), vao, z);
      && |draws| == RunCount(requests)
      && DrawnVertices(draws) == 6 * |requests|
      && forall i :: 0 <= i < |draws| ==> draws[i].count > 0 && |draws[i].data| == 5 * draws[i].count
  {
    BatchCommandCount(requests);
    BatchTotalVertices(requests);
    BatchWellFormed(requests);
    ReplayAt(Batch(requests), vao, z);
    ReplayDrawsEveryVertex(Batch(requests), vao, z);
  }

  /** Overwriting a key twice leaves only the second value. */
  lemma OverwriteTwice<K, V>(m: map<K, V>, k: K, a: V, b: V)
    ensures m[k := a][k := b] == m[k := b]
  {
  }

  /** The sprite renderer: a shared vertex array and buffer reused for
      every command, and the screen size the normalizer is built from. */
  class Sprite {
    const ctx: Context
    const vao: Handle
    const vbuf: Handle
    const screenSize: Size
    /** The z the two-component positions take when they are uploaded. */
    const liftedZ: real

    ghost predicate Valid()
      reads this, ctx
    {
      ctx.Valid() && vao in ctx.vertexArrays && vbuf in ctx.buffers
    }

    constructor (ctx: Context, vao: Handle, vbuf: Handle, screenSize: Size, liftedZ: real)
      ensures this.ctx == ctx && this.vao == vao && this.vbuf == vbuf
      ensures this.screenSize == screenSize && this.liftedZ == liftedZ
    {
      this.ctx, this.vao, this.vbuf := ctx, vao, vbuf;
      this.screenSize, this.liftedZ := screenSize, liftedZ;
    }

    /** The floats a command leaves in the shared buffer: its vertices,
        lifted to `liftedZ`, flattened as a UV-mapped triangle list. */
    function Uploaded(c: Command): seq<real>
    {
      Primitives.FlattenUV(Lift(c.vertices, liftedZ))
    }

    /** `draw`: turns off depth testing and face culling, then for each
        command in order uploads its vertices into the shared buffer as a
        UV-mapped triangle list, binds its texture, draws, and unbinds the
        texture. */
    method Draw(batch: SpriteBatch)
      requires Valid() && batch.Valid()
      modifies ctx`contents, ctx`boundVertexArray, ctx`boundArrayBuffer, ctx`boundTexture
      modifies ctx`draws, ctx`depthTest, ctx`cullFace
      ensures Valid()
      ensures ctx.draws == old(ctx.draws) + Replay(batch.commands, vao, liftedZ)
      ensures !ctx.depthTest && !ctx.cullFace
      ensures batch.commands == [] ==>
        && ctx.contents == old(ctx.contents) && ctx.boundArrayBuffer == old(ctx.boundArrayBuffer)
        && ctx.boundTexture == old(ctx.boundTexture) && ctx.boundVertexArray == old(ctx.boundVertexArray)
      ensures batch.commands != [] ==>
        && ctx.contents == old(ctx.contents)[vbuf := Uploaded(Last(batch.commands))]
        && ctx.boundArrayBuffer == Some(vbuf)
        && ctx.boundTexture == None && ctx.boundVertexArray == None
    {
      ctx.DisableDepthTest();
      ctx.DisableCullFace();
      var commands := batch.commands;
      var i := 0;
      while i < |commands|
        invariant 0 <= i <= |commands|
        invariant Valid()
        invariant ctx.draws == old(ctx.draws) + Replay(commands[..i], vao, liftedZ)
        invariant !ctx.depthTest && !ctx.cullFace
        invariant i == 0 ==>
          && ctx.contents == old(ctx.contents) && ctx.boundArrayBuffer == old(ctx.boundArrayBuffer)
          && ctx.boundTexture == old(ctx.boundTexture) && ctx.boundVertexArray == old(ctx.boundVertexArray)
        invariant i > 0 ==>
          && ctx.contents == old(ctx.contents)[vbuf := Uploaded(commands[i - 1])]
          && ctx.boundArrayBuffer == Some(vbuf)
          && ctx.boundTexture == None && ctx.boundVertexArray == None
      {
        var c := commands[i];
        CommandNotEmpty(batch.requests, i);
        DrawCommand(c);
        if i > 0 {
          OverwriteTwice(old(ctx.contents), vbuf, Uploaded(commands[i - 1]), Uploaded(c));
        }
        ReplayAppend(commands[..i], c, vao, liftedZ);
        assert commands[..i + 1] == commands[..i] + [c];
        i := i + 1;
      }
      assert commands[..i] == commands;
    }

    /** One iteration of the loop of `draw`: the command's vertices go into
        the shared buffer and one draw of all of them is issued with its
        texture bound. */
    method DrawCommand(c: Command)
      requires Valid() && |c.vertices| > 0
      modifies ctx`contents, ctx`boundVertexArray, ctx`boundArrayBuffer, ctx`boundTexture, ctx`draws
      ensures Valid()
      ensures ctx.draws == old(ctx.draws) + [DrawCallOf(c, vao, liftedZ)]
      ensures ctx.contents == old(ctx.contents)[vbuf := Uploaded(c)]
      ensures ctx.boundArrayBuffer == Some(vbuf)
      ensures ctx.boundTexture == None && ctx.boundVertexArray == None
    {
      var data := Primitives.UVMappedSliceTriangleList(Lift(c.vertices, liftedZ));
      var e := Primitives.TransferEphemeral(ctx, data, vao, vbuf);
      assert Primitives.AsSlice(data) == Primitives.FlattenUV(Lift(c.vertices, liftedZ)) by {
        Primitives.SliceShape(data);
      }
      assert ctx.SourceData() == Primitives.FlattenUV(Lift(c.vertices, liftedZ));
      ctx.BindTexture(Some(c.texture));
      DrawDrawable(ctx, e.AsDrawable());
      ctx.BindTexture(None);
    }
  }
}
