/** The point layer of the level editor: three growable arrays kept in
    lockstep (positions, colours, identifiers) and a selection index, with
    the loader, the render pass and the mouse and keyboard handlers. */
module PointLayerEditor {
  import opened PointLayerSpec

  /** Index of the first point within the radius of `at`, or -1 when there is none. */
  method HitTest(points: seq<Point>, at: Point) returns (hit: int)
    ensures hit == -1 || IsFirstHit(points, at, hit)
    ensures hit == -1 <==> NoHit(points, at)
  {
    var i := 0;
    while i < |points|
      invariant 0 <= i <= |points|
      invariant forall j :: 0 <= j < i ==> !Within(points[j], at)
    {
      if Within(points[i], at) {
        return i;
      }
      i := i + 1;
    }
    return -1;
  }

  /** Fills all but the last byte of an identifier buffer with random
      lowercase letters; `rand(k)` is what the `k`-th call of the random
      source returns. The last byte is never written, so the result is the
      written part. */
  method GenerateId(rand: nat -> nat) returns (id: Id)
    ensures IsGeneratedId(id, rand)
    ensures forall k :: 0 <= k < |id| ==> 'a' <= id[k] <= 'z'
  {
    var buffer := new char[ID_MAX_SIZE];
    var i := 0;
    while i < ID_MAX_SIZE - 1
      invariant 0 <= i <= ID_MAX_SIZE - 1
      invariant forall k :: 0 <= k < i ==> buffer[k] == Letter(rand(k))
    {
      buffer[i] := Letter(rand(i));
      i := i + 1;
    }
    id := buffer[..ID_MAX_SIZE - 1];
  }

  class PointLayer {
    var points: seq<Point>
    var colors: seq<Color>
    var ids: seq<Id>
    /** Index of the selected point, or -1 for none. */
    var selected: int

    /** Entry `i` of every array describes the same point. */
    ghost predicate Lockstep()
      reads this
    {
      |points| == |colors| == |ids|
    }

    /** Lockstep, and the selection is none or an existing point. */
    ghost predicate Valid()
      reads this
    {
      Lockstep() && -1 <= selected < |points|
    }

    /** An empty layer with nothing selected. */
    constructor ()
      ensures Valid()
      ensures points == [] && colors == [] && ids == [] && selected == -1
    {
      points, colors, ids := [], [], [];
      selected := -1;
    }

    /** Appends one point to all three arrays. */
    method Push(p: Point, c: Color, id: Id)
      requires Lockstep()
      modifies this
      ensures Lockstep()
      ensures points == old(points) + [p] && colors == old(colors) + [c] && ids == old(ids) + [id]
      ensures selected == old(selected)
      ensures old(Valid()) ==> Valid()
    {
      points := points + [p];
      colors := colors + [c];
      ids := ids + [id];
    }

    /** Removes entry `k` from all three arrays, shifting the tail down. */
    method DeleteAt(k: nat)
      requires Lockstep() && k < |points|
      modifies this
      ensures Lockstep()
      ensures points == RemoveAt(old(points), k)
      ensures colors == RemoveAt(old(colors), k)
      ensures ids == RemoveAt(old(ids), k)
      ensures selected == old(selected)
    {
      points := RemoveAt(points, k);
      colors := RemoveAt(colors, k);
      ids := RemoveAt(ids, k);
    }

    /** A left press selects the first point within the radius of the press;
        when there is none, it appends a point there with colour `color` and a
        generated identifier, leaving the selection alone. Other events change
        nothing. Always returns 0. */
    method MouseButton(event: MouseEvent, color: Color, rand: nat -> nat) returns (status: int)
      requires Lockstep()
      modifies this
      ensures status == 0
      ensures Lockstep()
      ensures old(Valid()) ==> Valid()
      ensures !IsLeftPress(event) ==> unchanged(this)
      ensures IsLeftPress(event) && !NoHit(old(points), event.at) ==>
        && points == old(points) && colors == old(colors) && ids == old(ids)
        && IsFirstHit(points, event.at, selected)
      ensures IsLeftPress(event) && NoHit(old(points), event.at) ==>
        && points == old(points) + [event.at]
        && colors == old(colors) + [color]
        && |ids| == |old(ids)| + 1
        && ids[..|old(ids)|] == old(ids)
        && IsGeneratedId(ids[|old(ids)|], rand)
        && selected == old(selected)
    {
      status := 0;
      if IsLeftPress(event) {
        var hit := HitTest(points, event.at);
        if hit != -1 {
          selected := hit;
          return;
        }
        var id := GenerateId(rand);
        Push(event.at, color, id);
      }
    }

    /** A Delete press removes the selected entry from all three arrays when
        the selection is in bounds, and then clears the selection in every
        case. Other events change nothing. Always returns 0. */
    method Keyboard(event: KeyEvent) returns (status: int)
      requires Lockstep()
      modifies this
      ensures status == 0
      ensures Lockstep()
      ensures !IsDeletePress(event) ==> unchanged(this)
      ensures IsDeletePress(event) ==> selected == -1 && Valid()
      ensures IsDeletePress(event) && 0 <= old(selected) < old(|points|) ==>
        && points == RemoveAt(old(points), old(selected))
        && colors == RemoveAt(old(colors), old(selected))
        && ids == RemoveAt(old(ids), old(selected))
      ensures IsDeletePress(event) && !(0 <= old(selected) < old(|points|)) ==>
        points == old(points) && colors == old(colors) && ids == old(ids)
    {
      status := 0;
      if IsDeletePress(event) {
        if 0 <= selected < |points| {
          DeleteAt(selected);
        }
        selected := -1;
      }
    }

    /** Draws the points in index order through a camera whose `k`-th fill
        call succeeds when `drawOk(k)`; the selected point gets its halo in the
        inverted colour before its marker. `draws` lists the fill calls
        made. The first failing call ends the pass with -1. The layer is only
        read. */
    method Render(invert: Color -> Color, drawOk: nat -> bool) returns (status: int, draws: seq<DrawCmd>)
      requires Lockstep()
      ensures status == 0 || status == -1
      ensures draws <= Plan(points, colors, selected, invert, |points|)
      ensures forall k :: 0 <= k < |draws| - 1 ==> drawOk(k)
      ensures status == 0 <==>
        draws == Plan(points, colors, selected, invert, |points|) && forall k :: 0 <= k < |draws| ==> drawOk(k)
      ensures status == -1 ==> draws != [] && !drawOk(|draws| - 1)
    {
      var n := |points|;
      draws := [];
      var i := 0;
      while i < n
        invariant 0 <= i <= n
        invariant draws == Plan(points, colors, selected, invert, i)
        invariant forall k :: 0 <= k < |draws| ==> drawOk(k)
      {
        if i == selected {
          draws := draws + [Fill(points[i], SELECTION_HALO_SCALE, invert(colors[i]))];
          if !drawOk(|draws| - 1) {
            PlanPrefix(points, colors, selected, invert, i + 1, n);
            return -1, draws;
          }
        }
        draws := draws + [Fill(points[i], POINT_LAYER_ELEMENT_RADIUS, colors[i])];
        if !drawOk(|draws| - 1) {
          PlanPrefix(points, colors, selected, invert, i + 1, n);
          return -1, draws;
        }
        i := i + 1;
      }
      return 0, draws;
    }

    /** Number of points, which is the length of all three arrays. */
    function Count(): (n: nat)
      reads this
      requires Lockstep()
      ensures n == |points| == |colors| == |ids|
    {
      |points|
    }

    /** Read-only view of the positions, index-aligned with the other views. */
    function Points(): (v: seq<Point>)
      reads this
      requires Lockstep()
      ensures |v| == Count() && v == points
    {
      points
    }

    /** Read-only view of the colours, index-aligned with the other views. */
    function Colors(): (v: seq<Color>)
      reads this
      requires Lockstep()
      ensures |v| == Count() && v == colors
    {
      colors
    }

    /** Read-only view of the identifiers, index-aligned with the other views. */
    function Ids(): (v: seq<Id>)
      reads this
      requires Lockstep()
      ensures |v| == Count() && v == ids
    {
      ids
    }
  }

  /** Builds a layer from a level file: the count line, then one entry line
      per point, each pushed in file order. Entry `i` is made from what the
      scan targets hold after line `i` (a partial scan leaves the targets it
      did not reach as they were; `init` is what they held at first) and
      `hexstr` decodes the colour name. Returns null exactly when the count
      line or one of the counted entry lines ends before any conversion. */
  method CreateFromLineStream(countLine: CountScan, lines: seq<LineScan>, init: Fields,
                              hexstr: seq<char> -> Color)
    returns (layer: PointLayer?)
    ensures layer == null <==> LoadFails(countLine, lines)
    ensures layer != null ==> fresh(layer) && layer.Valid() && layer.selected == -1
    ensures layer != null ==> |layer.points| == DeclaredCount(countLine)
    ensures layer != null ==> forall i :: 0 <= i < |layer.points| ==>
      && layer.points[i] == Point(Carried(init, lines, i + 1).x, Carried(init, lines, i + 1).y)
      && layer.colors[i] == hexstr(Carried(init, lines, i + 1).colorName)
      && layer.ids[i] == Carried(init, lines, i + 1).id
    ensures layer != null ==> forall i :: 0 <= i < |layer.points| && i < |lines| ==>
      lines[i].LineMatch? && lines[i].conversions >= 4 ==>
        && layer.points[i] == Point(lines[i].fields.x, lines[i].fields.y)
        && layer.colors[i] == hexstr(lines[i].fields.colorName)
        && layer.ids[i] == lines[i].fields.id
  {
    var pl := new PointLayer();
    if countLine.CountEof? {
      return null;
    }
    var count := DeclaredCount(countLine);
    var targets := init;
    var i := 0;
    while i < count
      invariant 0 <= i <= count
      invariant pl.Valid() && pl.selected == -1 && |pl.points| == i
      invariant targets == Carried(init, lines, i)
      invariant forall k :: 0 <= k < i ==> !Line(lines, k).LineEof?
      invariant forall k :: 0 <= k < i ==>
        && pl.points[k] == Point(Carried(init, lines, k + 1).x, Carried(init, lines, k + 1).y)
        && pl.colors[k] == hexstr(Carried(init, lines, k + 1).colorName)
        && pl.ids[k] == Carried(init, lines, k + 1).id
    {
      var scan := Line(lines, i);
      if scan.LineEof? {
        return null;
      }
      targets := Absorb(targets, scan);
      pl.Push(Point(targets.x, targets.y), hexstr(targets.colorName), targets.id);
      i := i + 1;
    }
    return pl;
  }
}

/** A client of the layer: load two points, select the first with a press
    near it, delete it; what follows is derived from the contracts alone. */
module PointLayerScenario {
  import opened PointLayerSpec
  import opened PointLayerEditor

  method LoadSelectDelete(init: Fields, rand: nat -> nat, invert: Color -> Color)
  {
    var red := Color(1.0, 0.0, 0.0, 1.0);
    var green := Color(0.0, 1.0, 0.0, 1.0);
    var hexstr := (name: seq<char>) => if name == "ff0000" then red else green;
    var lines := [LineMatch(4, Fields("id1", 0.0, 0.0, "ff0000")),
                  LineMatch(4, Fields("id2", 100.0, 100.0, "00ff00"))];
    assert !LoadFails(CountMatch(2), lines);
    var layer := CreateFromLineStream(CountMatch(2), lines, init, hexstr);
    assert Carried(init, lines, 1) == lines[0].fields;
    assert Carried(init, lines, 2) == lines[1].fields;
    assert layer.Count() == 2 && layer.selected == -1;
    assert layer.points[0] == Point(0.0, 0.0) && layer.colors[0] == red;
    assert layer.points[1] == Point(100.0, 100.0) && layer.colors[1] == green;

    var press := MouseEvent(MouseButtonDown, ButtonLeft, Point(2.0, 2.0));
    assert Within(layer.points[0], press.at);
    var status := layer.MouseButton(press, green, rand);
    assert layer.selected == 0 && layer.Count() == 2;

    status := layer.Keyboard(KeyEvent(KeyDown, KeyDelete));
    assert layer.Count() == 1 && layer.selected == -1;
    assert layer.points[0] == Point(100.0, 100.0) && layer.ids[0] == "id2";
  }
}
