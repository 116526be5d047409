// The builder's own picture of matrix and clip: bounds that never lose a point of the real
// clip, a quick rejection that never rejects what could show, under affine transforms.
module BuilderClip {
  import opened Basics
  import opened DisplayListOps
  import opened Geometry
  import opened Regions

  // ----- Shapes and bounds -----

  /** A clip cut down to a shape is within the shape's mapped bounds. */
  lemma WithinShape(clip: Region, m: Matrix, inside: Region, bounds: Rect, r: Rect, rest: Region)
    requires Bounds(r, clip) && (forall p :: inside(p) ==> In(p, bounds))
    requires forall q :: rest(q) ==> clip(q) && InImage(WithoutPerspective(m), inside, q)
    ensures Bounds(Overlap(r, MapRect(m, bounds)), rest)
    ensures IsEmpty(Overlap(r, MapRect(m, bounds))) ==> forall q :: !Interior(rest, q)
  {
    forall q | rest(q)
      ensures In(q, MapRect(m, bounds))
    {
      ImageIsBounded(WithoutPerspective(m), inside, bounds, q);
    }
    WithinRect(r, clip, MapRect(m, bounds), rest);
  }

  /** Bounds that do not overlap have no point strictly inside both. */
  lemma NothingShows(m: Matrix, bounds: Rect, clipBounds: Rect, p: Point)
    requires Det(m) != 0.0 && StrictlyIn(p, bounds)
    requires IsEmpty(Overlap(clipBounds, ToRect(RoundOut(MapRect(m, bounds)))))
    ensures !StrictlyIn(Map(m, p), clipBounds)
  {
    StaysStrict(m, bounds, p);
    RoundOutCovers(MapRect(m, bounds));
  }

  /** The rectangle holds every local point that lands in the device bounds. */
  ghost predicate HoldsLocally(s: Rect, m: Matrix, device: IRect) {
    forall p {:trigger Map(m, p)} :: In(Map(m, p), ToRect(device)) ==> In(p, s)
  }

  lemma LeastLocal(s: Rect, m: Matrix, device: IRect)
    requires Det(m) != 0.0 && Sorted(ToRect(device)) && HoldsLocally(s, m, device)
    ensures Covers(s, MapRect(Inverse(m), ToRect(device)))
  {
    forall q | In(q, ToRect(device))
      ensures In(Map(Inverse(m), q), s)
    {
      MapsInverse(m, q);
    }
    MapRectIsLeast(Inverse(m), ToRect(device), s);
  }

  // ----- The level stack -----

  datatype LayerClip = LayerClip(matrix: Matrix, clipBounds: Rect)

  class LayerClips {
    var layers: seq<LayerClip>

    /** The real clip at each level. */
    ghost var clips: seq<Region>

    ghost predicate Valid()
      reads this
    {
      && |layers| == |clips| >= 1
      && forall k :: 0 <= k < |layers| ==> Bounds(layers[k].clipBounds, clips[k])
    }

    ghost function Clip(): Region
      requires Valid()
      reads this
    {
      Last(clips)
    }

    function Current(): LayerClip
      requires layers != []
      reads this`layers
    {
      Last(layers)
    }

    constructor (cullRect: Rect)
      ensures Valid() && layers == [LayerClip(UNIT, cullRect)]
      ensures |clips| == 1 && forall q :: Clip()(q) <==> In(q, cullRect)
    {
      layers := [LayerClip(UNIT, cullRect)];
      clips := [q => In(q, cullRect)];
      new;
      forall q | Interior(clips[0], q)
        ensures StrictlyIn(q, cullRect)
      {
        InteriorIsStrict(clips[0], q, cullRect);
      }
    }

    /** A new level starts with the matrix and clip of the one below. */
    method Save()
      requires Valid()
      modifies this
      ensures Valid() && layers == old(layers) + [old(Current())] && clips == old(clips) + [old(Clip())]
    {
      layers := layers + [layers[|layers| - 1]];
      clips := clips + [Last(clips)];
    }

    /** The matrix and clip of the level below are back; the base level stays. */
    method Restore()
      requires Valid()
      modifies this
      ensures Valid()
      ensures if old(|layers|) > 1 then layers == old(Init(layers)) && clips == old(Init(clips))
              else layers == old(layers) && clips == old(clips)
    {
      if |layers| > 1 {
        layers := layers[..|layers| - 1];
        clips := clips[..|clips| - 1];
      }
    }

    method PreConcat(m: Matrix)
      requires Valid()
      modifies this`layers
      ensures Valid() && layers == old(Init(layers) + [Current().(matrix := Concat(Current().matrix, m))])
    {
      var top := layers[|layers| - 1];
      layers := layers[..|layers| - 1] + [top.(matrix := Concat(top.matrix, m))];
    }

    method ResetMatrix()
      requires Valid()
      modifies this`layers
      ensures Valid() && layers == old(Init(layers) + [Current().(matrix := UNIT)])
    {
      layers := layers[..|layers| - 1] + [layers[|layers| - 1].(matrix := UNIT)];
    }

    /** Narrows the bounds to those of a shape that the clip has been cut down to. */
    method IntersectBounds(rect: Rect, ghost inside: Region, ghost rest: Region)
      requires Valid() && forall p :: inside(p) ==> In(p, rect)
      requires forall q :: rest(q) ==> Clip()(q) && InImage(WithoutPerspective(Current().matrix), inside, q)
      modifies this
      ensures Valid() && clips == old(Init(clips)) + [rest]
      ensures |layers| == old(|layers|) && Init(layers) == old(Init(layers)) && Current().matrix == old(Current().matrix)
      ensures var overlap := Overlap(old(Current().clipBounds), MapRect(Current().matrix, rect));
              Current().clipBounds == if IsEmpty(overlap) then Rect(0.0, 0.0, 0.0, 0.0) else overlap
    {
      var top := layers[|layers| - 1];
      WithinShape(Last(clips), top.matrix, inside, rect, top.clipBounds, rest);
      var overlap := Overlap(top.clipBounds, MapRect(top.matrix, rect));
      if IsEmpty(overlap) {
        overlap := Rect(0.0, 0.0, 0.0, 0.0);
      }
      layers := layers[..|layers| - 1] + [top.(clipBounds := overlap)];
      clips := Init(clips) + [rest];
    }

    /** A rectangle, a rounded rectangle or a path, with its bounds. Only a clip that is cut
        down to the inside of the shape narrows the bounds. */
    method ClipShape(bounds: Rect, finite: bool, inverse: bool, op: ClipOp, ghost inside: Region)
      requires Valid() && forall p :: inside(p) ==> In(p, bounds)
      modifies this
      ensures Valid() && |layers| == old(|layers|) && Current().matrix == old(Current().matrix)
      ensures Init(layers) == old(Init(layers)) && Init(clips) == old(Init(clips))
      ensures finite ==> Clip() == Clipped(old(Clip()), WithoutPerspective(old(Current().matrix)), inside, inverse, op)
      ensures !finite ==> Clip() == old(Clip()) && layers == old(layers)
      ensures if finite && (op == Intersect) != inverse
              then forall q :: StrictlyIn(q, Current().clipBounds) <==>
                                 StrictlyIn(q, old(Current().clipBounds)) && StrictlyIn(q, MapRect(Current().matrix, bounds))
              else Current().clipBounds == old(Current().clipBounds)
    {
      if !finite {
        return;
      }
      ghost var rest := Clipped(Last(clips), WithoutPerspective(Last(layers).matrix), inside, inverse, op);
      if (op == Intersect) != inverse {
        StrictOverlap(Last(layers).clipBounds, MapRect(Last(layers).matrix, bounds));
        IntersectBounds(bounds, inside, rest);
      } else {
        SmallerRegion(Last(layers).clipBounds, Last(clips), rest);
        clips := Init(clips) + [rest];
      }
    }

    /** Local bounds of everything that can show. */
    method GetLocalClipBounds() returns (r: Rect)
      requires Valid()
      ensures Det(Current().matrix) == 0.0 ==> r == MAX_CULL_RECT
      ensures Det(Current().matrix) != 0.0 ==> forall p :: Interior(Clip(), Map(Current().matrix, p)) ==> In(p, r)
      ensures Det(Current().matrix) != 0.0 && Sorted(Current().clipBounds) ==>
                forall s :: HoldsLocally(s, Current().matrix, RoundOut(Current().clipBounds)) ==> Covers(s, r)
    {
      var top := layers[|layers| - 1];
      var inverse := Invert(top.matrix);
      if inverse == None {
        return MAX_CULL_RECT;
      }
      var deviceBounds := ToRect(RoundOut(top.clipBounds));
      r := MapRect(inverse.value, deviceBounds);
      RoundOutCovers(top.clipBounds);
      if Sorted(top.clipBounds) {
        forall s | HoldsLocally(s, top.matrix, RoundOut(top.clipBounds))
          ensures Covers(s, r)
        {
          LeastLocal(s, top.matrix, RoundOut(top.clipBounds));
        }
      }
      forall p | Interior(Clip(), Map(top.matrix, p))
        ensures In(p, r)
      {
        InverseMaps(top.matrix, p);
        MapRectContains(inverse.value, deviceBounds, Map(top.matrix, p));
      }
    }

    /** Whether nothing within local bounds can show. */
    method QuickReject(bounds: Rect) returns (rejected: bool)
      requires Valid()
      ensures rejected && Det(Current().matrix) != 0.0 ==>
                forall p :: StrictlyIn(p, bounds) ==> !Interior(Clip(), Map(Current().matrix, p))
      ensures !rejected ==> !IsEmpty(bounds) && Det(Current().matrix) != 0.0
      ensures !rejected ==> exists q :: StrictlyIn(q, Current().clipBounds) &&
                                        In(q, Outset(MapRect(Current().matrix, bounds), 1.0, 1.0))
    {
      if IsEmpty(bounds) {
        return true;
      }
      var top := layers[|layers| - 1];
      if Invert(top.matrix) == None {
        return true;
      }
      var deviceBounds := ToRect(RoundOut(MapRect(top.matrix, bounds)));
      rejected := IsEmpty(Overlap(top.clipBounds, deviceBounds));
      StrictOverlap(top.clipBounds, deviceBounds);
      if !rejected {
        ghost var q :| StrictlyIn(q, top.clipBounds) && StrictlyIn(q, deviceBounds);
        NearRounded(q, MapRect(top.matrix, bounds));
      }
      if rejected {
        forall p | StrictlyIn(p, bounds)
          ensures !Interior(Clip(), Map(top.matrix, p))
        {
          NothingShows(top.matrix, bounds, top.clipBounds, p);
        }
      }
    }
  }
}
