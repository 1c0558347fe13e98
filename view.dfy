/**
 * RoundedImageView itself: the mutable state that decides which mask the
 * view draws (corner flags, corner radius, reverse mask, path size, the
 * padding it saved) and the methods that keep the mask in step with it.
 *
 * The decisions the source writes as expressions (fixPadding's effect on
 * the padding, the circle test, the outline-provider choice, the outline
 * fallback) are pure functions with lemmas; the view is a class whose
 * methods update its fields and are proved against those functions.
 */
module View {
  import opened JvmInt
  import opened CornerMask
  import opened Graphics
  import opened Shapes

  /** Four paddings, in relative (start/end) terms. */
  datatype Padding = Padding(start: Int32, top: Int32, end: Int32, bottom: Int32)
  {
    predicate IsZero()
    {
      start == 0 && top == 0 && end == 0 && bottom == 0
    }
  }

  const NoPadding := Padding(0, 0, 0, 0)

  /** The view's own padding and the copy the view keeps in its `_padding*` fields. */
  datatype PaddingState = PaddingState(current: Padding, saved: Padding)

  /**
   * The effect of fixPadding, the nested call it makes through
   * setPaddingRelative included. Under the reverse mask a non-zero padding
   * is saved and zeroed; otherwise a padding that differs from the saved
   * one is saved and set again, unchanged.
   */
  function FixedPadding(reverseMask: bool, s: PaddingState): PaddingState
  {
    var p, q := s.current, s.saved;
    if reverseMask then
      if p.start != 0 || p.end != 0 || p.top != 0 || p.bottom != 0 then PaddingState(NoPadding, p)
      else s
    else
      if p.start != q.start || p.end != q.end || p.top != q.top || p.bottom != q.bottom then PaddingState(p, p)
      else s
  }

  /** What fixPadding leaves behind: no padding under the reverse mask, else the padding equals its saved copy. */
  predicate Settled(reverseMask: bool, s: PaddingState)
  {
    if reverseMask then s.current.IsZero() else s.current == s.saved
  }

  /**
   * fixPadding under the reverse mask zeroes the padding and, when there
   * was any, saves it; otherwise it keeps the padding and makes the saved
   * copy equal to it. Either way the result is settled.
   */
  lemma FixPaddingEffect(reverseMask: bool, s: PaddingState)
    ensures var r := FixedPadding(reverseMask, s);
      && Settled(reverseMask, r)
      && (reverseMask ==> r.current == NoPadding)
      && (reverseMask && !s.current.IsZero() ==> r.saved == s.current)
      && (reverseMask && s.current.IsZero() ==> r.saved == s.saved)
      && (!reverseMask ==> r.current == s.current && r.saved == s.current)
  {
  }

  /**
   * A settled padding is left alone, so the nested fixPadding reached
   * through setPaddingRelative does nothing, and fixPadding is idempotent.
   */
  lemma FixPaddingIdempotent(reverseMask: bool, s: PaddingState)
    ensures Settled(reverseMask, s) ==> FixedPadding(reverseMask, s) == s
    ensures FixedPadding(reverseMask, FixedPadding(reverseMask, s)) == FixedPadding(reverseMask, s)
  {
    var r := FixedPadding(reverseMask, s);
    FixPaddingEffect(reverseMask, s);
    assert Settled(reverseMask, r);
  }

  /**
   * Turning the reverse mask on and then off again loses a non-zero
   * padding: on saves it and zeroes the view's padding, off then saves the
   * zero padding over it and nothing restores the old value.
   */
  lemma ReverseMaskRoundTripLosesPadding(p: Padding)
    requires !p.IsZero()
    ensures var on := FixedPadding(true, PaddingState(p, p));
      && on == PaddingState(NoPadding, p)
      && FixedPadding(false, on) == PaddingState(NoPadding, NoPadding)
  {
  }

  /**
   * setupPath's circle test: all four corners rounded and the radius at
   * least half of each side, halves taken with Int division.
   */
  function IsCircleShape(c: Corners, cornerRadius: Int32, pathWidth: Int32, pathHeight: Int32): bool
  {
    c.All() && cornerRadius >= Half(pathHeight) && cornerRadius >= Half(pathWidth)
  }

  /**
   * The radius reaches half a side, with the halving rounded toward zero:
   * for a side of size n >= 0 that is 2 * radius + 1 >= n, for a negative
   * side 2 * radius >= n.
   */
  predicate ReachesHalf(radius: int, n: int)
  {
    if n >= 0 then 2 * radius + 1 >= n else 2 * radius >= n
  }

  /**
   * The shape is a circle exactly when every corner is rounded and the
   * radius reaches half of both sides; a single sharp corner rules it out.
   */
  lemma CircleClassification(c: Corners, cornerRadius: Int32, pathWidth: Int32, pathHeight: Int32)
    ensures IsCircleShape(c, cornerRadius, pathWidth, pathHeight)
        <==> c.All() && ReachesHalf(cornerRadius, pathWidth) && ReachesHalf(cornerRadius, pathHeight)
    ensures (exists k :: !c.Has(k)) ==> !IsCircleShape(c, cornerRadius, pathWidth, pathHeight)
  {
    HalfBound(cornerRadius, pathWidth);
    HalfBound(cornerRadius, pathHeight);
  }

  lemma HalfBound(radius: Int32, n: Int32)
    ensures radius >= Half(n) <==> ReachesHalf(radius, n)
  {
  }

  /**
   * Examples of the test: a 400 x 400 view with radius 200 is a circle,
   * and so is a 401-wide one since 401 / 2 is 200; radius 199 is not, and
   * neither is radius 40 with only the top corners rounded.
   */
  lemma CircleExamples()
    ensures IsCircleShape(Decode(ALL_ROUNDED_CORNERS_VALUE), 200, 400, 400)
    ensures IsCircleShape(Decode(ALL_ROUNDED_CORNERS_VALUE), 200, 401, 400)
    ensures !IsCircleShape(Decode(ALL_ROUNDED_CORNERS_VALUE), 199, 400, 400)
    ensures !IsCircleShape(Decode(TOP_LEFT + TOP_RIGHT), 40, 400, 400)
  {
    DecodeConstants(TopLeft);
    assert Decode(TOP_LEFT + TOP_RIGHT).bottomLeft == false by {
      assert ((TOP_LEFT + TOP_RIGHT) / BOTTOM_LEFT) % 2 == 0;
    }
  }

  /** The outline providers the view can hold; `Custom` stands for any provider of the host's own. */
  datatype Provider = NoProvider | Background | Circular | RoundedRectangle | Custom(id: nat)
  {
    /** The providers setOutlineProvider replaces by its own choice. */
    predicate IsBuiltIn()
    {
      Background? || Circular? || RoundedRectangle?
    }
  }

  /** setOutlineProvider's `when`: none under the reverse mask, else circular or rounded-rectangle. */
  function ChosenProvider(reverseMask: bool, isCircle: bool): Provider
  {
    if reverseMask then NoProvider
    else if isCircle then Circular
    else RoundedRectangle
  }

  /** The provider setOutlineProvider stores for a requested one. */
  function ResolveProvider(requested: Provider, reverseMask: bool, isCircle: bool): Provider
  {
    if requested.IsBuiltIn() then ChosenProvider(reverseMask, isCircle) else requested
  }

  /** setupPath's refresh: a built-in provider is re-requested as BACKGROUND; any other is kept. */
  function RefreshedProvider(current: Provider, reverseMask: bool, isCircle: bool): Provider
  {
    if current.IsBuiltIn() then ResolveProvider(Background, reverseMask, isCircle) else current
  }

  /**
   * For a built-in request the stored provider is none exactly under the
   * reverse mask, circular exactly for a circle without the reverse mask,
   * and rounded-rectangle exactly for anything else; BACKGROUND is never
   * stored, and any other request is stored as it is.
   */
  lemma ProviderChoice(requested: Provider, reverseMask: bool, isCircle: bool)
    ensures var p := ResolveProvider(requested, reverseMask, isCircle);
      && !p.Background?
      && (requested.IsBuiltIn() ==> (p == NoProvider <==> reverseMask))
      && (requested.IsBuiltIn() ==> (p == Circular <==> !reverseMask && isCircle))
      && (requested.IsBuiltIn() ==> (p == RoundedRectangle <==> !reverseMask && !isCircle))
      && (!requested.IsBuiltIn() ==> p == requested)
  {
  }

  /**
   * A refresh leaves a provider that matches the current state, and once
   * the reverse mask has cleared the provider no later refresh brings one
   * back, whatever the mask and shape become.
   */
  lemma ProviderRefresh(current: Provider, reverseMask: bool, isCircle: bool, laterMask: bool, laterCircle: bool)
    ensures var p := RefreshedProvider(current, reverseMask, isCircle);
      && !p.Background?
      && (p.IsBuiltIn() ==> p == ChosenProvider(reverseMask, isCircle))
      && (current.IsBuiltIn() && reverseMask ==> RefreshedProvider(p, laterMask, laterCircle) == NoProvider)
      && (!current.IsBuiltIn() ==> p == current)
  {
  }

  /** The outline a provider hands to the platform. */
  datatype Outline = ConvexPath(cmds: seq<Cmd>) | RoundRect(left: Int32, top: Int32, right: Int32, bottom: Int32, radius: real) | Empty

  /**
   * RoundedRectangleOutlineProvider.getOutline. Whether the platform
   * accepts the mask as a convex path is an input. When it does not, the
   * fallback is a uniform round rectangle if all four corners are rounded,
   * built from the saved start padding and the view's current top padding
   * with Int arithmetic, and an empty outline otherwise.
   */
  function RoundedRectangleOutline(convexAccepted: bool, cmds: seq<Cmd>, c: Corners, savedStart: Int32,
                                   paddingTop: Int32, pathWidth: Int32, pathHeight: Int32,
                                   cornerRadius: Int32): Outline
  {
    if convexAccepted then ConvexPath(cmds)
    else if c.topLeft && c.bottomLeft && c.bottomRight && c.topRight then
      RoundRect(savedStart, paddingTop, Plus(pathWidth, savedStart), Plus(paddingTop, pathHeight), cornerRadius as real)
    else Empty
  }

  /**
   * The fallback is a round rectangle exactly when the path is refused and
   * every corner is rounded, empty exactly when it is refused and some
   * corner is sharp. When the view's top padding is the saved one and the
   * sums stay in Int range, the round rectangle is the content box the mask
   * covers, with the view's corner radius.
   */
  lemma OutlineFallback(convexAccepted: bool, cmds: seq<Cmd>, c: Corners, savedStart: Int32,
                        paddingTop: Int32, pathWidth: Int32, pathHeight: Int32, cornerRadius: Int32)
    ensures var o := RoundedRectangleOutline(convexAccepted, cmds, c, savedStart, paddingTop,
                                             pathWidth, pathHeight, cornerRadius);
      && (o.ConvexPath? <==> convexAccepted)
      && (o.ConvexPath? ==> o.cmds == cmds)
      && (o.RoundRect? <==> !convexAccepted && c.All())
      && (o.Empty? <==> !convexAccepted && !c.All())
      && (o.RoundRect? && MIN_VALUE <= savedStart + pathWidth <= MAX_VALUE
            && MIN_VALUE <= paddingTop + pathHeight <= MAX_VALUE ==>
          o == RoundRect(savedStart, paddingTop, savedStart + pathWidth, paddingTop + pathHeight, cornerRadius as real))
  {
  }

  /** The view, reduced to the state that decides its mask and outline. */
  class RoundedImageView {
    /** Set once by init(); setupPath rebuilds it in place. */
    const path: Path
    var pathWidth: Int32
    var pathHeight: Int32
    var cornerRadius: Int32
    var isCircle: bool

    var roundedTopLeft: bool
    var roundedBottomLeft: bool
    var roundedTopRight: bool
    var roundedBottomRight: bool
    var reverseMask: bool

    /** The `_padding*` fields: the padding the view saved. */
    var saved: Padding
    /** The padding of the underlying Android view. */
    var padding: Padding
    var outlineProvider: Provider

    function RoundedCorners(): Corners
      reads this`roundedTopLeft, this`roundedTopRight, this`roundedBottomLeft, this`roundedBottomRight
    {
      Corners(roundedTopLeft, roundedTopRight, roundedBottomLeft, roundedBottomRight)
    }

    function Paddings(): PaddingState
      reads this
    {
      PaddingState(padding, saved)
    }

    /**
     * What holds between calls: isCircle is the circle test on the current
     * fields, the stored provider is never BACKGROUND and a built-in one is
     * the one the state calls for, and the padding is settled.
     */
    ghost predicate Valid()
      reads this
    {
      && isCircle == IsCircleShape(RoundedCorners(), cornerRadius, pathWidth, pathHeight)
      && !outlineProvider.Background?
      && (outlineProvider.IsBuiltIn() ==> outlineProvider == ChosenProvider(reverseMask, isCircle))
      && Settled(reverseMask, Paddings())
    }

    /**
     * The path holds the mask setupPath builds for the current state: a
     * circle centred in the content box when isCircle, else roundedRect's
     * outline of the content box, which starts at the saved start and top
     * paddings, is pathWidth by pathHeight and uses the corner radius for
     * rx and ry; the fill type is the one for the mask mode.
     */
    ghost predicate PathInSync()
      reads this`isCircle, this`saved, this`pathWidth, this`pathHeight, this`cornerRadius
      reads this`roundedTopLeft, this`roundedTopRight, this`roundedBottomLeft, this`roundedBottomRight
      reads this`reverseMask, path
    {
      var left, top := saved.start as real, saved.top as real;
      && (isCircle ==>
            path.cmds == CircleCmds(left + pathWidth as real / 2.0, top + pathHeight as real / 2.0,
                                    pathWidth, pathHeight))
      && (!isCircle ==>
            path.cmds == RoundedRectCmds(left, top, left + pathWidth as real, top + pathHeight as real,
                                         cornerRadius as real, cornerRadius as real, RoundedCorners()))
      && path.fillType == FillFor(reverseMask)
    }

    /** `RoundedImageView(context)`: defaults, then setupPath. */
    constructor Plain()
      ensures Valid() && PathInSync()
      ensures fresh(path)
      ensures RoundedCorners() == NoCorners && cornerRadius == 0 && !reverseMask
      ensures pathWidth == 0 && pathHeight == 0 && Paddings() == PaddingState(NoPadding, NoPadding)
      ensures outlineProvider == RoundedRectangle
    {
      path := new Path();
      pathWidth, pathHeight, cornerRadius, isCircle := 0, 0, 0, false;
      roundedTopLeft, roundedBottomLeft, roundedTopRight, roundedBottomRight := false, false, false, false;
      reverseMask := false;
      saved, padding := NoPadding, NoPadding;
      outlineProvider := Background;
      new;
      SetupPath();
    }

    /**
     * `RoundedImageView(context, attrs)`: the reverse mask, the corner
     * radius and the corner bitmask come from the attributes and the
     * padding from the view's own attributes; then fixPadding and
     * setupPath.
     */
    constructor FromAttributes(radiusAttr: Int32, roundedCornersAttr: Int32, reverseMaskAttr: bool,
                               initialPadding: Padding)
      ensures Valid() && PathInSync()
      ensures fresh(path)
      ensures cornerRadius == radiusAttr && RoundedCorners() == Decode(roundedCornersAttr)
      ensures reverseMask == reverseMaskAttr
      ensures Paddings() == FixedPadding(reverseMaskAttr, PaddingState(initialPadding, NoPadding))
    {
      path := new Path();
      pathWidth, pathHeight, cornerRadius, isCircle := 0, 0, 0, false;
      roundedTopLeft, roundedBottomLeft, roundedTopRight, roundedBottomRight := false, false, false, false;
      reverseMask := reverseMaskAttr;
      saved, padding := NoPadding, initialPadding;
      outlineProvider := Background;
      new;
      var _ := SetCornerRadiusInternal(radiusAttr);
      SetRoundedCornersInternal(roundedCornersAttr);
      assert cornerRadius == radiusAttr;
      FixPadding();
      assert cornerRadius == radiusAttr && RoundedCorners() == Decode(roundedCornersAttr);
      SetupPath();
    }

    /** copyPadding: save the view's padding. */
    method CopyPadding()
      modifies this`saved
      ensures saved == padding
    {
      saved := padding;
    }

    /**
     * fixPadding. Where it calls setPaddingRelative, the override's own
     * fixPadding runs on a settled padding and changes nothing.
     */
    method FixPadding()
      modifies this`saved, this`padding
      ensures Paddings() == FixedPadding(reverseMask, old(Paddings()))
      ensures Settled(reverseMask, Paddings())
    {
      if reverseMask {
        if padding.start != 0 || padding.end != 0 || padding.top != 0 || padding.bottom != 0 {
          CopyPadding();
          padding := Padding(0, 0, 0, 0);
          assert FixedPadding(reverseMask, Paddings()) == Paddings();
        }
      } else {
        if padding.start != saved.start || padding.end != saved.end
          || padding.top != saved.top || padding.bottom != saved.bottom {
          CopyPadding();
          padding := Padding(saved.start, saved.top, saved.end, saved.bottom);
          assert FixedPadding(reverseMask, Paddings()) == Paddings();
        }
      }
    }

    /** setPaddingRelative: set the view's padding, then fixPadding. The mask is not rebuilt. */
    method SetPaddingRelative(start: Int32, top: Int32, end: Int32, bottom: Int32)
      requires Valid()
      modifies this`saved, this`padding
      ensures Valid()
      ensures Paddings() == FixedPadding(reverseMask, PaddingState(Padding(start, top, end, bottom), old(saved)))
    {
      padding := Padding(start, top, end, bottom);
      FixPadding();
    }

    /** setPadding, for a left-to-right layout where left is start and right is end. */
    method SetPadding(left: Int32, top: Int32, right: Int32, bottom: Int32)
      requires Valid()
      modifies this`saved, this`padding
      ensures Valid()
      ensures Paddings() == FixedPadding(reverseMask, PaddingState(Padding(left, top, right, bottom), old(saved)))
    {
      padding := Padding(left, top, right, bottom);
      FixPadding();
    }

    /**
     * setupPath: run the circle test, build the circle or the rounded
     * rectangle into the same path, and refresh a built-in outline
     * provider. Both builders hand back the path they were given, so the
     * source's `path = ...` assignment keeps the same object.
     */
    method SetupPath()
      modifies this`isCircle, this`outlineProvider, path
      ensures isCircle == IsCircleShape(RoundedCorners(), cornerRadius, pathWidth, pathHeight)
      ensures PathInSync()
      ensures outlineProvider == RefreshedProvider(old(outlineProvider), reverseMask, isCircle)
      ensures RoundedCorners() == old(RoundedCorners()) && Paddings() == old(Paddings())
    {
      if roundedTopLeft && roundedTopRight && roundedBottomRight && roundedBottomLeft
        && (cornerRadius >= Half(pathHeight) && cornerRadius >= Half(pathWidth)) {
        BuildCircle();
        assert PathInSync();
      } else {
        BuildRoundedRect();
        assert PathInSync();
      }
      if outlineProvider == Background || outlineProvider == Circular || outlineProvider == RoundedRectangle {
        SetOutlineProvider(Background);
      }
    }

    /** setupPath's circle branch: set isCircle and run circlePath about the centre of the padded area. */
    method BuildCircle()
      modifies this`isCircle, path
      ensures isCircle
      ensures path.cmds == CircleCmds(saved.start as real + pathWidth as real / 2.0,
                                      saved.top as real + pathHeight as real / 2.0, pathWidth, pathHeight)
      ensures path.fillType == FillFor(reverseMask)
      ensures RoundedCorners() == old(RoundedCorners()) && Paddings() == old(Paddings())
    {
      isCircle := true;
      var _ := CirclePath(path, saved.start as real + pathWidth as real / 2.0,
                          saved.top as real + pathHeight as real / 2.0, pathWidth, pathHeight, reverseMask);
    }

    /**
     * setupPath's other branch: clear isCircle and run roundedRect over the
     * padded area with the corner radius for rx and ry.
     */
    method BuildRoundedRect()
      modifies this`isCircle, path
      ensures !isCircle
      ensures path.cmds == RoundedRectCmds(saved.start as real, saved.top as real,
                                           saved.start as real + pathWidth as real,
                                           saved.top as real + pathHeight as real,
                                           cornerRadius as real, cornerRadius as real, RoundedCorners())
      ensures path.fillType == FillFor(reverseMask)
      ensures RoundedCorners() == old(RoundedCorners()) && Paddings() == old(Paddings())
    {
      isCircle := false;
      var _ := RoundedRect(path, saved.start as real, saved.top as real,
                           saved.start as real + pathWidth as real, saved.top as real + pathHeight as real,
                           cornerRadius as real, cornerRadius as real,
                           roundedTopLeft, roundedTopRight, roundedBottomRight, roundedBottomLeft,
                           reverseMask);
    }

    /** setOutlineProvider: a built-in request is replaced by the view's own choice; the mask is left alone. */
    method SetOutlineProvider(provider: Provider)
      modifies this`outlineProvider
      ensures outlineProvider == ResolveProvider(provider, reverseMask, isCircle)
      ensures RoundedCorners() == old(RoundedCorners()) && Paddings() == old(Paddings())
      ensures old(PathInSync()) ==> PathInSync()
    {
      var chosen: Provider;
      if provider == Background || provider == Circular || provider == RoundedRectangle {
        if reverseMask {
          chosen := NoProvider;
        } else if isCircle {
          chosen := Circular;
        } else {
          chosen := RoundedRectangle;
        }
      } else {
        chosen := provider;
      }
      outlineProvider := chosen;
    }

    /**
     * onSizeChanged: the path size is the new size less the saved paddings
     * (Int arithmetic); the mask is rebuilt only when that size changed.
     */
    method OnSizeChanged(newWidth: Int32, newHeight: Int32, oldWidth: Int32, oldHeight: Int32)
      requires Valid()
      modifies this`pathWidth, this`pathHeight, this`isCircle, this`outlineProvider, path
      ensures Valid()
      ensures pathWidth == Minus(newWidth, Plus(saved.start, saved.end))
      ensures pathHeight == Minus(newHeight, Plus(saved.top, saved.bottom))
      ensures old(pathWidth) != pathWidth || old(pathHeight) != pathHeight ==>
        PathInSync() && outlineProvider == RefreshedProvider(old(outlineProvider), reverseMask, isCircle)
      ensures old(pathWidth) == pathWidth && old(pathHeight) == pathHeight ==>
        isCircle == old(isCircle) && outlineProvider == old(outlineProvider) && unchanged(path)
    {
      var newPathWidth := Minus(newWidth, Plus(saved.start, saved.end));
      var newPathHeight := Minus(newHeight, Plus(saved.top, saved.bottom));
      if pathWidth != newPathWidth || pathHeight != newPathHeight {
        pathWidth := newPathWidth;
        pathHeight := newPathHeight;
        SetupPath();
      }
    }

    /** setCornerRadiusInternal: store the radius and tell whether it changed. */
    method SetCornerRadiusInternal(radius: Int32) returns (changed: bool)
      modifies this`cornerRadius
      ensures changed <==> old(cornerRadius) != radius
      ensures cornerRadius == radius
    {
      if cornerRadius != radius {
        cornerRadius := radius;
        return true;
      }
      return false;
    }

    /** setCornerRadius: rebuild the mask only when the radius changed. */
    method SetCornerRadius(radius: Int32)
      requires Valid()
      modifies this`cornerRadius, this`isCircle, this`outlineProvider, path
      ensures Valid()
      ensures cornerRadius == radius
      ensures old(cornerRadius) != radius ==>
        PathInSync() && outlineProvider == RefreshedProvider(old(outlineProvider), reverseMask, isCircle)
      ensures old(cornerRadius) == radius ==>
        isCircle == old(isCircle) && outlineProvider == old(outlineProvider) && unchanged(path)
    {
      var changed := SetCornerRadiusInternal(radius);
      if changed {
        SetupPath();
      }
    }

    /**
     * setReverseMask: on a change, store the flag, fix the padding for the
     * new mode and rebuild the mask.
     */
    method SetReverseMask(mask: bool)
      requires Valid()
      modifies this`reverseMask, this`saved, this`padding, this`isCircle, this`outlineProvider, path
      ensures Valid()
      ensures reverseMask == mask
      ensures old(reverseMask) != mask ==>
        PathInSync() && Paddings() == FixedPadding(mask, old(Paddings()))
        && outlineProvider == RefreshedProvider(old(outlineProvider), mask, isCircle)
      ensures old(reverseMask) == mask ==>
        Paddings() == old(Paddings()) && isCircle == old(isCircle)
        && outlineProvider == old(outlineProvider) && unchanged(path)
    {
      if reverseMask != mask {
        reverseMask := mask;
        FixPadding();
        SetupPath();
      }
    }

    /**
     * setRoundCorners: take the corners in the set; rebuild the mask only
     * when a flag changed. The source compares the four flags one by one
     * with the set's answers, which is comparing the two records.
     */
    method SetRoundCorners(corners: set<Corner>)
      requires Valid()
      modifies this`roundedTopLeft, this`roundedTopRight, this`roundedBottomLeft, this`roundedBottomRight
      modifies this`isCircle, this`outlineProvider, path
      ensures Valid()
      ensures RoundedCorners() == FromSet(corners)
      ensures old(RoundedCorners()) != FromSet(corners) ==>
        PathInSync() && outlineProvider == RefreshedProvider(old(outlineProvider), reverseMask, isCircle)
      ensures old(RoundedCorners()) == FromSet(corners) ==>
        isCircle == old(isCircle) && outlineProvider == old(outlineProvider) && unchanged(path)
    {
      var wanted := FromSet(corners);
      if RoundedCorners() != wanted {
        roundedBottomLeft := wanted.bottomLeft;
        roundedBottomRight := wanted.bottomRight;
        roundedTopLeft := wanted.topLeft;
        roundedTopRight := wanted.topRight;
        SetupPath();
      }
    }

    /** setRoundedCornersInternal: decode the bitmask into the four flags. */
    method SetRoundedCornersInternal(roundedCorners: Int32)
      modifies this`roundedTopLeft, this`roundedTopRight, this`roundedBottomLeft, this`roundedBottomRight
      ensures RoundedCorners() == Decode(roundedCorners)
    {
      roundedTopLeft := TOP_LEFT == And(roundedCorners, TOP_LEFT);
      roundedTopRight := TOP_RIGHT == And(roundedCorners, TOP_RIGHT);
      roundedBottomLeft := BOTTOM_LEFT == And(roundedCorners, BOTTOM_LEFT);
      roundedBottomRight := BOTTOM_RIGHT == And(roundedCorners, BOTTOM_RIGHT);
    }

    /** setRoundedCorners: decode the bitmask and always rebuild the mask. */
    method SetRoundedCorners(roundedCorners: Int32)
      requires Valid()
      modifies this`roundedTopLeft, this`roundedTopRight, this`roundedBottomLeft, this`roundedBottomRight
      modifies this`isCircle, this`outlineProvider, path
      ensures Valid() && PathInSync()
      ensures RoundedCorners() == Decode(roundedCorners)
      ensures outlineProvider == RefreshedProvider(old(outlineProvider), reverseMask, isCircle)
    {
      SetRoundedCornersInternal(roundedCorners);
      SetupPath();
    }

    /**
     * The rounded-rectangle provider's getOutline for this view. While that
     * provider is installed the reverse mask is off, so the view's top
     * padding is the saved one and the fallback round rectangle is the box
     * the mask covers.
     */
    method RoundedRectangleGetOutline(convexAccepted: bool) returns (o: Outline)
      requires Valid() && outlineProvider == RoundedRectangle
      ensures o == RoundedRectangleOutline(convexAccepted, path.cmds, RoundedCorners(), saved.start,
                                           padding.top, pathWidth, pathHeight, cornerRadius)
      ensures o.RoundRect? ==> o.top == saved.top && o.left == saved.start
    {
      if convexAccepted {
        o := ConvexPath(path.cmds);
      } else if roundedTopLeft && roundedBottomLeft && roundedBottomRight && roundedTopRight {
        o := RoundRect(saved.start, padding.top, Plus(pathWidth, saved.start), Plus(padding.top, pathHeight),
                       cornerRadius as real);
      } else {
        o := Empty;
      }
    }
  }
}
