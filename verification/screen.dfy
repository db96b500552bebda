/**
 * The `screen-controls` component: aspect ratio, curvature and distance of
 * the virtual screen. The next value of each is computed purely from the
 * component data; `update` then rewrites the attributes of the screen
 * elements whose source data changed.
 */
module ScreenControls {
  import opened Wrappers

  /** Width and height of the flat screen for one aspect ratio. */
  datatype Dims = Dims(width: real, height: real)

  /** `this.aspectRatios` */
  const AspectRatios: map<string, Dims> := map["16:9" := Dims(3.2, 1.8), "21:9" := Dims(3.78, 1.62), "32:9" := Dims(5.76, 1.62)]

  /** `Object.keys(this.aspectRatios)`, in insertion order. */
  const RatioNames: seq<string> := ["16:9", "21:9", "32:9"]

  /** The nearest and farthest screen distances `adjustDistance` allows. */
  const MinDistance: real := 1.5
  const MaxDistance: real := 6.0

  /** `xs.indexOf(x)`: the first position of `x`, or -1. */
  function IndexOf(xs: seq<string>, x: string): (i: int)
    ensures -1 <= i < |xs|
    ensures i == -1 <==> x !in xs
    ensures i >= 0 ==> xs[i] == x && forall j :: 0 <= j < i ==> xs[j] != x
    decreases |xs|
  {
    if xs == [] then -1
    else if xs[0] == x then 0
    else
      var i := IndexOf(xs[1..], x);
      if i == -1 then -1 else i + 1
  }

  /**
   * `cycleAspectRatio`: the ratio after `current` in the table, wrapping
   * from the last to the first; a ratio not in the table (index -1) cycles
   * to the first, 16:9.
   */
  function NextRatio(current: string): (next: string)
    ensures next in RatioNames && next in AspectRatios
    ensures current !in RatioNames ==> next == "16:9"
    ensures current in RatioNames ==> IndexOf(RatioNames, next) == (IndexOf(RatioNames, current) + 1) % |RatioNames|
  {
    var i := IndexOf(RatioNames, current);
    RatioNames[(i + 1) % |RatioNames|]
  }

  /** The cycle is 16:9, 21:9, 32:9 and back, so three steps return to the start. */
  lemma {:induction false} CycleOfThree(ratio: string)
    requires ratio in RatioNames
    ensures NextRatio("16:9") == "21:9" && NextRatio("21:9") == "32:9" && NextRatio("32:9") == "16:9"
    ensures NextRatio(NextRatio(NextRatio(ratio))) == ratio
  {
    assert RatioNames[0] == "16:9" && RatioNames[1] == "21:9" && RatioNames[2] == "32:9";
  }

  /** `Math.max(1.5, Math.min(6, distance + delta))` */
  function ClampDistance(distance: real, delta: real): (d: real)
    ensures MinDistance <= d <= MaxDistance
    ensures MinDistance <= distance + delta <= MaxDistance ==> d == distance + delta
    ensures distance + delta < MinDistance ==> d == MinDistance
    ensures distance + delta > MaxDistance ==> d == MaxDistance
  {
    var upper := if MaxDistance < distance + delta then MaxDistance else distance + delta;
    if MinDistance < upper then upper else MinDistance
  }

  /** The schema data of the component. */
  datatype Data = Data(aspectRatio: string, distance: real, curved: bool)

  /** A plane entity (`#flat-screen`, `#screen-frame`): the attributes the component sets. */
  datatype Plane = Plane(visible: bool, width: real, height: real)

  /** The `#curved-screen` cylinder: its visibility and its geometry height. */
  datatype Cylinder = Cylinder(visible: bool, height: real)

  /** The padding `updateScreenSize` adds around the flat screen for its frame. */
  const FramePadding: real := 0.1

  class ScreenComponent {
    var data: Data
    /** Child elements; None when `querySelector` finds none. */
    var flatScreen: Option<Plane>
    var curvedScreen: Option<Cylinder>
    var screenFrame: Option<Plane>
    /** The z coordinate of the entity's `position` attribute. */
    var positionZ: real

    /** Flat screen and frame are visible exactly when not curved, the cylinder exactly when curved. */
    ghost predicate VisibilityMatches()
      reads this
    {
      && (flatScreen.Some? ==> flatScreen.value.visible == !data.curved)
      && (curvedScreen.Some? ==> curvedScreen.value.visible == data.curved)
      && (screenFrame.Some? ==> screenFrame.value.visible == !data.curved)
    }

    /** Every present element has the size of `dims`. */
    ghost predicate SizedTo(dims: Dims)
      reads this
    {
      && (flatScreen.Some? ==> flatScreen.value.width == dims.width && flatScreen.value.height == dims.height)
      && (curvedScreen.Some? ==> curvedScreen.value.height == dims.height)
      && (screenFrame.Some? ==> screenFrame.value.width == dims.width + FramePadding
                                && screenFrame.value.height == dims.height + FramePadding)
    }

    /** The sizes of the elements, without their visibility. */
    ghost function Sizes(): (sizes: (Option<(real, real)>, Option<real>, Option<(real, real)>))
      reads this
    {
      (if flatScreen.Some? then Some((flatScreen.value.width, flatScreen.value.height)) else None,
       if curvedScreen.Some? then Some(curvedScreen.value.height) else None,
       if screenFrame.Some? then Some((screenFrame.value.width, screenFrame.value.height)) else None)
    }

    /** The visibility of the elements. */
    ghost function Visibility(): (shown: (Option<bool>, Option<bool>, Option<bool>))
      reads this
    {
      (if flatScreen.Some? then Some(flatScreen.value.visible) else None,
       if curvedScreen.Some? then Some(curvedScreen.value.visible) else None,
       if screenFrame.Some? then Some(screenFrame.value.visible) else None)
    }

    /** The scene agrees with the data once every change has gone through `update`. */
    ghost predicate Valid()
      reads this
    {
      && VisibilityMatches()
      && positionZ == -data.distance
      && (data.aspectRatio in AspectRatios ==> SizedTo(AspectRatios[data.aspectRatio]))
    }

    /**
     * The component attached with `initial` data over the given elements.
     * A-Frame's first `update` sees empty old data, so every branch runs.
     */
    constructor (initial: Data, flat: Option<Plane>, curved: Option<Cylinder>, frame: Option<Plane>)
      ensures Valid() && data == initial
      ensures flatScreen.Some? == flat.Some? && curvedScreen.Some? == curved.Some? && screenFrame.Some? == frame.Some?
    {
      data := initial;
      flatScreen := flat;
      curvedScreen := curved;
      screenFrame := frame;
      positionZ := 0.0;
      new;
      UpdateScreenSize();
      positionZ := -data.distance;
      SetVisibility();
    }

    /**
     * `updateScreenSize`: with a ratio missing from the table nothing
     * changes; otherwise every present element takes that ratio's size.
     */
    method UpdateScreenSize()
      modifies this
      ensures data == old(data) && positionZ == old(positionZ) && Visibility() == old(Visibility())
      ensures flatScreen.Some? == old(flatScreen).Some? && curvedScreen.Some? == old(curvedScreen).Some?
      ensures screenFrame.Some? == old(screenFrame).Some?
      ensures data.aspectRatio !in AspectRatios ==> unchanged(this)
      ensures data.aspectRatio in AspectRatios ==> SizedTo(AspectRatios[data.aspectRatio])
    {
      if data.aspectRatio !in AspectRatios {
        return;
      }
      var dims := AspectRatios[data.aspectRatio];
      if flatScreen.Some? {
        flatScreen := Some(flatScreen.value.(width := dims.width, height := dims.height));
      }
      if curvedScreen.Some? {
        curvedScreen := Some(curvedScreen.value.(height := dims.height));
      }
      if screenFrame.Some? {
        screenFrame := Some(screenFrame.value.(width := dims.width + FramePadding, height := dims.height + FramePadding));
      }
    }

    /** The curved-state branch of `update`: each present element's visibility follows `curved`. */
    method SetVisibility()
      modifies this
      ensures VisibilityMatches()
      ensures data == old(data) && positionZ == old(positionZ) && Sizes() == old(Sizes())
      ensures flatScreen.Some? == old(flatScreen).Some? && curvedScreen.Some? == old(curvedScreen).Some?
      ensures screenFrame.Some? == old(screenFrame).Some?
    {
      if flatScreen.Some? {
        flatScreen := Some(flatScreen.value.(visible := !data.curved));
      }
      if curvedScreen.Some? {
        curvedScreen := Some(curvedScreen.value.(visible := data.curved));
      }
      if screenFrame.Some? {
        screenFrame := Some(screenFrame.value.(visible := !data.curved));
      }
    }

    /**
     * `update(oldData)`: each branch runs only when its field differs from
     * `oldData`; an unchanged field leaves its attributes as they were.
     */
    method Update(oldData: Data)
      modifies this
      ensures data == old(data)
      ensures flatScreen.Some? == old(flatScreen).Some? && curvedScreen.Some? == old(curvedScreen).Some?
      ensures screenFrame.Some? == old(screenFrame).Some?
      ensures oldData.aspectRatio != data.aspectRatio && data.aspectRatio in AspectRatios ==> SizedTo(AspectRatios[data.aspectRatio])
      ensures oldData.aspectRatio == data.aspectRatio || data.aspectRatio !in AspectRatios ==> Sizes() == old(Sizes())
      ensures positionZ == if oldData.distance != data.distance then -data.distance else old(positionZ)
      ensures oldData.curved != data.curved ==> VisibilityMatches()
      ensures oldData.curved == data.curved ==> Visibility() == old(Visibility())
    {
      if oldData.aspectRatio != data.aspectRatio {
        UpdateScreenSize();
      }
      if oldData.distance != data.distance {
        positionZ := -data.distance;
      }
      if oldData.curved != data.curved {
        SetVisibility();
      }
    }

    /** `el.setAttribute('screen-controls', ...)`: new data, then `update` with the old. */
    method SetData(next: Data)
      requires Valid()
      modifies this
      ensures Valid() && data == next
      ensures flatScreen.Some? == old(flatScreen).Some? && curvedScreen.Some? == old(curvedScreen).Some?
      ensures screenFrame.Some? == old(screenFrame).Some?
      ensures next.curved == old(data).curved ==> Visibility() == old(Visibility())
      ensures next.aspectRatio !in AspectRatios ==> Sizes() == old(Sizes())
    {
      var oldData := data;
      data := next;
      Update(oldData);
    }

    /** `cycleAspectRatio` */
    method CycleAspectRatio()
      requires Valid()
      modifies this
      ensures Valid()
      ensures data == old(data).(aspectRatio := NextRatio(old(data).aspectRatio))
      ensures SizedTo(AspectRatios[data.aspectRatio]) && Visibility() == old(Visibility())
    {
      SetData(data.(aspectRatio := NextRatio(data.aspectRatio)));
    }

    /** `toggleCurved`: `curved` is negated, so two toggles restore it. */
    method ToggleCurved()
      requires Valid()
      modifies this
      ensures Valid()
      ensures data == old(data).(curved := !old(data).curved)
      ensures Sizes() == old(Sizes()) && positionZ == old(positionZ)
    {
      SetData(data.(curved := !data.curved));
    }

    /**
     * The scene's `triggerdown` listener: the right hand cycles the aspect
     * ratio, the left toggles curvature, any other hand does nothing.
     */
    method OnTriggerDown(hand: string)
      requires Valid()
      modifies this
      ensures Valid()
      ensures hand == "right" ==> data == old(data).(aspectRatio := NextRatio(old(data).aspectRatio))
      ensures hand == "left" ==> data == old(data).(curved := !old(data).curved)
      ensures hand != "right" && hand != "left" ==> unchanged(this)
    {
      if hand == "right" {
        CycleAspectRatio();
      } else if hand == "left" {
        ToggleCurved();
      }
    }

    /**
     * The scene's `thumbstickmoved` listener: a deflection beyond 0.5 either
     * way moves the screen 0.1 farther for positive y or 0.1 nearer for
     * negative y, within the clamp.
     */
    method OnThumbstickMoved(y: real)
      requires Valid()
      modifies this
      ensures Valid()
      ensures (y > 0.5 || y < -0.5) ==>
        data == old(data).(distance := ClampDistance(old(data).distance, if y > 0.0 then 0.1 else -0.1))
      ensures -0.5 <= y <= 0.5 ==> unchanged(this)
    {
      if y > 0.5 || y < -0.5 {
        AdjustDistance(if y > 0.0 then 0.1 else -0.1);
      }
    }

    /** `adjustDistance`: the distance moves by `delta`, clamped to [1.5, 6]. */
    method AdjustDistance(delta: real)
      requires Valid()
      modifies this
      ensures Valid()
      ensures data == old(data).(distance := ClampDistance(old(data).distance, delta))
      ensures MinDistance <= data.distance <= MaxDistance && positionZ == -data.distance
      ensures Sizes() == old(Sizes()) && Visibility() == old(Visibility())
    {
      SetData(data.(distance := ClampDistance(data.distance, delta)));
    }
  }
}
