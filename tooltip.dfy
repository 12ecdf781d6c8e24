/** The `show` flag of the design system's tooltip
    (packages/dyson/src/components/atoms/tooltip/Tooltip.tsx) and the events
    that change it. Whether an event's target lies inside the reference
    element or the tooltip box is given as booleans; positioning, portals and
    listener registration are not part of this model. The tooltip box is
    rendered exactly while `show` holds. */
module Tooltip {
  import opened Wrappers

  /** The `type` prop: "hover", "click", or not given. */
  datatype TooltipType = Hover | Click

  /** The props that decide how `show` changes. `autoHide` is `None` when the
      prop is not given, and then defaults to the (truthy) string "true". */
  datatype Config = Config(tipType: Option<TooltipType>, autoHide: Option<bool>)

  /** `if (autoHide)`. */
  predicate AutoHideTruthy(cfg: Config) {
    cfg.autoHide != Some(false)
  }

  /** Hover behaviour only for type "hover"; any other type, given or not,
      gets click behaviour. */
  predicate HoverMode(cfg: Config) {
    cfg.tipType == Some(Hover)
  }

  /** The window click listener is installed only for type "click" and an
      `autoHide` that is not literally `false`. */
  predicate OutsideClickHiderActive(cfg: Config): (r: bool)
    ensures r ==> !HoverMode(cfg) && AutoHideTruthy(cfg)
    ensures cfg.tipType.None? ==> !r
  {
    cfg.tipType == Some(Click) && cfg.autoHide != Some(false)
  }

  datatype Event =
    | MouseOver
    | MouseLeave(intoTooltip: bool)                 // target inside, or equal to, the tooltip box
    | ReferenceClick
    | WindowClick(inReference: bool, inTooltip: bool)

  /** The value of `show` after one event. */
  function Step(cfg: Config, show: bool, e: Event): (r: bool)
    ensures e == MouseOver && HoverMode(cfg) ==> r
    ensures e == ReferenceClick && !HoverMode(cfg) ==> r
    ensures e.MouseLeave? && e.intoTooltip ==> r == show
    ensures e.MouseLeave? && !e.intoTooltip && HoverMode(cfg) ==> r == (show && !AutoHideTruthy(cfg))
    ensures e.WindowClick? ==> r == (show && !(OutsideClickHiderActive(cfg) && !(e.inReference && e.inTooltip)))
    ensures !show && r ==> e == MouseOver || e == ReferenceClick
    ensures (e == MouseOver || e.MouseLeave?) && !HoverMode(cfg) ==> r == show
    ensures e == ReferenceClick && HoverMode(cfg) ==> r == show
  {
    match e
    case MouseOver => if HoverMode(cfg) then true else show
    case MouseLeave(intoTooltip) =>
      if HoverMode(cfg) && !intoTooltip && AutoHideTruthy(cfg) then false else show
    case ReferenceClick => if !HoverMode(cfg) then true else show
    case WindowClick(inReference, inTooltip) =>
      if OutsideClickHiderActive(cfg) && !(inReference && inTooltip) then false else show
  }

  function Run(cfg: Config, show: bool, events: seq<Event>): bool
    decreases |events|
  {
    if events == [] then show else Run(cfg, Step(cfg, show, events[0]), events[1..])
  }

  /** A tooltip without a type opens on click, but no event ever hides it:
      the outside-click listener is installed only for type "click". */
  lemma {:induction false} UntypedTooltipStaysOpen(autoHide: Option<bool>, events: seq<Event>)
    ensures Run(Config(None, autoHide), true, events)
    decreases |events|
  {
    if events != [] {
      UntypedTooltipStaysOpen(autoHide, events[1..]);
    }
  }

  /** With `autoHide` false, once shown the tooltip stays shown. */
  lemma {:induction false} NoAutoHideStaysOpen(tipType: Option<TooltipType>, events: seq<Event>)
    ensures Run(Config(tipType, Some(false)), true, events)
    decreases |events|
  {
    if events != [] {
      NoAutoHideStaysOpen(tipType, events[1..]);
    }
  }

  /** A hidden tooltip stays hidden until a mouse-over (hover mode) or a
      click on the reference (click mode). */
  lemma {:induction false} HiddenUntilOpened(cfg: Config, events: seq<Event>)
    requires forall i :: 0 <= i < |events| ==> events[i] != MouseOver && events[i] != ReferenceClick
    ensures !Run(cfg, false, events)
    decreases |events|
  {
    if events != [] {
      HiddenUntilOpened(cfg, events[1..]);
    }
  }

  /** A click on the reference reaches the window's capturing listener
      first, then the reference's own handler: in click mode the tooltip is
      shown afterwards whatever the listener did. */
  lemma ClickOnReferenceShows(cfg: Config, show: bool, inTooltip: bool)
    requires !HoverMode(cfg)
    ensures Run(cfg, show, [WindowClick(true, inTooltip), ReferenceClick])
  {
  }

  /** The tooltip component's state. */
  class TooltipState {
    const cfg: Config
    var show: bool

    constructor (cfg: Config)
      ensures this.cfg == cfg && !show
    {
      this.cfg := cfg;
      show := false;
    }

    /** `onMouseOver`, attached in hover mode only. */
    method OnMouseOver()
      modifies this`show
      ensures show == Step(cfg, old(show), MouseOver)
    {
      if HoverMode(cfg) {
        show := true;
      }
    }

    /** `onMouseLeave`, attached in hover mode only: leaving into the
        tooltip keeps it; leaving elsewhere hides it when `autoHide` is truthy. */
    method OnMouseLeave(intoTooltip: bool)
      modifies this`show
      ensures show == Step(cfg, old(show), MouseLeave(intoTooltip))
    {
      if HoverMode(cfg) {
        if intoTooltip {
          return;
        }
        if AutoHideTruthy(cfg) {
          show := false;
        }
      }
    }

    /** `onClick` on the reference, attached when not in hover mode. */
    method OnReferenceClick()
      modifies this`show
      ensures show == Step(cfg, old(show), ReferenceClick)
    {
      if !HoverMode(cfg) {
        show := true;
      }
    }

    /** The window's capturing click listener: hides the tooltip unless the
        target is inside both the reference and the tooltip. */
    method OnWindowClick(inReference: bool, inTooltip: bool)
      modifies this`show
      ensures show == Step(cfg, old(show), WindowClick(inReference, inTooltip))
    {
      if !OutsideClickHiderActive(cfg) {
        return;
      }
      var isChildrenClick := inReference;
      var isTooltipClick := inTooltip;
      if !isChildrenClick || !isTooltipClick {
        show := false;
      }
    }
  }
}
