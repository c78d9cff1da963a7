// The watermark overlay: a text view added to the window manager on `show`
// and removed on `hide`, held in one nullable field. The window manager is
// the log of calls made to it; whether a call throws is a parameter.

module Overlay {
  import opened Wrappers

  /** `WindowManager.LayoutParams` constants of the Android platform. */
  const TYPE_SYSTEM_OVERLAY: int := 2006
  const TYPE_APPLICATION_OVERLAY: int := 2038
  const FLAG_NOT_FOCUSABLE: bv32 := 0x8
  const FLAG_NOT_TOUCHABLE: bv32 := 0x10
  const WRAP_CONTENT: int := -2
  /** `PixelFormat.TRANSLUCENT`. */
  const TRANSLUCENT: int := -3
  /** `Gravity.TOP` and `Gravity.END`. */
  const GRAVITY_TOP: bv32 := 0x30
  const GRAVITY_END: bv32 := 0x0080_0005

  datatype LayoutParams = LayoutParams(
    width: int, height: int, windowType: int, flags: bv32, format: int, gravity: bv32, x: int, y: int)

  /** An inflated watermark view, told apart by when it was inflated. */
  datatype View = View(id: nat, text: string)

  datatype Call = AddView(view: View, params: LayoutParams, succeeded: bool) | RemoveView(view: View)

  /** The window type: the application overlay from Android O on, the
      system overlay before. */
  function OverlayType(hasAndroidO: bool): (t: int)
    ensures hasAndroidO <==> t == TYPE_APPLICATION_OVERLAY
    ensures !hasAndroidO <==> t == TYPE_SYSTEM_OVERLAY
  {
    if hasAndroidO then TYPE_APPLICATION_OVERLAY else TYPE_SYSTEM_OVERLAY
  }

  function ParamsFor(hasAndroidO: bool): LayoutParams {
    LayoutParams(WRAP_CONTENT, WRAP_CONTENT, OverlayType(hasAndroidO),
      FLAG_NOT_FOCUSABLE | FLAG_NOT_TOUCHABLE, TRANSLUCENT, GRAVITY_TOP | GRAVITY_END, 16, 16)
  }

  /** The watermark never takes focus or touches, and sits 16 pixels in from
      the top end corner. */
  lemma ParamsNeverIntercept(hasAndroidO: bool)
    ensures var p := ParamsFor(hasAndroidO);
      && p.flags & FLAG_NOT_FOCUSABLE != 0 && p.flags & FLAG_NOT_TOUCHABLE != 0
      && p.gravity & GRAVITY_TOP == GRAVITY_TOP && p.gravity & GRAVITY_END == GRAVITY_END
      && p.x == 16 && p.y == 16
  {
  }

  /** The views the calls leave on screen: added, and removal not yet asked for. */
  function Attached(calls: seq<Call>): set<View> {
    if calls == [] then {} else AfterCall(Attached(calls[..|calls| - 1]), calls[|calls| - 1])
  }

  /** The views on screen after one call. */
  function AfterCall(before: set<View>, c: Call): set<View> {
    if c.RemoveView? then before - {c.view}
    else if c.succeeded then before + {c.view}
    else before
  }

  lemma AttachedAppend(calls: seq<Call>, c: Call)
    ensures Attached(calls + [c]) == AfterCall(Attached(calls), c)
  {
    assert (calls + [c])[..|calls|] == calls;
  }

  class WatermarkOverlay {
    var view: Option<View>
    var calls: seq<Call>
    var inflated: nat

    /** The field holds exactly the view on screen, and no view is on screen
        while it is empty. */
    ghost predicate Valid()
      reads this
    {
      && Attached(calls) == (if view.Some? then {view.value} else {})
      && forall v :: v in Attached(calls) ==> v.id < inflated
    }

    constructor ()
      ensures Valid() && view.None? && calls == []
    {
      view, calls, inflated := None, [], 0;
    }

    /** `isShowing()`. */
    function IsShowing(): bool
      reads this
    {
      view.Some?
    }

    /** `show(text)`: nothing while showing; otherwise inflate a view with the
        text and add it; when `addView` throws, the exception escapes and the
        overlay stays hidden. */
    method Show(text: string, hasAndroidO: bool, addViewThrows: bool) returns (thrown: bool)
      requires Valid()
      modifies this
      ensures Valid()
      ensures old(IsShowing()) ==> !thrown && view == old(view) && calls == old(calls) && inflated == old(inflated)
      ensures !old(IsShowing()) ==>
        && inflated == old(inflated) + 1
        && calls == old(calls) + [AddView(View(old(inflated), text), ParamsFor(hasAndroidO), !addViewThrows)]
        && thrown == addViewThrows
        && (IsShowing() <==> !addViewThrows)
        && (!addViewThrows ==> view == Some(View(old(inflated), text)))
    {
      thrown := false;
      if view.Some? {
        return;
      }
      var watermarkView := View(inflated, text);
      inflated := inflated + 1;
      var params := ParamsFor(hasAndroidO);
      AttachedAppend(calls, AddView(watermarkView, params, !addViewThrows));
      calls := calls + [AddView(watermarkView, params, !addViewThrows)];
      if addViewThrows {
        thrown := true;
        return;
      }
      view := Some(watermarkView);
    }

    /** `hide()`: nothing while hidden; otherwise ask for removal, swallow
        whatever it throws, and forget the view. */
    method Hide(removeViewThrows: bool)
      requires Valid()
      modifies this
      ensures Valid() && !IsShowing()
      ensures old(view).None? ==> calls == old(calls)
      ensures old(view).Some? ==> calls == old(calls) + [RemoveView(old(view).value)]
      ensures inflated == old(inflated)
    {
      if view.None? {
        return;
      }
      var v := view.value;
      AttachedAppend(calls, RemoveView(v));
      calls := calls + [RemoveView(v)];
      view := None;
    }
  }

  /** Showing twice adds one view; hiding afterwards leaves none on screen. */
  method ShowShowHide(text: string, hasAndroidO: bool) returns (overlay: WatermarkOverlay)
    ensures !overlay.IsShowing()
    ensures Attached(overlay.calls) == {}
    ensures |overlay.calls| == 2 && overlay.calls[0].AddView? && overlay.calls[1].RemoveView?
  {
    overlay := new WatermarkOverlay();
    var thrown := overlay.Show(text, hasAndroidO, false);
    assert overlay.IsShowing();
    thrown := overlay.Show(text, hasAndroidO, false);
    overlay.Hide(true);
  }
}
