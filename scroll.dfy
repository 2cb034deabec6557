/** The scroll position `scrollToTarget` asks the window to move to, with
    pixel values taken as integers. */
module Scroll {
  import opened Js

  /** The visual margin kept below the fixed header. */
  const Margin: int := 12

  /** The page's scroll offset: `pageYOffset`, or the document element's
      `scrollTop` when that is 0. */
  function PageOffset(pageYOffset: int, documentScrollTop: int): int
  {
    if pageYOffset != 0 then pageYOffset else documentScrollTop
  }

  /** Where the window scrolls for a target whose top is `targetTop` in the
      viewport (`None`: the selector matched nothing, so no scroll) below a
      header of height `header` (`None`: no header, height 0). The result is
      the target's page position less the header and the margin, clamped at
      the top of the page. */
  function ScrollDestination(targetTop: Option<int>, pageYOffset: int, documentScrollTop: int, header: Option<nat>): (r: Option<int>)
    ensures r.Some? <==> targetTop.Some?
    ensures r.Some? ==> r.value >= 0
    ensures r.Some? ==>
      var headerHeight := if header.Some? then header.value else 0;
      var raw := targetTop.value + PageOffset(pageYOffset, documentScrollTop) - headerHeight - Margin;
      r.value >= raw && (r.value == raw || r.value == 0)
  {
    match targetTop
    case None => None
    case Some(top) =>
      var offset := PageOffset(pageYOffset, documentScrollTop);
      var headerHeight := match header case Some(h) => h case None => 0;
      var destination := top + offset - headerHeight - Margin;
      Some(if destination < 0 then 0 else destination)
  }
}
