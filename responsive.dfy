/** The responsive breakpoint helpers: a viewport width (in whole pixels) is
    classified as mobile, tablet or desktop. */
module Responsive {

  const MobileBreakpoint: int := 768
  const TabletBreakpoint: int := 1024
  const DesktopBreakpoint: int := 1024

  predicate IsMobile(width: int) {
    width < MobileBreakpoint
  }

  predicate IsTablet(width: int) {
    width >= MobileBreakpoint && width < TabletBreakpoint
  }

  predicate IsDesktop(width: int) {
    width >= DesktopBreakpoint
  }

  datatype Category = Mobile | Tablet | Desktop

  /** A category's position from narrowest to widest. */
  function Position(c: Category): nat {
    match c
    case Mobile => 0
    case Tablet => 1
    case Desktop => 2
  }

  /** The category whose predicate holds; exactly one does, because the
      tablet range ends where the desktop range starts. */
  function Classify(width: int): (c: Category)
    ensures c == Mobile <==> IsMobile(width)
    ensures c == Tablet <==> IsTablet(width)
    ensures c == Desktop <==> IsDesktop(width)
  {
    if IsMobile(width) then Mobile
    else if IsTablet(width) then Tablet
    else Desktop
  }

  /** `getResponsiveValue`: the argument for the width's category. */
  function GetResponsiveValue<T>(mobile: T, tablet: T, desktop: T, width: int): (r: T)
    ensures IsMobile(width) ==> r == mobile
    ensures IsTablet(width) ==> r == tablet
    ensures IsDesktop(width) ==> r == desktop
  {
    if IsMobile(width) then mobile
    else if IsTablet(width) then tablet
    else desktop
  }

  /** For every width exactly one of the three predicates holds. */
  lemma ExactlyOneCategory(width: int)
    ensures IsMobile(width) || IsTablet(width) || IsDesktop(width)
    ensures !(IsMobile(width) && IsTablet(width))
    ensures !(IsMobile(width) && IsDesktop(width))
    ensures !(IsTablet(width) && IsDesktop(width))
  {
  }

  /** A wider viewport never falls in an earlier category. */
  lemma ClassifyMonotone(narrow: int, wide: int)
    requires narrow <= wide
    ensures Position(Classify(narrow)) <= Position(Classify(wide))
  {
  }
}
