/** One intro screen as a stateful player: the preloaded frame list, the frame shown,
    the header flag, and the `ticking` flag that lets at most one animation-frame
    callback be pending. Both intro screens are instances of it. */
module ScrollPlayer {
  import opened Wrappers
  import opened FrameNames
  import opened ScrollMapper

  /** What distinguishes the two intro screens. */
  datatype Screen = Screen(
    basePath: string,                 // directory of the frame images, with trailing slash
    mapper: MapperConfig,
    headerThreshold: real,            // the header hides once scrollY exceeds this
    desktopHeaderFollowsScroll: bool) // the desktop header is drawn only while showHeader holds

  predicate ValidScreen(s: Screen) {
    ValidMapper(s.mapper)
  }

  const Torno := Screen("/assets/scrollanimation/", TornoMapper, 50.0, true)
  const Fresadora := Screen("./assets/anim/", FresadoraMapper, 2.0, false)

  /** Widest viewport that still gets the mobile header. */
  const MobileMaxWidth: real := 768.0

  /** The header flag `handleScroll` sets: shown until the offset passes the threshold. */
  function ShowHeader(s: Screen, scrollY: real): (shown: bool)
    ensures shown <==> scrollY <= s.headerThreshold
  {
    if scrollY > s.headerThreshold then false else true
  }

  datatype HeaderKind = MobileHeader | DesktopHeader | NoHeader

  /** Which header the screen draws: none while the loader is shown; once loaded, the
      mobile one on narrow viewports whatever the scroll, and on wide ones the desktop
      header, which the first screen drops once scrolled and the second always keeps. */
  function Header(s: Screen, innerWidth: real, loading: bool, showHeader: bool): (h: HeaderKind)
    ensures loading ==> h == NoHeader
    ensures h == MobileHeader <==> !loading && innerWidth <= MobileMaxWidth
    ensures h == NoHeader <==> loading || (innerWidth > MobileMaxWidth && s.desktopHeaderFollowsScroll && !showHeader)
  {
    var isMobile := innerWidth <= MobileMaxWidth;
    if loading then NoHeader
    else if isMobile then MobileHeader
    else if !s.desktopHeaderFollowsScroll || showHeader then DesktopHeader
    else NoHeader
  }

  /** Request i ends a batch exactly when it completes one more full batch of ten
      (the preloader pauses after every tenth frame). */
  lemma BatchStep(i: nat)
    requires i >= 1
    ensures i / 10 == (i - 1) / 10 + (if i % 10 == 0 then 1 else 0)
  {
  }

  /** The loop of `preloadImages`: frame paths 1..total pushed in order, with a pause
      after every tenth. */
  method LoadFrames(base: string, total: nat) returns (loaded: seq<string>, pauses: nat)
    ensures loaded == FrameSequence(base, total)
    ensures pauses == total / 10
  {
    loaded := [];
    pauses := 0;
    for i := 1 to total + 1
      invariant loaded == FrameSequence(base, i - 1)
      invariant pauses == (i - 1) / 10
    {
      FrameSequenceStep(base, i - 1);
      loaded := loaded + [FramePath(base, i)];
      BatchStep(i);
      if i % 10 == 0 {
        pauses := pauses + 1;  // the batch pause
      }
    }
  }

  class Player {
    const screen: Screen
    var currentFrame: int
    var showHeader: bool
    var loading: bool
    var images: seq<string>
    var ticking: bool
    /** Animation-frame callbacks requested from the browser and not yet run. */
    ghost var pending: nat

    ghost predicate Valid()
      reads this
    {
      && ValidScreen(screen)
      && 1 <= currentFrame <= screen.mapper.totalFrames
      && pending == (if ticking then 1 else 0)
      && images == (if loading then [] else FrameSequence(screen.basePath, screen.mapper.totalFrames))
    }

    /** The state at mount: first frame, header shown, still loading, nothing scheduled. */
    constructor (s: Screen)
      requires ValidScreen(s)
      ensures Valid() && screen == s
      ensures currentFrame == 1 && showHeader && loading && images == [] && !ticking
    {
      screen := s;
      currentFrame := 1;
      showHeader := true;
      loading := true;
      images := [];
      ticking := false;
      pending := 0;
    }

    /** `preloadImages`: requests every frame in index order, pausing after every tenth,
        then publishes the whole list at once and leaves the loading state. */
    method PreloadImages() returns (pauses: nat)
      requires Valid()
      modifies this`images, this`loading
      ensures Valid() && !loading
      ensures images == FrameSequence(screen.basePath, screen.mapper.totalFrames)
      ensures pauses == screen.mapper.totalFrames / 10
      ensures currentFrame == old(currentFrame) && showHeader == old(showHeader)
      ensures ticking == old(ticking) && pending == old(pending)
    {
      var loaded;
      loaded, pauses := LoadFrames(screen.basePath, screen.mapper.totalFrames);
      images := loaded;
      loading := false;
    }

    /** The scroll listener: requests one animation-frame callback unless one is
        already pending, so at most one is ever pending. */
    method ScrollListener()
      requires Valid()
      modifies this
      ensures Valid() && ticking && pending == 1
      ensures pending == (if old(ticking) then old(pending) else old(pending) + 1)
      ensures currentFrame == old(currentFrame) && showHeader == old(showHeader)
      ensures loading == old(loading) && images == old(images)
    {
      if !ticking {
        pending := pending + 1;  // window.requestAnimationFrame(...)
        ticking := true;
      }
    }

    /** `handleScroll`: the header flag and the frame for an offset and a viewport height. */
    method HandleScroll(scrollY: real, innerHeight: real)
      requires Valid() && innerHeight > 0.0
      modifies this
      ensures Valid()
      ensures currentFrame == MapFrame(screen.mapper, scrollY, innerHeight)
      ensures showHeader == ShowHeader(screen, scrollY)
      ensures loading == old(loading) && images == old(images)
      ensures ticking == old(ticking) && pending == old(pending)
    {
      showHeader := ShowHeader(screen, scrollY);
      currentFrame := MapFrame(screen.mapper, scrollY, innerHeight);
    }

    /** The pending animation-frame callback runs: `handleScroll` on the offset and
        viewport height of that moment, then `ticking` is cleared. */
    method AnimationFrame(scrollY: real, innerHeight: real)
      requires Valid() && pending > 0 && innerHeight > 0.0
      modifies this
      ensures Valid() && !ticking && pending == 0
      ensures currentFrame == MapFrame(screen.mapper, scrollY, innerHeight)
      ensures showHeader == ShowHeader(screen, scrollY)
      ensures loading == old(loading) && images == old(images)
    {
      HandleScroll(scrollY, innerHeight);
      ticking := false;
      pending := pending - 1;
    }

    /** The image drawn, `images[currentFrame - 1]`: once loading is over it is always
        there, and it is the file of the current frame. */
    function DisplayedImage(): (src: Option<string>)
      reads this
      requires Valid()
      ensures loading ==> src == None
      ensures !loading ==> src == Some(FramePath(screen.basePath, currentFrame))
    {
      if currentFrame - 1 < |images| then
        Some(images[currentFrame - 1])
      else None
    }

    /** The scroll hint and the large title: never drawn while the loader is shown, and
        drawn on the first frame once loading is over, always over the image `0001.webp`. */
    function ShowsIntro(): (shown: bool)
      reads this
      requires Valid()
      ensures shown ==> currentFrame == 1 && !loading
      ensures shown ==> DisplayedImage() == Some(FramePath(screen.basePath, 1))
      ensures !loading && currentFrame == 1 ==> shown
    {
      !loading && currentFrame == 1
    }
  }

  /** A burst of scroll events before the next display refresh costs one recomputation,
      made with the offset read when the callback runs. */
  method CoalescingScenario() returns (ghost pendingAfterBurst: nat, frame: int)
    ensures pendingAfterBurst == 1
    ensures frame == 80
  {
    var p := new Player(Torno);
    var _ := p.PreloadImages();
    p.ScrollListener();
    p.ScrollListener();
    p.ScrollListener();
    pendingAfterBurst := p.pending;
    p.AnimationFrame(800.0, 800.0);
    TornoScenario();
    frame := p.currentFrame;
  }
}
