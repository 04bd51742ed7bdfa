/** The picture book (`BookManager`): a canvas opened over the game that
    disables the game's buttons, a front cover, a back cover and an open
    spread, and a page cursor moved by clicks on the left and right pages.
    Each spread shows the left page's video and the right page's sprite.
    Clips and sprites are identified by numbers; audio is not modelled. */
module Book {
  import opened Common

  /** The three panels, of which one is shown at a time. */
  datatype Panel = FrontCover | BackCover | OpenPages

  /** The `activeSelf` flags of the three panel objects; `None` for a panel
      that is not assigned. */
  datatype Panels = Panels(front: Option<bool>, back: Option<bool>, open: Option<bool>)

  /** Whether an assigned panel is active exactly when it is `p`. */
  predicate Shows(panels: Panels, p: Panel) {
    && (panels.front.Some? ==> panels.front.value == (p == FrontCover))
    && (panels.back.Some? ==> panels.back.value == (p == BackCover))
    && (panels.open.Some? ==> panels.open.value == (p == OpenPages))
  }

  /** The panel flags after `ShowFrontCover`, `ShowBackCover` or the first half
      of `ShowBookPages`: the panel asked for is the only one active. */
  function Show(panels: Panels, p: Panel): (r: Panels)
    ensures Shows(r, p)
    ensures r.front.Some? == panels.front.Some? && r.back.Some? == panels.back.Some? && r.open.Some? == panels.open.Some?
  {
    Panels(SetIfAssigned(panels.front, p == FrontCover), SetIfAssigned(panels.back, p == BackCover),
           SetIfAssigned(panels.open, p == OpenPages))
  }

  /** With all three panels assigned exactly one of them is active. */
  lemma ExactlyOnePanel(panels: Panels, p: Panel)
    requires panels.front.Some? && panels.back.Some? && panels.open.Some?
    ensures var r := Show(panels, p);
      && (r.front.value || r.back.value || r.open.value)
      && !(r.front.value && r.back.value) && !(r.front.value && r.open.value) && !(r.back.value && r.open.value)
  {
  }

  /** The number of spreads: the longer of the two page lists. */
  function PageCount(leftPageVideos: seq<Option<int>>, rightPages: seq<Option<int>>): nat {
    if |leftPageVideos| < |rightPages| then |rightPages| else |leftPageVideos|
  }

  /** `OnLeftPageClick` on the cursor: the new index and the panel shown. */
  function LeftClick(index: int): (r: (int, Panel))
    ensures index >= 1 ==> r == (index - 1, OpenPages)
    ensures index < 1 ==> r == (index, FrontCover)
  {
    if index - 1 < 0 then (index, FrontCover) else (index - 1, OpenPages)
  }

  /** `OnRightPageClick` on the cursor, with `n` spreads. */
  function RightClick(index: int, n: int): (r: (int, Panel))
    ensures index + 1 < n ==> r == (index + 1, OpenPages)
    ensures index + 1 >= n ==> r == (index, BackCover)
  {
    if index + 1 >= n then (index, BackCover) else (index + 1, OpenPages)
  }

  /** A right page click that turned the page is undone by a left one. */
  lemma LeftUndoesRight(index: int, n: int)
    requires index >= 0 && index + 1 < n
    ensures LeftClick(RightClick(index, n).0) == (index, OpenPages)
  {
  }

  /** A left page click that turned the page back is undone by a right one. */
  lemma RightUndoesLeft(index: int, n: int)
    requires 1 <= index < n
    ensures RightClick(LeftClick(index).0, n) == (index, OpenPages)
  {
  }

  datatype Click = LeftPage | RightPage

  /** The index after `OpenBook` and a run of page clicks, with `n` spreads. */
  function IndexAfter(n: int, clicks: seq<Click>): int
    decreases |clicks|
  {
    if clicks == [] then 0
    else
      var before := IndexAfter(n, clicks[..|clicks| - 1]);
      match clicks[|clicks| - 1]
      case LeftPage => LeftClick(before).0
      case RightPage => RightClick(before, n).0
  }

  /** Once the book is opened the index always names a spread, or is 0 for a
      book without pages. */
  lemma {:induction false} IndexInRange(n: nat, clicks: seq<Click>)
    ensures 0 <= IndexAfter(n, clicks) <= (if n == 0 then 0 else n - 1)
    decreases |clicks|
  {
    if clicks != [] {
      IndexInRange(n, clicks[..|clicks| - 1]);
    }
  }

  /** What `UpdatePageContent` puts on a spread: the left page's clip when
      there is one (otherwise the video is stopped and the left image
      cleared), and the right page's sprite or none. */
  datatype Spread = Spread(video: Option<int>, sprite: Option<int>)

  function SpreadAt(index: int, leftPageVideos: seq<Option<int>>, rightPages: seq<Option<int>>): (r: Spread)
    requires index >= 0
    ensures r.video.Some? <==> index < |leftPageVideos| && leftPageVideos[index].Some?
    ensures r.video.Some? ==> Some(r.video.value) == leftPageVideos[index]
    ensures index < |rightPages| ==> r.sprite == rightPages[index]
    ensures index >= |rightPages| ==> r.sprite == None
  {
    Spread(if index < |leftPageVideos| then leftPageVideos[index] else None,
           if index < |rightPages| then rightPages[index] else None)
  }

  /** What the open spread currently shows: the clip the video player plays
      (`None` once stopped), whether the left page's image was cleared, and
      the right page's sprite. */
  datatype PageView = PageView(playing: Option<int>, leftCleared: bool, sprite: Option<int>)

  /** The page view after `UpdatePageContent` puts spread `s` up: the right
      sprite always changes; the video player, when there is one, plays the
      clip or stops and clears the left image; without one the left page is
      left as it was. */
  function Fill(s: Spread, hasVideoPlayer: bool, before: PageView): (r: PageView)
    ensures r.sprite == s.sprite
    ensures hasVideoPlayer ==> r.playing == s.video && (r.leftCleared <==> s.video.None? || before.leftCleared)
    ensures !hasVideoPlayer ==> r.playing == before.playing && r.leftCleared == before.leftCleared
  {
    if !hasVideoPlayer then before.(sprite := s.sprite)
    else if s.video.Some? then before.(playing := s.video, sprite := s.sprite)
    else PageView(None, true, s.sprite)
  }

  /** A UI button whose `interactable` flag the book toggles. */
  class Button {
    var interactable: bool

    constructor (interactable: bool)
      ensures this.interactable == interactable
    {
      this.interactable := interactable;
    }
  }

  /** `BookManager`. The video player is optional; the two page images are
      taken to be found. */
  class BookManager {
    /** `bookCanvas.gameObject.activeSelf`, `None` without a canvas. */
    var canvasActive: Option<bool>
    var panels: Panels
    const leftPageVideos: seq<Option<int>>
    const rightPages: seq<Option<int>>
    const hasVideoPlayer: bool
    /** The clip the video player plays; `None` once stopped. */
    var playing: Option<int>
    /** Whether the left page's image was cleared. */
    var leftTextureCleared: bool
    /** The right page's sprite. */
    var rightSprite: Option<int>
    const buttons: seq<Button?>
    var currentPageIndex: int

    ghost function ButtonSet(): set<Button>
      reads this
    {
      set i | 0 <= i < |buttons| && buttons[i] != null :: buttons[i]
    }

    function View(): PageView
      reads this
    {
      PageView(playing, leftTextureCleared, rightSprite)
    }

    function PageTotal(): nat
      reads this
    {
      PageCount(leftPageVideos, rightPages)
    }

    /** The cursor names a spread, or is 0 for a book without pages. */
    ghost predicate Valid()
      reads this
    {
      0 <= currentPageIndex <= (if PageTotal() == 0 then 0 else PageTotal() - 1)
    }

    /** The field initialisers followed by `Awake`, which hides the canvas. */
    constructor (hasCanvas: bool, panels: Panels, leftPageVideos: seq<Option<int>>, rightPages: seq<Option<int>>,
                 hasVideoPlayer: bool, buttons: seq<Button?>)
      ensures Valid() && currentPageIndex == 0
      ensures canvasActive == (if hasCanvas then Some(false) else None) && this.panels == panels
      ensures this.leftPageVideos == leftPageVideos && this.rightPages == rightPages
      ensures this.hasVideoPlayer == hasVideoPlayer && this.buttons == buttons
      ensures playing == None && !leftTextureCleared && rightSprite == None
    {
      canvasActive := if hasCanvas then Some(true) else None;
      this.panels := panels;
      this.leftPageVideos, this.rightPages := leftPageVideos, rightPages;
      this.hasVideoPlayer, this.buttons := hasVideoPlayer, buttons;
      playing, leftTextureCleared, rightSprite := None, false, None;
      currentPageIndex := 0;
      new;
      SetCanvasActive(false);
    }

    /** `SetCanvasActive` */
    method SetCanvasActive(value: bool)
      modifies this`canvasActive
      ensures canvasActive == SetIfAssigned(old(canvasActive), value)
    {
      if canvasActive.Some? {
        canvasActive := Some(value);
      }
    }

    /** `SetButtonsInteractable`: every assigned button gets the flag. */
    method SetButtonsInteractable(value: bool)
      modifies ButtonSet()
      ensures forall i :: 0 <= i < |buttons| && buttons[i] != null ==> buttons[i].interactable == value
      ensures forall b :: b in ButtonSet() ==> b.interactable == value
    {
      for i := 0 to |buttons|
        invariant forall j :: 0 <= j < i && buttons[j] != null ==> buttons[j].interactable == value
      {
        if buttons[i] != null {
          buttons[i].interactable := value;
        }
      }
    }

    /** `OpenBook`: canvas shown, buttons disabled, back to the first spread.
        The front cover follows on the next frame (`ShowFrontCover`). */
    method OpenBook()
      requires Valid()
      modifies this`canvasActive, this`currentPageIndex, ButtonSet()
      ensures Valid() && currentPageIndex == 0
      ensures canvasActive == SetIfAssigned(old(canvasActive), true)
      ensures forall b :: b in ButtonSet() ==> !b.interactable
    {
      SetCanvasActive(true);
      SetButtonsInteractable(false);
      currentPageIndex := 0;
    }

    /** `CloseBook`: canvas hidden and the buttons usable again. */
    method CloseBook()
      modifies this`canvasActive, ButtonSet()
      ensures canvasActive == SetIfAssigned(old(canvasActive), false)
      ensures forall b :: b in ButtonSet() ==> b.interactable
    {
      SetCanvasActive(false);
      SetButtonsInteractable(true);
    }

    /** `ShowFrontCover` */
    method ShowFrontCover()
      modifies this`panels
      ensures panels == Show(old(panels), FrontCover)
    {
      panels := Show(panels, FrontCover);
    }

    /** `ShowBackCover` */
    method ShowBackCover()
      modifies this`panels
      ensures panels == Show(old(panels), BackCover)
    {
      panels := Show(panels, BackCover);
    }

    /** `UpdatePageContent`: the left page's clip plays when it exists (the
        video player is only touched when there is one), and the right page's
        sprite is shown. */
    method UpdatePageContent()
      requires currentPageIndex >= 0
      modifies this`playing, this`leftTextureCleared, this`rightSprite
      ensures View() == Fill(SpreadAt(currentPageIndex, leftPageVideos, rightPages), hasVideoPlayer, old(View()))
    {
      if hasVideoPlayer {
        if currentPageIndex < |leftPageVideos| && leftPageVideos[currentPageIndex].Some? {
          playing := leftPageVideos[currentPageIndex];
        } else {
          playing := None;
          leftTextureCleared := true;
        }
      }
      rightSprite := if currentPageIndex < |rightPages| then rightPages[currentPageIndex] else None;
    }

    /** `ShowBookPages`: the open spread, filled for the current index. */
    method ShowBookPages()
      requires currentPageIndex >= 0
      modifies this`panels, this`playing, this`leftTextureCleared, this`rightSprite
      ensures panels == Show(old(panels), OpenPages)
      ensures View() == Fill(SpreadAt(currentPageIndex, leftPageVideos, rightPages), hasVideoPlayer, old(View()))
    {
      panels := Show(panels, OpenPages);
      UpdatePageContent();
    }

    /** `OnLeftPageClick` */
    method OnLeftPageClick()
      requires Valid()
      modifies this`panels, this`currentPageIndex, this`playing, this`leftTextureCleared, this`rightSprite
      ensures Valid()
      ensures currentPageIndex == LeftClick(old(currentPageIndex)).0
      ensures panels == Show(old(panels), LeftClick(old(currentPageIndex)).1)
      ensures LeftClick(old(currentPageIndex)).1 == OpenPages ==>
        View() == Fill(SpreadAt(currentPageIndex, leftPageVideos, rightPages), hasVideoPlayer, old(View()))
      ensures LeftClick(old(currentPageIndex)).1 != OpenPages ==> View() == old(View())
    {
      if currentPageIndex - 1 < 0 {
        ShowFrontCover();
      } else {
        currentPageIndex := currentPageIndex - 1;
        ShowBookPages();
      }
    }

    /** `OnRightPageClick` */
    method OnRightPageClick()
      requires Valid()
      modifies this`panels, this`currentPageIndex, this`playing, this`leftTextureCleared, this`rightSprite
      ensures Valid()
      ensures currentPageIndex == RightClick(old(currentPageIndex), PageTotal()).0
      ensures panels == Show(old(panels), RightClick(old(currentPageIndex), PageTotal()).1)
      ensures RightClick(old(currentPageIndex), PageTotal()).1 == OpenPages ==>
        View() == Fill(SpreadAt(currentPageIndex, leftPageVideos, rightPages), hasVideoPlayer, old(View()))
      ensures RightClick(old(currentPageIndex), PageTotal()).1 != OpenPages ==> View() == old(View())
    {
      if currentPageIndex + 1 >= PageTotal() {
        ShowBackCover();
      } else {
        currentPageIndex := currentPageIndex + 1;
        ShowBookPages();
      }
    }
  }
}
