/** The page state that the `DOMContentLoaded` handler wires up: the
    project modal (its body, its `display` style and its `active` class),
    the page's scroll lock (`overflow` of the body), and the image
    lightbox with its gallery, current image and arrow buttons. */
module Viewer {
  import opened Wrappers
  import Cycle
  import ProjectLookup

  /** An element's inline `display` style, before and after the handlers set it. */
  datatype Display = DisplayUnset | DisplayNone | DisplayFlex

  /** The body's inline `overflow` style. */
  datatype Overflow = OverflowUnset | OverflowHidden | OverflowAuto

  /** The keys the keyboard handler tells apart; every other key is `OtherKey`. */
  datatype Key = Escape | ArrowLeft | ArrowRight | OtherKey

  /** How the lightbox arrows are displayed for a gallery of `length`
      images: hidden for a gallery of at most one image, shown otherwise. */
  function ArrowDisplay(length: nat): (d: Display)
    ensures d == DisplayNone <==> length <= 1
    ensures d == DisplayFlex <==> length > 1
  {
    if length <= 1 then DisplayNone else DisplayFlex
  }

  class Page {
    /** The modal's `active` class. */
    var modalActive: bool
    /** The modal's inline `display`. */
    var modalDisplay: Display
    /** The project whose description fills the modal body, if any yet. */
    var modalBody: Option<string>
    /** The body's `overflow`. */
    var overflow: Overflow
    /** The lightbox's `active` class. */
    var lightboxActive: bool
    /** Length of `currentGalleryImages`. */
    var gallery: nat
    /** `currentImageIndex`. */
    var imageIndex: int
    /** Inline `display` of the previous and next arrows. */
    var prevDisplay: Display
    var nextDisplay: Display

    /** Every image the lightbox can show is one of the gallery's, and an
        open lightbox shows the arrows its gallery calls for. */
    ghost predicate Valid()
      reads this
    {
      && (gallery >= 1 ==> 0 <= imageIndex < gallery)
      && (lightboxActive ==> gallery >= 1)
      && (lightboxActive ==> prevDisplay == nextDisplay == ArrowDisplay(gallery))
    }

    /** The page as loaded: nothing open, an empty gallery, index 0. */
    constructor ()
      ensures Valid()
      ensures !modalActive && modalDisplay == DisplayUnset && modalBody == None
      ensures overflow == OverflowUnset && !lightboxActive
      ensures gallery == 0 && imageIndex == 0
      ensures prevDisplay == DisplayUnset && nextDisplay == DisplayUnset
    {
      modalActive, modalDisplay, modalBody := false, DisplayUnset, None;
      overflow, lightboxActive := OverflowUnset, false;
      gallery, imageIndex := 0, 0;
      prevDisplay, nextDisplay := DisplayUnset, DisplayUnset;
    }

    /** A click on a project card: the modal is filled, shown and the page
        locked only when the card's key is in the project table; any other
        card changes nothing. (Adding the `active` class is deferred to
        `ActivateModal`.) */
    method OpenCard(cardId: string)
      requires Valid()
      modifies this
      ensures Valid()
      ensures ProjectLookup.CardKey(cardId) in ProjectLookup.ProjectKeys ==>
        && modalBody == Some(ProjectLookup.CardKey(cardId))
        && modalDisplay == DisplayFlex
        && overflow == OverflowHidden
        && modalActive == old(modalActive)
        && lightboxActive == old(lightboxActive) && gallery == old(gallery)
        && imageIndex == old(imageIndex)
        && prevDisplay == old(prevDisplay) && nextDisplay == old(nextDisplay)
      ensures ProjectLookup.CardKey(cardId) !in ProjectLookup.ProjectKeys ==> unchanged(this)
    {
      var found := ProjectLookup.Lookup(cardId);
      if found.Some? {
        modalBody := Some(found.value);
        modalDisplay := DisplayFlex;
        overflow := OverflowHidden;
      }
    }

    /** The deferred part of opening the modal: it becomes active. */
    method ActivateModal()
      requires Valid()
      modifies this`modalActive
      ensures Valid() && modalActive
    {
      modalActive := true;
    }

    /** `closeModal`: the modal stops being active at once. */
    method CloseModal()
      requires Valid()
      modifies this`modalActive
      ensures Valid() && !modalActive
    {
      modalActive := false;
    }

    /** The deferred part of closing the modal: it is hidden and the page
        scrolls again. */
    method FinishCloseModal()
      requires Valid()
      modifies this`modalDisplay, this`overflow
      ensures Valid()
      ensures modalDisplay == DisplayNone && overflow == OverflowAuto
    {
      modalDisplay := DisplayNone;
      overflow := OverflowAuto;
    }

    /** `updateLightboxNav`: both arrows follow the gallery's length. */
    method UpdateLightboxNav()
      modifies this`prevDisplay, this`nextDisplay
      ensures prevDisplay == ArrowDisplay(gallery) && nextDisplay == ArrowDisplay(gallery)
      ensures gallery <= 1 ==> prevDisplay == DisplayNone && nextDisplay == DisplayNone
      ensures gallery > 1 ==> prevDisplay == DisplayFlex && nextDisplay == DisplayFlex
    {
      if gallery <= 1 {
        prevDisplay := DisplayNone;
        nextDisplay := DisplayNone;
      } else {
        prevDisplay := DisplayFlex;
        nextDisplay := DisplayFlex;
      }
    }

    /** A click on a zoomable image of the modal: the gallery becomes the
        modal's `count` zoomable images, the current index the clicked one's
        position among them (every zoomable image in the project
        descriptions is one they collect), and
        `openLightbox` shows the lightbox, locks the page and sets the arrows. */
    method OpenImage(count: nat, clicked: nat)
      requires Valid()
      requires clicked < count
      modifies this
      ensures Valid()
      ensures gallery == count && imageIndex == clicked
      ensures lightboxActive && overflow == OverflowHidden
      ensures prevDisplay == ArrowDisplay(count) && nextDisplay == ArrowDisplay(count)
      ensures modalActive == old(modalActive) && modalDisplay == old(modalDisplay)
      ensures modalBody == old(modalBody)
    {
      gallery := count;
      imageIndex := clicked;
      lightboxActive := true;
      overflow := OverflowHidden;
      UpdateLightboxNav();
    }

    /** `closeLightbox`: the lightbox always stops being active; the page
        scrolls again only when no modal is active behind it. */
    method CloseLightbox()
      requires Valid()
      modifies this`lightboxActive, this`overflow
      ensures Valid()
      ensures !lightboxActive
      ensures overflow == if old(modalActive) then old(overflow) else OverflowAuto
    {
      lightboxActive := false;
      if !modalActive {
        overflow := OverflowAuto;
      }
    }

    /** `navigateLightbox(direction)`: one step around the gallery. */
    method NavigateLightbox(direction: int)
      requires Valid()
      modifies this`imageIndex
      ensures Valid()
      ensures imageIndex == Cycle.Step(old(imageIndex), direction, gallery)
    {
      imageIndex := imageIndex + direction;
      if imageIndex < 0 {
        imageIndex := gallery - 1;
      }
      if imageIndex >= gallery {
        imageIndex := 0;
      }
    }

    /** The keydown handler: nothing happens unless the lightbox is active;
        then Escape closes it and the arrow keys step back or forward. */
    method KeyDown(key: Key)
      requires Valid()
      modifies this
      ensures Valid()
      ensures !old(lightboxActive) ==> unchanged(this)
      ensures old(lightboxActive) && key == Escape ==>
        !lightboxActive && imageIndex == old(imageIndex)
        && overflow == (if modalActive then old(overflow) else OverflowAuto)
      ensures old(lightboxActive) && key == ArrowLeft ==>
        lightboxActive && imageIndex == Cycle.Step(old(imageIndex), -1, gallery)
      ensures old(lightboxActive) && key == ArrowRight ==>
        lightboxActive && imageIndex == Cycle.Step(old(imageIndex), 1, gallery)
      ensures old(lightboxActive) && key == OtherKey ==> unchanged(this)
      ensures key != Escape ==> lightboxActive == old(lightboxActive) && overflow == old(overflow)
      ensures key != ArrowLeft && key != ArrowRight ==> imageIndex == old(imageIndex)
      ensures modalActive == old(modalActive) && modalDisplay == old(modalDisplay)
      ensures modalBody == old(modalBody) && gallery == old(gallery)
      ensures prevDisplay == old(prevDisplay) && nextDisplay == old(nextDisplay)
    {
      if !lightboxActive {
        return;
      }
      if key == Escape {
        CloseLightbox();
      }
      if key == ArrowLeft {
        NavigateLightbox(-1);
      }
      if key == ArrowRight {
        NavigateLightbox(1);
      }
    }
  }
}
