/**
 * The page-level state of the script: the carousel index of every project
 * card, the modal viewer (`currentGallery`, `currentImageIndex`) and the
 * current language, together with the parts of the document those handlers
 * write. An element the document lacks is a `has...` constant that is false,
 * or a project missing from a map of card elements; writes to it do nothing.
 * Delayed updates are modelled by the state they leave once their timer fires.
 */
module Page {
  import opened Wrappers
  import opened Text
  import opened Galleries
  import opened Language

  /** What the modal viewer's elements show. */
  datatype ModalView = ModalView(
    active: bool,        // #imageModal carries the class 'active'
    scrollLocked: bool,  // the body's overflow is 'hidden'
    src: string,         // #modalImage's src
    counter: string,     // #imageCounter's text
    navVisible: bool,    // .prev-btn and .next-btn are displayed
    prevDisabled: bool,
    nextDisabled: bool)

  class PortfolioPage {
    const hasModal: bool             // #imageModal exists
    const hasModalImage: bool        // #modalImage exists
    const hasCounter: bool           // #imageCounter exists
    const hasNavButtons: bool        // both .prev-btn and .next-btn exist
    const hasLangButton: bool        // #lang-btn exists
    const hasMobileLangButton: bool  // #lang-btn-mobile exists
    const translatables: array<Translatable>  // the elements carrying data-en and data-fr
    const galleries: map<string, seq<string>> // imageGalleries, fixed at load

    var projectImages: map<string, int>      // currentProjectImages
    var cardImages: map<string, string>      // src of #<project>-image, for the projects that have one
    var cardIndicators: map<string, string>  // text of #<project>-indicator, for the projects that have one
    var currentGallery: Option<string>
    var currentImageIndex: int
    var modal: ModalView
    var currentLanguage: string
    var langButtonText: string
    var mobileLangButtonText: string

    /**
     * Every project has a carousel index inside its gallery, an open gallery
     * is one of the table's, and when the modal's elements exist the modal is
     * shown exactly while a gallery is open and shows that gallery's image.
     */
    ghost predicate Valid()
      reads this`projectImages, this`currentGallery, this`currentImageIndex, this`modal
    {
      && (forall name :: name in galleries ==> |galleries[name]| > 0)
      && CarouselsValid()
      && ModalValid()
    }

    /** Every project has a carousel index inside its gallery. */
    ghost predicate CarouselsValid()
      reads this`projectImages
    {
      && projectImages.Keys == galleries.Keys
      && (forall name :: name in projectImages ==> 0 <= projectImages[name] < |galleries[name]|)
    }

    /** An open gallery is in the table; with its elements present, the modal is shown exactly while one is open. */
    ghost predicate ModalValid()
      reads this`currentGallery, this`currentImageIndex, this`modal
    {
      && (currentGallery.Some? ==> currentGallery.value in galleries)
      && (hasModal && hasModalImage ==> (modal.active <==> currentGallery.Some?))
      && ModalShowsCurrent()
    }

    /** With the modal's elements present, an open modal displays the current image and its controls. */
    ghost predicate ModalShowsCurrent()
      reads this`currentGallery, this`currentImageIndex, this`modal
    {
      currentGallery.Some? && currentGallery.value in galleries && hasModal && hasModalImage ==>
        var gallery := galleries[currentGallery.value];
        && modal.src == ImageAt(gallery, currentImageIndex)
        && (hasCounter ==> modal.counter == Indicator(currentImageIndex + 1, |gallery|))
        && (hasNavButtons ==>
              && modal.navVisible == NavVisible(|gallery|)
              && modal.prevDisabled == PrevDisabled(currentImageIndex)
              && modal.nextDisabled == NextDisabled(currentImageIndex, |gallery|))
    }

    /** The open gallery's index points at one of its images. */
    ghost predicate IndexInRange()
      reads this`currentGallery, this`currentImageIndex
    {
      currentGallery.Some? && currentGallery.value in galleries ==>
        0 <= currentImageIndex < |galleries[currentGallery.value]|
    }

    /** Every translatable element shows its variant for the current language. */
    ghost predicate ShowsLanguage()
      reads this, translatables
    {
      forall i :: 0 <= i < translatables.Length ==>
        translatables[i].content == Render(translatables[i], currentLanguage)
    }

    /** The modal once `updateModalImage`'s delayed update for image `index` of `gallery` has run. */
    function Displayed(v: ModalView, gallery: seq<string>, index: int): ModalView {
      v.(src := ImageAt(gallery, index),
         counter := if hasCounter then Indicator(index + 1, |gallery|) else v.counter,
         prevDisabled := if hasNavButtons then PrevDisabled(index) else v.prevDisabled,
         nextDisabled := if hasNavButtons then NextDisabled(index, |gallery|) else v.nextDisabled)
    }

    /** The modal once `openImageGallery` has shown image `index` of `gallery`. */
    function Opened(v: ModalView, gallery: seq<string>, index: int): ModalView {
      Displayed(v, gallery, index).(
        active := true,
        scrollLocked := true,
        navVisible := if hasNavButtons then NavVisible(|gallery|) else v.navVisible)
    }

    /** The page as the script leaves it when loaded: every carousel on its first image, no gallery open, English. */
    constructor (hasModal: bool, hasModalImage: bool, hasCounter: bool, hasNavButtons: bool,
                 hasLangButton: bool, hasMobileLangButton: bool, translatables: array<Translatable>,
                 cardImages: map<string, string>, cardIndicators: map<string, string>,
                 modal: ModalView, langButtonText: string, mobileLangButtonText: string)
      requires !modal.active
      ensures Valid() && IndexInRange()
      ensures this.hasModal == hasModal && this.hasModalImage == hasModalImage
      ensures this.hasCounter == hasCounter && this.hasNavButtons == hasNavButtons
      ensures this.hasLangButton == hasLangButton && this.hasMobileLangButton == hasMobileLangButton
      ensures this.translatables == translatables && galleries == ImageGalleries()
      ensures this.cardImages == cardImages && this.cardIndicators == cardIndicators
      ensures this.modal == modal
      ensures this.langButtonText == langButtonText && this.mobileLangButtonText == mobileLangButtonText
      ensures projectImages.Keys == galleries.Keys
      ensures forall name :: name in projectImages ==> projectImages[name] == 0
      ensures currentGallery == None && currentImageIndex == 0 && currentLanguage == "en"
    {
      this.hasModal, this.hasModalImage := hasModal, hasModalImage;
      this.hasCounter, this.hasNavButtons := hasCounter, hasNavButtons;
      this.hasLangButton, this.hasMobileLangButton := hasLangButton, hasMobileLangButton;
      this.translatables := translatables;
      galleries := ImageGalleries();
      projectImages := map name | name in ImageGalleries() :: 0;
      this.cardImages, this.cardIndicators := cardImages, cardIndicators;
      currentGallery, currentImageIndex := None, 0;
      this.modal := modal;
      currentLanguage := "en";
      this.langButtonText, this.mobileLangButtonText := langButtonText, mobileLangButtonText;
    }

    /**
     * `changeProjectImage`: an unknown project changes nothing; otherwise only
     * that project's index moves, wrapping at both ends, and its card's image
     * and "i / n" indicator follow it.
     */
    method ChangeProjectImage(projectName: string, direction: int)
      requires Valid()
      modifies this`projectImages, this`cardImages, this`cardIndicators
      ensures Valid()
      ensures projectName !in galleries ==>
        && projectImages == old(projectImages)
        && cardImages == old(cardImages)
        && cardIndicators == old(cardIndicators)
      ensures projectName in galleries ==>
        var gallery := galleries[projectName];
        var index := CarouselStep(old(projectImages)[projectName], direction, |gallery|);
        && projectImages == old(projectImages)[projectName := index]
        && cardImages == (if projectName in old(cardImages)
                          then old(cardImages)[projectName := gallery[index]] else old(cardImages))
        && cardIndicators == (if projectName in old(cardIndicators)
                              then old(cardIndicators)[projectName := Indicator(index + 1, |gallery|)]
                              else old(cardIndicators))
    {
      if projectName !in galleries {
        return;
      }
      var gallery := galleries[projectName];
      var index := projectImages[projectName] + direction;
      // wrap around
      index := if index < 0 then |gallery| - 1 else if index >= |gallery| then 0 else index;
      assert index == CarouselStep(projectImages[projectName], direction, |gallery|);
      ghost var before := projectImages;
      projectImages := projectImages[projectName := index];
      forall name | name in projectImages
        ensures 0 <= projectImages[name] < |galleries[name]|
      {
        if name != projectName {
          assert projectImages[name] == before[name];
        }
      }
      ShowProjectImage(projectName);
    }

    /**
     * The "update image" half of `changeProjectImage`, once its delayed image
     * swap has run: the card's image and its "i / n" indicator, where they
     * exist, show the project's current index.
     */
    method ShowProjectImage(projectName: string)
      requires projectName in galleries && projectName in projectImages
      requires 0 <= projectImages[projectName] < |galleries[projectName]|
      modifies this`cardImages, this`cardIndicators
      ensures var gallery, index := galleries[projectName], projectImages[projectName];
        && cardImages == (if projectName in old(cardImages)
                          then old(cardImages)[projectName := gallery[index]] else old(cardImages))
        && cardIndicators == (if projectName in old(cardIndicators)
                              then old(cardIndicators)[projectName := Indicator(index + 1, |gallery|)]
                              else old(cardIndicators))
    {
      var gallery, index := galleries[projectName], projectImages[projectName];
      if projectName in cardImages {
        cardImages := cardImages[projectName := gallery[index]];
      }
      if projectName in cardIndicators {
        cardIndicators := cardIndicators[projectName := Indicator(index + 1, |gallery|)];
      }
    }

    /**
     * `openImageGallery`: a missing (or empty) gallery changes nothing;
     * otherwise the gallery and index are recorded as given, without a range
     * check, and the modal, when its elements exist, opens on that image.
     * A call without an index (`imageIndex = 0` by default) is
     * `OpenImageGallery(galleryName, 0)`.
     */
    method OpenImageGallery(galleryName: string, imageIndex: int)
      requires Valid()
      modifies this`currentGallery, this`currentImageIndex, this`modal
      ensures Valid()
      ensures galleryName !in galleries ==>
        currentGallery == old(currentGallery) && currentImageIndex == old(currentImageIndex) && modal == old(modal)
      ensures galleryName in galleries ==>
        && currentGallery == Some(galleryName)
        && currentImageIndex == imageIndex
        && modal == (if hasModal && hasModalImage
                     then Opened(old(modal), galleries[galleryName], imageIndex) else old(modal))
      ensures galleryName in galleries && 0 <= imageIndex < |galleries[galleryName]| ==>
        IndexInRange()
    {
      if galleryName !in galleries || |galleries[galleryName]| == 0 {
        return;
      }
      var gallery := galleries[galleryName];
      currentGallery := Some(galleryName);
      currentImageIndex := imageIndex;
      if hasModal && hasModalImage {
        ShowGallery(gallery);
      }
    }

    /**
     * The display half of `openImageGallery`: the modal opens on image
     * `currentImageIndex` of `gallery`, locks scrolling, and sets the counter
     * and the buttons where they exist.
     */
    method ShowGallery(gallery: seq<string>)
      modifies this`modal
      ensures modal == Opened(old(modal), gallery, currentImageIndex)
    {
      modal := modal.(src := ImageAt(gallery, currentImageIndex), active := true, scrollLocked := true);
      if hasCounter {
        modal := modal.(counter := Indicator(currentImageIndex + 1, |gallery|));
      }
      if hasNavButtons {
        modal := modal.(
          navVisible := NavVisible(|gallery|),
          prevDisabled := PrevDisabled(currentImageIndex),
          nextDisabled := NextDisabled(currentImageIndex, |gallery|));
      }
    }

    /**
     * `nextImage`: nothing happens with no gallery open or on the last image;
     * otherwise the index moves one forward and the modal follows.
     */
    method NextImage()
      requires Valid()
      modifies this`currentImageIndex, this`modal
      ensures Valid()
      ensures old(IndexInRange()) ==> IndexInRange()
      ensures currentGallery.None? ==> currentImageIndex == old(currentImageIndex) && modal == old(modal)
      ensures currentGallery.Some? ==>
        var gallery := galleries[currentGallery.value];
        && currentImageIndex == NextIndex(old(currentImageIndex), |gallery|)
        && modal == (if currentImageIndex != old(currentImageIndex) && hasModalImage
                     then Displayed(old(modal), gallery, currentImageIndex) else old(modal))
    {
      if currentGallery.None? {
        return;
      }
      var gallery := galleries[currentGallery.value];
      if currentImageIndex < |gallery| - 1 {
        currentImageIndex := currentImageIndex + 1;
        UpdateModalImage();
      }
    }

    /**
     * `previousImage`: nothing happens with no gallery open or on the first
     * image; otherwise the index moves one back and the modal follows.
     */
    method PreviousImage()
      requires Valid()
      modifies this`currentImageIndex, this`modal
      ensures Valid()
      ensures old(IndexInRange()) ==> IndexInRange()
      ensures currentGallery.None? ==> currentImageIndex == old(currentImageIndex) && modal == old(modal)
      ensures currentGallery.Some? ==>
        && currentImageIndex == PreviousIndex(old(currentImageIndex))
        && modal == (if currentImageIndex != old(currentImageIndex) && hasModalImage
                     then Displayed(old(modal), galleries[currentGallery.value], currentImageIndex)
                     else old(modal))
    {
      if currentGallery.None? {
        return;
      }
      if currentImageIndex > 0 {
        currentImageIndex := currentImageIndex - 1;
        UpdateModalImage();
      }
    }

    /**
     * `updateModalImage`, once its delayed update has run: when a known
     * gallery is open and the modal image exists, the image, the counter and
     * the button states show the current index; otherwise nothing changes.
     */
    method UpdateModalImage()
      modifies this`modal
      ensures modal == (if currentGallery.Some? && currentGallery.value in galleries && hasModalImage
                        then Displayed(old(modal), galleries[currentGallery.value], currentImageIndex)
                        else old(modal))
    {
      if currentGallery.None? || currentGallery.value !in galleries || !hasModalImage {
        return;
      }
      var gallery := galleries[currentGallery.value];
      // the counter and the buttons are written only when they exist
      modal := modal.(
        src := ImageAt(gallery, currentImageIndex),
        counter := if hasCounter then Indicator(currentImageIndex + 1, |gallery|) else modal.counter,
        prevDisabled := if hasNavButtons then PrevDisabled(currentImageIndex) else modal.prevDisabled,
        nextDisabled := if hasNavButtons then NextDisabled(currentImageIndex, |gallery|) else modal.nextDisabled);
    }

    /**
     * `closeImageModal`, once its delayed reset has run: when the modal's
     * elements exist the modal is hidden, scrolling is restored and the
     * gallery state goes back to none and index 0; otherwise nothing changes.
     */
    method CloseImageModal()
      requires Valid()
      modifies this`currentGallery, this`currentImageIndex, this`modal
      ensures Valid()
      ensures hasModal && hasModalImage ==>
        && currentGallery == None && currentImageIndex == 0
        && modal == old(modal).(active := false, scrollLocked := false)
        && IndexInRange()
      ensures !(hasModal && hasModalImage) ==>
        currentGallery == old(currentGallery) && currentImageIndex == old(currentImageIndex) && modal == old(modal)
    {
      if hasModal && hasModalImage {
        modal := modal.(active := false, scrollLocked := false);
        currentGallery := None;
        currentImageIndex := 0;
      }
    }

    /**
     * `toggleLanguage`: the language switches, the buttons that exist name the
     * other language, and every translatable element shows its variant for the
     * new language, as markup when either variant holds a tag.
     */
    method ToggleLanguage()
      requires Valid()
      modifies this`currentLanguage, this`langButtonText, this`mobileLangButtonText, translatables
      ensures Valid()
      ensures currentLanguage == Toggled(old(currentLanguage))
      ensures langButtonText == if hasLangButton then ButtonLabel(currentLanguage) else old(langButtonText)
      ensures mobileLangButtonText ==
                if hasMobileLangButton then ButtonLabel(currentLanguage) else old(mobileLangButtonText)
      ensures forall i :: 0 <= i < translatables.Length ==>
                translatables[i] == old(translatables[i]).(content := Render(old(translatables[i]), currentLanguage))
      ensures ShowsLanguage()
    {
      currentLanguage := if currentLanguage == "en" then "fr" else "en";
      if hasLangButton {
        langButtonText := if currentLanguage == "en" then "FR" else "EN";
      }
      if hasMobileLangButton {
        mobileLangButtonText := if currentLanguage == "en" then "FR" else "EN";
      }
      ApplyLanguage();
    }

    /**
     * The element update of `toggleLanguage`: every element carrying both
     * variants shows the one for the current language, as markup when either
     * variant holds a tag and as text otherwise.
     */
    method ApplyLanguage()
      modifies translatables
      ensures forall i :: 0 <= i < translatables.Length ==>
                translatables[i] == old(translatables[i]).(content := Render(old(translatables[i]), currentLanguage))
      ensures ShowsLanguage()
    {
      var i := 0;
      while i < translatables.Length
        invariant 0 <= i <= translatables.Length
        invariant forall k :: 0 <= k < i ==>
                    translatables[k] == old(translatables[k]).(content := Render(old(translatables[k]), currentLanguage))
        invariant forall k :: i <= k < translatables.Length ==> translatables[k] == old(translatables[k])
      {
        var element := translatables[i];
        var isMarkup := ContainsTag(element.en) || ContainsTag(element.fr);
        var textToUse := if currentLanguage == "en" then element.en else element.fr;
        assert element == old(translatables[i]);
        assert (if isMarkup then Markup(textToUse) else Plain(textToUse)) == Render(element, currentLanguage);
        translatables[i] := element.(content := if isMarkup then Markup(textToUse) else Plain(textToUse));
        i := i + 1;
      }
    }
  }

  /**
   * An open modal shows an image of the open gallery while the index is in
   * range, and the text "undefined" once an unchecked index left it.
   */
  lemma ModalShowsGalleryImage(p: PortfolioPage)
    requires p.Valid() && p.currentGallery.Some? && p.hasModal && p.hasModalImage
    ensures p.IndexInRange() ==> p.modal.src in p.galleries[p.currentGallery.value]
    ensures !p.IndexInRange() ==> p.modal.src == "undefined"
  {
  }
}
