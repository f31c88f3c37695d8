# Portfolio page behaviour, modelled in Dafny

This project models the state logic of a personal portfolio page's script
(`script.js`): the drifting particle background, the per-project image
carousels, the full-screen gallery viewer and the English/French switch.

- `wrappers.dfy` — `Option`, standing for JavaScript's `null`.
- `text.dfy` — the strings the script writes: decimal numerals, the
  `"i / n"` image counters with a parser that reads them back, and the markup
  test `/<[^>]*>/` as a scan proved equal to the regular expression.
- `galleries.dfy` — the fixed gallery table and the index rules: the carousel
  wraps at both ends, the modal viewer stops at both ends. It also holds the
  rules for the viewer's button states.
- `language.dfy` — the language toggle, the button label, and how each
  translatable element is rendered (text or markup, English or French).
- `particles.dfy` — `ParticleSystem`: a class over an array of particle
  records. The constructor samples them from given random draws and runs the
  first frame. `Animate` updates positions in place.
- `page.dfy` — `PortfolioPage`: a class holding the script's globals
  (`currentProjectImages`, `currentGallery`, `currentImageIndex`,
  `currentLanguage`) and the elements the handlers write. An element the
  document lacks is a `has…` constant set to false, or a project missing from
  the map of card elements. Writing to a missing element does nothing.
  `Valid()` is the invariant that every handler keeps:
  - every carousel index is inside its gallery;
  - an open gallery is one from the table;
  - when the modal's elements exist, the modal is active exactly while a
    gallery is open, and it shows that gallery's current image, counter and
    button states.

Two behaviours of the code are worth stating. The particle wrap
(`script.js:43-46`) checks `x < 0` first and then `x > width`, strictly. So
after a frame a coordinate lies in the closed range `[0, width]`. A coordinate
that goes negative becomes exactly `width`. A coordinate equal to `width`
stays there.

`openImageGallery` stores its index without checking the range. So "the index
is inside the open gallery" (`IndexInRange`) is kept by next, previous and
close. Open restores it only when it is given an index inside the gallery. An
index outside the gallery makes `gallery[i]` undefined, and assigning that to
the image's `src` gives the text `"undefined"`; `ImageAt` models exactly that.

## Model

| member | source | states |
|---|---|---|
| `Text.NatToString` | script.js:200 | the number printed in a counter is a non-empty string of digits, one digit exactly for 0-9, and with no leading zero (0 prints as "0") |
| `Text.DigitsValueOfNatToString` | script.js:200 | reading the printed digits back gives the number printed |
| `Text.ParseIntOfIntToString` | script.js:225 | every integer, negative ones included (an unchecked modal index), prints to a numeral that reads back to it |
| `Text.IndicatorRoundTrip` | script.js:200 | the counter text `${i} / ${n}` determines both numbers it shows |
| `Text.ContainsTagSound` | script.js:149 | whenever the scan reports markup, `/<[^>]*>/` matches: a `<`, later a `>`, no `>` between |
| `Text.ContainsTagComplete` | script.js:149 | whenever `/<[^>]*>/` matches, the scan reports markup |
| `Text.ContainsTagMatchesPattern` | script.js:149 | the scan and the regular expression agree on every string |
| `Text.NoAngleBracketNoTag` | script.js:149 | a string without `<` is never taken for markup |
| `Galleries.ImageGalleries` | script.js:79-109 | the table has exactly the six projects, and every gallery holds at least one image |
| `Galleries.CarouselStep` | script.js:176-183 | for any direction the new carousel index lies in `[0, len)`, a step that stays inside moves by exactly `direction`, a step below 0 lands on `len-1` and a step at or past `len` lands on 0 (not modular for larger steps) |
| `Galleries.CarouselWrapsForward` | script.js:181-183 | stepping +1 from the last image shows image 0 |
| `Galleries.CarouselWrapsBackward` | script.js:179-180 | stepping -1 from image 0 shows image `len-1` |
| `Galleries.CarouselStepsUndo` | script.js:176-183 | a +1 step and a -1 step undo each other, in either order |
| `Galleries.CarouselForwardIsModular` | script.js:176-183 | k steps forward from image i show image `(i + k) mod len`: the carousel is a ring |
| `Galleries.NextIndex` | script.js:252-253 | next keeps an in-range index in range and moves it by at most one |
| `Galleries.PreviousIndex` | script.js:260-261 | previous moves the index back by at most one and never below 0 |
| `Galleries.DisabledIffNoMove` | script.js:288-289 | inside a gallery, the prev button is disabled iff previous would not move, and the next button iff next would not move |
| `Galleries.NavButtonsFollowCount` | script.js:230-234 | with one image both buttons are disabled; with more images, never both |
| `Galleries.NextThenPrevious` | script.js:249-264 | away from the last image, next then previous returns to the same image |
| `Galleries.NextTimesClamps` | script.js:249-256 | k presses of next from i reach `min(i + k, len - 1)`: the viewer clamps and never wraps |
| `Language.Toggled` | script.js:129 | the toggle always yields "en" or "fr", it changes the language when the language is one of those two, and every code other than "en" switches to "en" |
| `Language.ToggleTwiceRestores` | script.js:129 | from "en" or "fr", two toggles restore the language |
| `Language.ButtonLabel` | script.js:136-139 | the button text is always "FR" or "EN" |
| `Language.ButtonNamesNextLanguage` | script.js:129-139 | for every language code, the button names the language a click switches to |
| `Language.Render` | script.js:145-157 | an element is written as markup iff either variant holds a tag, and it shows the English variant for "en" and the French one otherwise |
| `Language.RenderKindIndependentOfLanguage` | script.js:149-157 | an element never switches between text and markup when the language changes |
| `Language.NoAngleBracketIsPlain` | script.js:149-156 | variants without `<` are always written as plain text |
| `Language.TagMakesMarkup` | script.js:149-154 | an English variant holding a tag makes the element markup in both languages |
| `Particles.Wrap` | script.js:43-46 | a wrapped coordinate lies in `[0, limit]`; one already inside is kept; a negative one becomes `limit`; one beyond `limit` becomes 0 |
| `Particles.Step` | script.js:37-46 | after a frame the particle lies in `[0, width] x [0, height]`. Velocity, size and opacity are unchanged. A particle that stays inside moves by exactly its velocity |
| `Particles.AdvanceKeepsAttributes` | script.js:37-46 | over any number of frames a particle keeps its velocity, size and opacity |
| `Particles.AdvanceInBounds` | script.js:37-46 | after one or more frames a particle is on the canvas |
| `Particles.Spawn` | script.js:21-31 | a new particle starts on the canvas (strictly inside along any non-zero dimension), with velocity in `[-0.2, 0.2)`, size in `[1, 3.5)` and opacity in `[0.3, 0.9)` |
| `Particles.ParticleSystem.constructor` | script.js:3-14 | the canvas takes the viewport size, there are exactly 50 particles, and each is its sampled particle after the first frame |
| `Particles.ParticleSystem.InitParticles` | script.js:21-32 | particle i is built from draws 6i to 6i+5, in field order |
| `Particles.ParticleSystem.Animate` | script.js:34-47 | every particle becomes its one-frame `Step`; given the 50 particles, the count is unchanged and `Valid` holds afterwards: all particles end up on the canvas |
| `Page.ModalShowsGalleryImage` | script.js:219 | an open modal shows an image of the open gallery while the index is in range, and the text "undefined" once an unchecked index has left the range |
| `Page.PortfolioPage.constructor` | script.js:111-125 | at load every carousel shows image 0, no gallery is open, the index is 0 and the language is "en" |
| `Page.PortfolioPage.ChangeProjectImage` | script.js:165-202 | an unknown project changes nothing. Otherwise only that project's index changes, to `CarouselStep`, and its card image and `i+1 / len` indicator follow when those elements exist. `Valid` is kept |
| `Page.PortfolioPage.ShowProjectImage` | script.js:185-201 | with the project's index in range, the card image becomes that gallery image and the indicator becomes `index+1 / len`, each only where that element exists; no other card changes |
| `Page.PortfolioPage.OpenImageGallery` | script.js:205-247 | an unknown gallery changes nothing. Otherwise `(currentGallery, currentImageIndex)` becomes `(name, index)`. When the modal exists it opens on that image with its counter, nav visibility and disabled flags. An in-range index establishes `IndexInRange`. A call without an index is a call with index 0 |
| `Page.PortfolioPage.ShowGallery` | script.js:218-235 | the modal becomes `Opened`: it shows the gallery image at the current index, it is active and scrolling is locked. The counter and the nav buttons are set only where they exist |
| `Page.PortfolioPage.NextImage` | script.js:249-256 | with no gallery open nothing changes. Otherwise the index becomes `NextIndex` and the modal is redrawn only when the index moved. `Valid` and `IndexInRange` are kept |
| `Page.PortfolioPage.PreviousImage` | script.js:258-264 | with no gallery open nothing changes. Otherwise the index becomes `PreviousIndex` and the modal is redrawn only when the index moved. `Valid` and `IndexInRange` are kept |
| `Page.PortfolioPage.UpdateModalImage` | script.js:266-297 | when a known gallery is open and the modal image exists, the image, the counter and the button states show the current index; otherwise nothing changes |
| `Page.PortfolioPage.CloseImageModal` | script.js:329-350 | when the modal's elements exist, the modal is hidden, scrolling is restored and the state goes back to none/0; otherwise nothing changes |
| `Page.PortfolioPage.ToggleLanguage` | script.js:127-162 | the language becomes `Toggled`, the existing buttons show `ButtonLabel`, and every translatable element shows its `Render` for the new language with its variants untouched |
| `Page.PortfolioPage.ApplyLanguage` | script.js:143-158 | every translatable element shows its `Render` for the current language: markup when either variant contains a tag, plain text otherwise. The elements' variants are untouched |

## Left out

- Canvas drawing (`clearRect`, `arc`, `fill`, `stroke`) and the `requestAnimationFrame` loop (script.js:35, 48-52, 74) are rendering calls into the browser. `Advance` states what any number of frames does to one particle.
- The connection lines between close particles (script.js:55-72) use `Math.sqrt` and floating-point opacity. They draw and change no state.
- Particle arithmetic is over exact reals. IEEE double rounding of `x += vx` is not modelled.
- `Math.random` (script.js:24-29) becomes a sequence of draws in `[0, 1)` given to the constructor.
- `resizeCanvas` and the resize listeners (script.js:13, 16-19, 559-564) are not modelled. The viewport size is a constructor parameter. A resize would not move the particles, so `ParticleSystem.Valid` could be off until the next frame.
- If the canvas element is missing, the source constructor throws. The model assumes the canvas exists.
- Timers (script.js:193-196, 241-245, 278-295, 338-348) are modelled by the state they leave once they fire. Interleavings of several pending timers are not modelled. Opacity, transform and transition styles are not modelled.
- `changeProjectImage`'s `preventDefault`/`stopPropagation` on the click event (script.js:167-170) is not modelled.
- `direction` and `imageIndex` are integers in the model. The script accepts any JavaScript number, including fractions and NaN.
- Property lookups such as `imageGalleries["toString"]` find inherited object members in JavaScript. The model treats only the six table keys as galleries.
- Numerals use plain decimal digits. JavaScript's exponent form for magnitudes of 1e21 and above is not modelled.
- `openImageModal` (script.js:300-327), the single-image viewer, is not modelled. So is the counter display that `closeImageModal` restores for it (script.js:347).
- Saving the language to `localStorage` (script.js:161) and restoring it at load (script.js:413-442) are not modelled. The language is a free string, so a restored value such as "de" is covered by `Toggled` and `ButtonLabel`.
- The keyboard handler (script.js:570-578) only dispatches to close, previous and next.
- The mobile menu and its `isToggling` guard (script.js:353-404) are not modelled. Its point is timer-based re-entrancy.
- The scroll progress, navbar and back-to-top handlers, smooth scrolling, `IntersectionObserver`, mouse parallax, `toggleProjects` and `console.log` (script.js:463-531, 566, 581-622) are DOM plumbing.
