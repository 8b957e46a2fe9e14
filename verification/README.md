# Portfolio page: navigation, theme and particle field

A model of the stateful logic of a single-page React portfolio
(`src/Portfolio.jsx`). Almost all of that file is static layout; the model
covers the parts that compute or keep state:

- **Theme** (`theme.dfy`): the dark-mode flag of `useDarkMode`, its string
  form in local storage, the parse at start-up and the toggle button.
- **Sections** (`sections.dfy`): the section tracker's specification. The
  document is a map from element id to `(top, height)`; the scroll handler
  activates the first of the six sections, in declared order (home, about,
  experience, projects, education, contact), whose half-open range
  `[top, top + height)` holds the scroll offset plus 100, and keeps the
  previous section when none does.
- **Navigation** (`navigation.dfy`): class `PageState` with the active
  section, the scroll-to-top flag, the mobile-menu flag and the last scroll
  target requested of the window; its methods are the scroll handler (a
  loop with an early exit, proved against `Sections.ActiveAfterScroll`),
  jump-to-section, scroll-to-top and the menu toggle.
- **Particles** (`particles.dfy`): class `ParticleField` with the canvas
  size, the pointer and the current batch. A resize regenerates
  `min(floor(width / 10), 100)` particles from the random draws; a frame
  steps every particle in place (move, pointer nudge, reflection) and then
  runs the pairwise link pass, proved to visit each unordered pair once.
- **Cards** (`cards.dfy`): the tag chips of a project card and the link
  decision of a contact entry.

Random numbers, the pointer nudge's direction and the DOM are parameters:
`draw: nat -> Draw` supplies the six `Math.random()` values of particle
`i`; `push` gives the nudge for an offset within reach of the pointer; a
`Document` map from section to box stands for `getElementById` with
`offsetTop`/`offsetHeight`;
`window.scrollTo` is recorded in `PageState.scrollRequest`.

## Model

| member | source | states |
|---|---|---|
| Theme.Serialize | src/Portfolio.jsx:35 | the string stored for a flag parses back to that same flag |
| Theme.Parse | src/Portfolio.jsx:24-27 | a missing key reads as light mode, and a dark reading comes only from the exact stored string "true" (that "true" does read as dark is `Serialize`'s round trip) |
| Theme.ParseSerialize | src/Portfolio.jsx:24-35 | storing a flag and reading it back on a fresh load gives the same flag |
| Theme.ParseOnlyTrue | src/Portfolio.jsx:26 | every stored string other than "true" reads as light mode |
| Theme.SerializeInjective | src/Portfolio.jsx:35 | different flags are stored as different strings |
| Theme.ThemeStore.constructor | src/Portfolio.jsx:23-36 | on mount the flag is the parsed stored value and storage then holds its string form |
| Theme.ThemeStore.Toggle | src/Portfolio.jsx:348 | the toggle negates the flag, storage holds the new flag, and a reload reads it back |
| Sections.FirstHit | src/Portfolio.jsx:194-208 | a section the scan returns is one of the scanned ids, present in the document, whose range holds the position |
| Sections.ActiveAfterScroll | src/Portfolio.jsx:184-208 | the active section after a scroll is either the previous one or a declared section whose range holds offset + 100 |
| Sections.FirstHitIsFirst | src/Portfolio.jsx:194-206 | the returned section is at some index k, holds the position, and no section before k does: earlier sections win ties |
| Sections.FirstHitFound | src/Portfolio.jsx:194-206 | conversely, the first hit in declared order is what the scan returns |
| Sections.FirstHitNone | src/Portfolio.jsx:194-208 | the scan finds nothing exactly when no present section's range holds the position; absent sections are skipped |
| Sections.KeepsPreviousWhenNoHit | src/Portfolio.jsx:194-208 | when no section holds offset + 100 the previously active section is kept |
| Sections.StackedExample | src/Portfolio.jsx:184-206 | six sections 800 high stacked from 0: offset 750 activates About |
| Sections.BoundaryBelongsToLower | src/Portfolio.jsx:200-203 | in any document, an effective position equal to the bottom of one declared section and the top of the next (non-empty) one activates the lower section, unless a section declared earlier covers it |
| Navigation.PageState.constructor | src/Portfolio.jsx:149-151 | the page starts with "home" active, the button hidden and the menu closed |
| Navigation.PageState.HandleScroll | src/Portfolio.jsx:181-209 | after the loop the button flag is offset > 300 whatever the scan finds, the active section is `ActiveAfterScroll`, and the menu and scroll target are untouched |
| Navigation.PageState.ScrollToSection | src/Portfolio.jsx:216-226 | for a present id: scroll target top - 70, that id active, menu closed; for an absent id nothing changes |
| Navigation.PageState.ScrollToTop | src/Portfolio.jsx:228-233 | requests offset 0 and changes nothing else (active section and menu included) |
| Navigation.PageState.ToggleMobileMenu | src/Portfolio.jsx:358 | the menu button flips the menu flag and nothing else |
| Particles.ParticleCount | src/Portfolio.jsx:61 | the batch size is at most 100, at most width / 10, and equal to one of them, so it is `min(floor(width / 10), 100)`; 0 below width 10 |
| Particles.Scale | src/Portfolio.jsx:65-66 | a random coordinate lies in `[0, extent]`, and below the extent when the extent is positive |
| Particles.Spawn | src/Portfolio.jsx:64-71 | a new particle lies on the canvas, has radius in [1, 4), speeds in [-1, 1) and opacity in [0.1, 0.6) |
| Particles.Batch | src/Portfolio.jsx:59-73 | a batch has exactly `ParticleCount(width)` particles |
| Particles.Step | src/Portfolio.jsx:84-101 | position advances by velocity plus the pointer nudge; size and opacity are kept; each speed keeps its magnitude and, when non-zero, changes sign exactly when the new coordinate is below 0 or beyond the canvas edge |
| Particles.StepAwayFromPointer | src/Portfolio.jsx:88-97 | a particle out of the pointer's reach moves by exactly its velocity |
| Particles.StepInsideKeepsVelocity | src/Portfolio.jsx:99-101 | a particle that ends the frame inside the canvas keeps its velocity |
| Particles.ReflectionCanTrap | src/Portfolio.jsx:99-101 | since reflection only negates the speed, a particle left of the canvas by more than its speed, with the pointer out of reach in both frames, returns to the same place and speed after two frames, outside the canvas |
| Particles.PairsBeforeMembers | src/Portfolio.jsx:105-106 | after rows 0 .. i - 1 the visited pairs are exactly those (a, b) with a < i and a < b < n |
| Particles.PairsBeforeIncreasing | src/Portfolio.jsx:105-106 | pairs are visited in strictly increasing order, first by i then by j |
| Particles.PairsBeforeLength | src/Portfolio.jsx:105-106 | after i rows the pass has made i (2n - i - 1) / 2 comparisons |
| Particles.PairsExactlyOnce | src/Portfolio.jsx:105-106 | the link pass visits every unordered pair i < j < n, nothing else, none twice, n (n - 1) / 2 in all |
| Particles.Links | src/Portfolio.jsx:104-121 | a pair is linked exactly when it was compared and its particles are within squared distance 10000 |
| Particles.LinkedIffClose | src/Portfolio.jsx:107-111 | particles i and j are joined by a line exactly when i < j < n and they are closer than 100 |
| Particles.ConnectParticles | src/Portfolio.jsx:104-121 | the nested pass compares exactly `Pairs(n)` and returns the lines `Links` selects, in drawing order |
| Particles.ConnectFrom | src/Portfolio.jsx:106-120 | the inner pass for particle i appends row i to the compared pairs and the close ones to the lines drawn |
| Particles.ParticleField.constructor | src/Portfolio.jsx:131-135 | the mount (`resizeCanvas()` then `drawParticles()`) is this constructor followed by one `Tick`: the pointer is at the origin, the canvas has the window's size and the first batch is generated |
| Particles.ParticleField.Resize | src/Portfolio.jsx:53-57 | a resize sets the canvas size and replaces the whole batch by a fresh one; the pointer is kept |
| Particles.ParticleField.CreateParticles | src/Portfolio.jsx:59-73 | the old particles are discarded and `ParticleCount(width)` new ones pushed, particle i from draw i |
| Particles.ParticleField.MouseMove | src/Portfolio.jsx:126-129 | the pointer handler records the pointer position |
| Particles.ParticleField.Tick | src/Portfolio.jsx:75-124 | every particle is replaced by its `Step` in place, the count is kept, and the lines drawn are the links among the moved particles |
| Cards.Chips | src/Portfolio.jsx:1005-1012 | the shown tags are a prefix of the tags of length min(3, number of tags); a "+N" chip appears exactly when there are more than three, and shown plus N equals the number of tags, so N is the number of tags less three |
| Cards.ContactView | src/Portfolio.jsx:1079-1090 | the displayed text is always the value; it renders as a link exactly when a non-empty address is given, and with no address or the empty one it is plain text; a link always points at the given non-empty address and opens a new tab exactly when that address begins with "http"; per kind of address this is WebAddressOpensNewTab and PhoneOrMailStaysInTab |
| Cards.StartsWithConcat | src/Portfolio.jsx:1083 | a string starts with each of its prefixes |
| Cards.WebAddressOpensNewTab | src/Portfolio.jsx:1083-1084 | an "https://" or "http://" address opens in a new tab |
| Cards.PhoneOrMailStaysInTab | src/Portfolio.jsx:1083-1084 | a "tel:" or "mailto:" address opens in the same tab |

## Left out

- Canvas drawing (`clearRect`, `arc`, `fill`, `stroke`, colour strings) and the link opacity `0.1 * (1 - d / 100)`: rendering and floating-point output; a drawn line is modelled as the index pair it joins.
- Particles.Repel: the direction and size of the nudge (`atan2`, `cos`, `sin`, the 0.5 step) are the parameter `push`; only the reach test is modelled, on squared distance instead of `Math.sqrt`.
- Particles.Step, Particles.Spawn: coordinates are exact reals, not IEEE doubles.
- `Math.random`: the draws are the parameter `draw`, each value in `[0, 1)`.
- `requestAnimationFrame` / `cancelAnimationFrame`, listener registration and removal, and the delayed custom cursor: timing and event plumbing; `Tick` is one frame.
- Section ids are the datatype `Sections.Section` rather than strings: every call site passes one of the six names, so `scrollToSection` with any other string is not modelled.
- The DOM: `getElementById`, `offsetTop` and `offsetHeight` are the `Document` map; offsets are integers, so a fractional `window.scrollY` is not modelled. Smooth scrolling is not modelled; `window.scrollTo` only records its target.
- `localStorage` I/O and the `dark-mode` class on the document root: only the stored string is modelled.
- The project detail modal (`currentProject`), framer-motion animations, and the static content (projects, experience, education, contact cards): presentation over constant data.
