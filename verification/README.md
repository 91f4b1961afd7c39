# Portfolio page behaviour, modelled in Dafny

This project models the sequential logic of the portfolio page script
`main.js`:

- the **index wrap** shared by the project image sliders (`updateSlider`)
  and the image lightbox (`navigateLightbox`): below 0 goes to the last
  slot, at or past the end goes to slot 0 (module `Cycle`, file `cycle.dfy`);
- a **slider** with its current index and its row of dots: after every
  update a dot is active exactly when its position is the current index, so
  a slider with as many dots as images (every slider in the project
  descriptions, main.js:191-246) has exactly one active dot (module
  `Slider`, `slider.dfy`);
- the **project lookup**: a card id minus its first `"project-"`, looked up
  among the keys of the project table (module `ProjectLookup`,
  `project_lookup.dfy`; `Option` in `wrappers.dfy`);
- the **modal and lightbox state** of the page: modal body, display and
  `active` class, the body's scroll lock, the lightbox's `active` class,
  gallery, current image and arrow visibility, and the keyboard handler
  (module `Viewer`, `viewer.dfy`);
- the **particle store** of the `Background` canvas animation: `init`
  building one record per random draw, and the per-frame move-and-wrap
  (module `Particles`, `particles.dfy`).

Points of the particle behaviour worth knowing:

- The wrap of a particle is inclusive at the far edge. A particle that
  leaves below 0 lands exactly on `width` (or `height`). One that moves onto
  the far edge stays there. Positions lie in `[0, width] × [0, height]`. A
  particle at (99, 50) moving by (1, 0) on a 100 × 100 canvas ends at
  (100, 50) and wraps to (0, 50) only on the frame after
  (`RightEdgeIsReachable`).
- `resize` only records the new canvas size and keeps the particles:
  `init` runs once, from the constructor. Particles outside a smaller canvas
  come back onto it at their next frame (`Background.Animate`,
  `FramesKeepStore`).
- The constructor runs the first frame itself, right after `init`, before
  any pointer event; so a new background's particles have already moved
  once, without repulsion.
- The pointer-repulsion displacement is written into the stored position
  (`p.x -= …`), so it carries over from frame to frame. `Advance` subtracts
  it before adding the velocity.
- The class has no `stop` method, so there is no stopped state.

Random draws (`Math.random()`), canvas sizes (`offsetWidth`/`offsetHeight`
or the window size), the per-particle repulsion vector, which key was
pressed and which card or image was clicked are all inputs of the model's
methods.

## Model

| member | source | states |
|---|---|---|
| `Cycle.Wrap` | main.js:678-681 | a request below 0 gives `length - 1`; a request at or past `length` gives 0; an in-range request is kept; with at least one slot the result is a valid slot (with none, a negative request gives -1) |
| `Cycle.Step` | main.js:775-777 | from a valid index the step stays in range; a step that stays inside moves by exactly `direction`; next from the last image gives 0 and previous from 0 gives the last |
| `Cycle.StepIsModular` | main.js:774-777 | from a valid index, a ±1 step of `navigateLightbox` equals `(index ± 1) mod length` |
| `Cycle.StepRoundTrip` | main.js:774-777 | a forward step followed by a backward step restores the index, and the other way round |
| `Cycle.PressesAreModular` | main.js:794-802 | `k` presses of one arrow from a valid index land on `(index + direction·k) mod length` |
| `Cycle.FullLap` | main.js:774-777 | `length` presses in one direction return to the starting image |
| `Slider.OnlyCurrentSet` | main.js:685-687 | when only the dot at the current index is set, exactly one dot is active if the index names a dot, and none otherwise |
| `Slider.Slider.constructor` | main.js:676 | a slider starts at index 0, with the dots as the page marked them |
| `Slider.Slider.Update` | main.js:678-688 | the index becomes the wrapped request; each dot is active exactly when its position equals the new index; the active count is 1 when the index names a dot, and always 1 when the slider has as many dots as images and at least one image; a slider with images keeps its index in range |
| `Slider.Slider.Previous` | main.js:690-693 | the index becomes one step back, wrapping from 0 to the last image; the dots follow |
| `Slider.Slider.Next` | main.js:695-698 | the index becomes one step forward, wrapping from the last image to 0; the dots follow |
| `Slider.Slider.SelectDot` | main.js:700-705 | the index becomes the dot's `data-index`, wrapped; the dots follow |
| `ProjectLookup.FindFrom` | main.js:650 | the result is the first position at or after `from` where the pattern occurs; `None` exactly when it occurs nowhere from there |
| `ProjectLookup.ReplaceFirst` | main.js:650 | with a string pattern, only the first occurrence is replaced and the text around it is kept; a string without the pattern is returned unchanged |
| `ProjectLookup.CardKey` | main.js:650 | the key equals the id exactly when `"project-"` occurs nowhere in it; otherwise it is 8 characters shorter |
| `ProjectLookup.CardKeyCutsFirstOccurrence` | main.js:650 | the key is the card id with only its first `"project-"` removed; text before and after it is kept |
| `ProjectLookup.CardKeyWithoutPrefix` | main.js:650 | an id that contains no `"project-"` is its own key |
| `ProjectLookup.CardKeyOfPrefixed` | main.js:650 | the id `"project-" + key` gives back `key`, whatever `key` contains |
| `ProjectLookup.Lookup` | main.js:651-653 | a project is found exactly when the derived key is one of the table's keys `dentalstock`, `autolabai`, `perezoso`, and it is that key |
| `ProjectLookup.LookupPrefixed` | main.js:650-653 | the card `project-<key>` opens `<key>` exactly when the table has that key |
| `Viewer.ArrowDisplay` | main.js:764-772 | the arrows are hidden exactly when the gallery has at most one image, and shown exactly when it has more |
| `Viewer.Page.constructor` | main.js:734-735 | the page starts with nothing open, an empty gallery and image index 0 |
| `Viewer.Page.OpenCard` | main.js:649-664 | with a known key: the modal body holds that project, the modal is displayed and the page is locked, and the lightbox state is kept; with an unknown key: nothing changes |
| `Viewer.Page.ActivateModal` | main.js:656-657 | the deferred step of opening makes the modal active |
| `Viewer.Page.CloseModal` | main.js:710-711 | closing makes the modal inactive at once |
| `Viewer.Page.FinishCloseModal` | main.js:712-714 | the deferred step of closing hides the modal and unlocks scrolling |
| `Viewer.Page.UpdateLightboxNav` | main.js:764-772 | both arrows are hidden for a gallery of at most one image and shown otherwise |
| `Viewer.Page.OpenImage` | main.js:738-755 | the gallery and index become those of the clicked image; the lightbox is active; the page is locked; the arrows match the gallery; the modal is untouched |
| `Viewer.Page.CloseLightbox` | main.js:757-762 | the lightbox always becomes inactive; overflow becomes `auto` only when the modal is not active, and otherwise keeps its value |
| `Viewer.Page.NavigateLightbox` | main.js:774-777 | the image index takes one wrapped step in the given direction and stays within a non-empty gallery |
| `Viewer.Page.KeyDown` | main.js:805-811 | with the lightbox inactive, no key changes anything; with it active, Escape closes it, the left and right arrows step back and forward, and any other key changes nothing; the arrow keys leave the scroll lock and the lightbox's `active` class alone; the modal, gallery and arrows are never touched |
| `Particles.Spawn` | main.js:42-49 | from draws in [0,1): x in [0,width), or 0 when width is 0, and likewise y; size in [0.5,2.5); both velocity components in [-0.15,0.15); opacity in [0.1,0.6) |
| `Particles.Spawned` | main.js:40-50 | one particle per draw, in draw order, each with size, velocity and opacity in their ranges |
| `Particles.Advance` | main.js:74-93 | after the repulsion, the move and the wrap, the particle is on the canvas, edges included, whatever its previous position; its size, velocity and opacity are unchanged |
| `Particles.WrapCoordinate` | main.js:90-93 | a coordinate that stays in range is kept; one below 0 lands exactly on the far edge; one past the far edge lands on 0 |
| `Particles.AdvanceWithoutPointer` | main.js:66-93 | with no repulsion, a particle whose move stays on the canvas ends exactly at position plus velocity |
| `Particles.Frame` | main.js:66-94 | a frame keeps the number of particles |
| `Particles.Frames` | main.js:53-97 | a sequence of frames, each with its own repulsions, keeps the number of particles |
| `Particles.FramesKeepStore` | main.js:53-97 | any number of frames, with any repulsions, keeps every particle's size, velocity and opacity; after at least one frame every particle is on the canvas, whatever the size it was created for |
| `Particles.RightEdgeIsReachable` | main.js:87-93 | (99,50) moving by (1,0) on a 100×100 canvas ends at (100,50); the frame after that wraps it to (0,50) |
| `Particles.Background.constructor` | main.js:3-14 | without a canvas the store stays empty and inert; with one, it records the size, spawns `particleCount` particles from the draws and runs one frame without repulsion, so every particle is on the canvas |
| `Particles.Background.Resize` | main.js:31-37 | the size becomes the new layout size and the particles are kept |
| `Particles.Background.Init` | main.js:39-51 | the old particles are discarded; the new list is exactly the draws' spawned particles, `particleCount` of them, entry `i` from draw `i` |
| `Particles.Background.Animate` | main.js:66-94 | the particles become the frame of the old particles with the given repulsions; afterwards every particle is on the canvas and keeps its attributes |

## Left out

- Canvas drawing is not modelled: the clear, the radial-gradient background and the circle per particle. Neither is the `requestAnimationFrame` chain. `Background.Animate` models only one frame's change to the particle store.
- The pointer-repulsion vector is computed with `Math.sqrt` and divides by the distance. At distance 0 that gives NaN, which then stays in the stored position. This is floating-point behaviour, so the model takes the displacement as an input (`Repulsion`) rather than computing it. The pointer state and the `mousemove` handler that writes it are left out for the same reason.
- Floating point: positions, draws and attributes are real numbers. In IEEE doubles, the rounding of `Math.random() * 2 + 0.5` and similar expressions can reach the upper bound of a range that the real-number model proves half-open.
- `Math.random()` and the layout sizes are method inputs, not modelled sources.
- Event wiring, `setTimeout` delays and the modal's second `Background` (created on first open) are not modelled. The modal's open and close are split into an immediate method and a deferred method (`ActivateModal`, `FinishCloseModal`), and the model does not constrain their order. `modalBackground.stop()` calls a method that `Background` does not define, so nothing after that call in the close timer runs. This is not modelled.
- The spotlight CSS variables, the slider's `translateX` string, the lightbox image source and opacity fade, the section fade-in observer and the injected stylesheet are presentation only.
- The project table's HTML descriptions are page content; the model keeps only its three keys. A key inherited by every JavaScript object (such as `constructor`) would also be truthy in the table; the model looks up own keys only.
- `Slider.Slider.SelectDot`: a `data-index` that `parseInt` reads as NaN is not modelled. The input is an integer.
- `Viewer.Page.OpenImage`: requires the clicked position to be in range. The click test also accepts an image that itself carries the class `modal-gallery-card`, and the collection would miss such an image, so `indexOf` would return -1. No image of that kind occurs in the project descriptions (main.js:101-636), so every image the handler accepts is collected.
