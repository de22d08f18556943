# SICAF Engineering website: animation and form rules

This project models the small deterministic rules inside the animation and form
components of the SICAF Engineering marketing website, and proves properties of them.
Each core source file has its own module:

- `SplitText` splits a text into words and letters, gives each unit a start delay, and renders the text back.
- `Cursor` is the custom cursor of the landing page. It covers the hover-type state machine with its four presets, the pointer offset, the trail of the six most recent pointer samples, and the fading ghosts drawn from that trail.
- `Parallax` is the parallax background section. It covers the mobile speed cap, the direction-to-axis-and-sign mapping, the three switches that turn the motion off, the layout-shift ("jank") cooldown timers, the blur placeholder chosen from the image path, and the gradient overlay.
- `SectionReveal` covers the choice among the five reveal overlays, the rendering with exactly one overlay or none, the stagger of the children, and the clamped pointer-to-tilt mapping of the fifth overlay. That overlay takes no pointer events, so in the page it always stays level.
- `ServiceCard` and `CaseStudyReveal` are the two tilting cards. Both use the pointer-tilt formula in `Tilt`, with spans of 14 and 10 degrees. `CaseStudyReveal` also covers the ordered start times of the card's reveal layers. The shimmer layer is not among them: its second `animate` attribute replaces its reveal variant.
- `AnimatedScroll` covers the signed entry offsets, the staggered delay, the choice between the caller's variants and the defaults, and the word and character splitting of `AnimatedText`.
- `Loader` covers the progress loop of the splash screen, which climbs towards 100 and stays below it until the page is loaded, and the timers that then remove the splash.
- `FullTransition` covers the debounced full-screen cover and uncover, and the hook that fails without its provider.
- `Contact` covers the contact form schema, with one length rule per field, the optional phone and an opaque e-mail check, and the "message sent" flag.

`JsString` holds the JavaScript built-ins these components rely on, written over `seq<char>`: `split` with `" "` and with `""`, `join`, `includes`, `replace` (first occurrence only) and `slice` with a negative start. `Wrappers` holds `Option` and `Result`.

How the source is modelled:

- Component state that event handlers change becomes a class whose methods are those handlers. This applies to the cursor, the parallax section, the reveal section, both cards, the loader, the transition provider and the contact form.
- A `setTimeout` becomes a deadline appended to a field. `Timers` states when one may run: a firing method takes the current time and the index of a pending timer that is due and has the earliest deadline.
- `requestAnimationFrame` loops become frame methods, and a loop that runs `n` frames.
- JavaScript numbers are exact reals.
- The current time, `Math.random()` draws, `Math.sin(index)`, the value of a non-linear easing curve and the e-mail format check are parameters.

## Model

| member | source | states |
|---|---|---|
| JsString.Split | sicaf-engineering/src/components/ui/SplitText.tsx:32 | `split(" ")` always yields at least one piece, and no piece contains the separator |
| JsString.JoinSplit | sicaf-engineering/src/components/ui/SplitText.tsx:32 | joining the pieces of `split(sep)` with `sep` gives the original string back |
| JsString.ConcatSplit | sicaf-engineering/src/components/ui/SplitText.tsx:34 | concatenating the pieces of `split(sep)` gives the string with every `sep` removed |
| JsString.Chars | sicaf-engineering/src/components/ui/animated-scroll.tsx:185 | `split("")` gives one one-character piece per character, and none for `""` |
| JsString.ConcatChars | sicaf-engineering/src/components/ui/SplitText.tsx:34 | concatenating the characters of `split("")` gives the string back |
| JsString.SliceFrom | sicaf-engineering/src/app/page.tsx:86 | `slice(start)` is a suffix of the array; a negative start keeps at most `-start` elements, and a non-negative start drops `start` elements |
| JsString.ReplaceFirstAtStart | sicaf-engineering/src/components/ui/parallax-section.tsx:220 | `replace` on a string that starts with the pattern swaps that prefix only |
| JsString.ReplaceFirstAbsent | sicaf-engineering/src/components/ui/parallax-section.tsx:220 | `replace` leaves a string without the pattern unchanged |
| SplitText.WordUnits | sicaf-engineering/src/components/ui/SplitText.tsx:34-36 | a word yields at least one unit, and its units concatenate to the word. Words mode gives the word itself. Other modes give one single-letter unit per letter, in order, and exactly one empty placeholder for an empty word |
| SplitText.SplitArr | sicaf-engineering/src/components/ui/SplitText.tsx:32-36 | one non-empty group per word of `text.split(" ")`, in order: each group is that word's units for the mode, and concatenates to the word |
| SplitText.EmptyTextIsOnePlaceholder | sicaf-engineering/src/components/ui/SplitText.tsx:32-36 | in every mode `""` is one word holding one empty placeholder unit |
| SplitText.RenderedJoins | sicaf-engineering/src/components/ui/SplitText.tsx:93-111 | rendering groups equals joining their words with spaces, or concatenating them in letters mode |
| SplitText.SpacedRoundTrip | sicaf-engineering/src/components/ui/SplitText.tsx:93-111 | in words and both modes the rendered text is exactly the input text |
| SplitText.LettersRoundTrip | sicaf-engineering/src/components/ui/SplitText.tsx:93-111 | in letters mode the rendered text is the input with every space removed |
| SplitText.TwoWordsInLetters | sicaf-engineering/src/components/ui/SplitText.tsx:32-47 | "A B" in letters mode is two single-letter groups, and the second group starts later |
| SplitText.UnitDelay | sicaf-engineering/src/components/ui/SplitText.tsx:39-87 | grow, slide and fade delay each unit by `delay + wordIdx*f + index*stagger`; wave stays within 0.04 of its linear part |
| SplitText.WordFactor | sicaf-engineering/src/components/ui/SplitText.tsx:47-81 | the per-word factor of every effect lies between 0.04 and 0.06 |
| SplitText.UnitDuration | sicaf-engineering/src/components/ui/SplitText.tsx:80 | only the fade effect shortens the duration, to a positive value below it |
| SplitText.DelayIncreasesWithIndex | sicaf-engineering/src/components/ui/SplitText.tsx:47-81 | with a positive stagger, grow, slide and fade delays strictly grow with the unit index inside a word |
| SplitText.DelayIncreasesWithWord | sicaf-engineering/src/components/ui/SplitText.tsx:47-81 | grow, slide and fade delays strictly grow with the word index at a fixed unit index |
| SplitText.DelayDropsAtWordBoundary | sicaf-engineering/src/components/ui/SplitText.tsx:47-81 | delays are not monotone across words: a late unit of one word starts after the first unit of the next |
| SplitText.DefaultStaggerDropsByThirdLetter | sicaf-engineering/src/components/ui/SplitText.tsx:22-26 | with the default stagger the drop occurs by the third letter of every word |
| Cursor.HoverType | sicaf-engineering/src/app/page.tsx:42-76 | "button", "audio" and "card" select their own type; every other input, null included, selects the default |
| Cursor.Preset | sicaf-engineering/src/app/page.tsx:42-76 | every preset scale is at least 1, and it is exactly 1 only for the default |
| Cursor.AppearanceOf | sicaf-engineering/src/app/page.tsx:185-212 | every non-default type brightens the disc, enlarges the ring and sharpens its blur; the audio ring spins in 2 s instead of 5 s |
| Cursor.NextTrail | sicaf-engineering/src/app/page.tsx:86 | a frame ends the trail with the latest sample and adds at most one entry |
| Cursor.TrailWindow | sicaf-engineering/src/app/page.tsx:86 | with at least two ghosts, a frame keeps the `numGhosts-1` most recent entries and appends the latest, so at most `numGhosts` remain |
| Cursor.OneGhostTrailGrows | sicaf-engineering/src/app/page.tsx:86 | with one ghost `slice(-0)` keeps everything, so the trail grows without bound |
| Cursor.FrameKeepsWindow | sicaf-engineering/src/app/page.tsx:83-87 | a frame maps the window of the samples so far to the window of the samples including the new one |
| Cursor.TrailIsMostRecent | sicaf-engineering/src/app/page.tsx:80-92 | after any number of frames from the empty trail, the trail is the most recent min(n, 6) samples, oldest first |
| Cursor.GhostOpacity | sicaf-engineering/src/app/page.tsx:163 | ghost opacity lies in [0.10, 0.28) |
| Cursor.GhostBlur | sicaf-engineering/src/app/page.tsx:164 | ghost blur is an even number of pixels, at least 2 |
| Cursor.GhostsStrengthen | sicaf-engineering/src/app/page.tsx:163-164 | newer ghosts are strictly more opaque and more blurred |
| Cursor.CustomCursor.constructor | sicaf-engineering/src/app/page.tsx:26-35 | starts with the default type and preset, the pointer at the origin and an empty trail |
| Cursor.CustomCursor.SetType | sicaf-engineering/src/app/page.tsx:42-77 | the new type is `HoverType(t)` and its preset, and the position and trail are unchanged |
| Cursor.CustomCursor.Move | sicaf-engineering/src/app/page.tsx:96-99 | the disc corner goes to the pointer minus 18 on each axis |
| Cursor.CustomCursor.Frame | sicaf-engineering/src/app/page.tsx:82-89 | one frame samples the pointer; the trail stays the window of the six most recent samples |
| Cursor.SetTypeTwice | sicaf-engineering/src/app/page.tsx:42-77 | `setType` is idempotent, and null acts as "default" |
| Tilt.CentreIsLevel | sicaf-engineering/src/components/sections/services.tsx:30-33 | the pointer at the exact centre of the box leaves the element level |
| Tilt.InsideIsBounded | sicaf-engineering/src/components/sections/services.tsx:30-33 | inside the box neither angle exceeds half the span |
| Tilt.TiltFollowsPointer | sicaf-engineering/src/components/sections/services.tsx:30-33 | right of centre exactly when `rotateY > 0`, below centre exactly when `rotateX < 0` |
| ServiceCard.CardTransform | sicaf-engineering/src/components/sections/services.tsx:51-53 | tilted and scaled 1.03 exactly when hovered on a non-touch device, otherwise `scale(1)` |
| ServiceCard.TiltWithinSeven | sicaf-engineering/src/components/sections/services.tsx:29-33 | over the card both angles stay within 7 degrees |
| ServiceCard.TiltDirection | sicaf-engineering/src/components/sections/services.tsx:30-33 | level at the centre, and turns towards the pointer in both directions |
| ServiceCard.Card.constructor | sicaf-engineering/src/components/sections/services.tsx:21-24 | starts level, not hovered, with the touch flag fixed |
| ServiceCard.Card.MouseMove | sicaf-engineering/src/components/sections/services.tsx:27-35 | on touch devices nothing changes; otherwise the tilt is the pointer tilt with span 14 |
| ServiceCard.Card.MouseLeave | sicaf-engineering/src/components/sections/services.tsx:36-39 | level and not hovered, so the card shows `scale(1)` |
| ServiceCard.Card.MouseEnter | sicaf-engineering/src/components/sections/services.tsx:40 | hovered and the tilt kept; the card tilts exactly when it is not on a touch device |
| CaseStudyReveal.EffectiveAnimate | sicaf-engineering/src/components/ui/SectionRevealCaseStudy.tsx:137-145 | of the `animate` attributes written on one element, the last one is the value the element gets |
| CaseStudyReveal.LayerOffset | sicaf-engineering/src/components/ui/SectionRevealCaseStudy.tsx:73-174 | every layer except the shimmer starts its reveal at most 0.26 s after the base delay, and only the card starts at the base delay itself. The shimmer has no reveal start |
| CaseStudyReveal.ShimmerNeverReveals | sicaf-engineering/src/components/ui/SectionRevealCaseStudy.tsx:96-101 | the shimmer's looping `animate` wins over its variant label, so its reveal at `delay+0.22` never plays; exactly the other six layers reveal |
| CaseStudyReveal.LayerStarts | sicaf-engineering/src/components/ui/SectionRevealCaseStudy.tsx:73-174 | one start time per revealed layer |
| CaseStudyReveal.LayerStartsOrdered | sicaf-engineering/src/components/ui/SectionRevealCaseStudy.tsx:73-174 | the layer starts begin at the delay, are ordered, and lie within [delay, delay+0.26] |
| CaseStudyReveal.InteractiveStyle | sicaf-engineering/src/components/ui/SectionRevealCaseStudy.tsx:111-115 | the current tilt while hovered, level otherwise |
| CaseStudyReveal.TiltWithinFive | sicaf-engineering/src/components/ui/SectionRevealCaseStudy.tsx:36-38 | over the card both angles stay within 5 degrees, and the centre is level |
| CaseStudyReveal.CaseStudyCard.constructor | sicaf-engineering/src/components/ui/SectionRevealCaseStudy.tsx:29-30 | starts level and not hovered |
| CaseStudyReveal.CaseStudyCard.MouseMove | sicaf-engineering/src/components/ui/SectionRevealCaseStudy.tsx:33-40 | the tilt is the pointer tilt with span 10 |
| CaseStudyReveal.CaseStudyCard.MouseLeave | sicaf-engineering/src/components/ui/SectionRevealCaseStudy.tsx:41-44 | level and not hovered, so the hover target is level |
| CaseStudyReveal.CaseStudyCard.MouseEnter | sicaf-engineering/src/components/ui/SectionRevealCaseStudy.tsx:45 | hovered, so the hover target is the current tilt |
| Parallax.EffectiveSpeed | sicaf-engineering/src/components/ui/parallax-section.tsx:128 | the speed itself on desktop; on mobile at most 0.15 and at most 0.6 times the speed, equal to one of the two |
| Parallax.EasingCurve | sicaf-engineering/src/components/ui/parallax-section.tsx:136-143 | control points lie in the unit square, and the curve is the identity exactly for names other than the three named curves |
| Parallax.Eased | sicaf-engineering/src/components/ui/parallax-section.tsx:145-153 | the identity curve leaves the progress unchanged |
| Parallax.AxisOf | sicaf-engineering/src/components/ui/parallax-section.tsx:184-187 | up and down move along y, left and right along x |
| Parallax.EndOffset | sicaf-engineering/src/components/ui/parallax-section.tsx:148-171 | the end offset is `-speed*100%` for up and left and `+speed*100%` for down and right |
| Parallax.OffsetEndpoints | sicaf-engineering/src/components/ui/parallax-section.tsx:148-171 | the offset is 0% at the start of the scroll range and the end offset at its end |
| Parallax.OffsetBounded | sicaf-engineering/src/components/ui/parallax-section.tsx:148-171 | in between, the offset keeps the end's sign and its magnitude stays at most `speed*100` |
| Parallax.LinearHalfway | sicaf-engineering/src/components/ui/parallax-section.tsx:141-153 | with linear easing, half-way through the range an up image sits at `-speed*50%` |
| Parallax.Section.Style | sicaf-engineering/src/components/ui/parallax-section.tsx:128-199 | no translation exactly when the prop, the jank cooldown or reduced motion switches it off; otherwise a translation along the direction's axis by `Offset` at the effective (mobile-capped) speed and the eased progress, which is the progress itself for the linear curve |
| Parallax.MotionStyle | sicaf-engineering/src/components/ui/parallax-section.tsx:184-199 | a translation is applied exactly when none of the three switches is on, along the direction's axis |
| Parallax.JankCount | sicaf-engineering/src/components/ui/parallax-section.tsx:102-104 | the count is zero exactly when no entry is a layout shift above 0.05 |
| Parallax.BlurPlaceholder | sicaf-engineering/src/components/ui/parallax-section.tsx:59-74 | an absent or empty path gives the default placeholder. Light or white hints give the light one, dark or black hints without light ones give the dark one, and anything else gives the neutral one |
| Parallax.LightWinsOverDark | sicaf-engineering/src/components/ui/parallax-section.tsx:63-67 | a path with both light and dark hints gets the light placeholder |
| Parallax.GradientDirectionRewrite | sicaf-engineering/src/components/ui/parallax-section.tsx:220 | direction `to-XX` is written `to XX` in the gradient |
| Parallax.OverlayBackground | sicaf-engineering/src/components/ui/parallax-section.tsx:217-220 | a flat colour exactly when no gradient is asked for. Otherwise it is the gradient `linear-gradient(<direction with its first "to-" as "to "> , <from>, <to>)` |
| Parallax.OverlayGradientCss | sicaf-engineering/src/components/ui/parallax-section.tsx:220 | a direction `to-XX` gives the overlay `linear-gradient(to XX , from, to)` |
| Parallax.Section.constructor | sicaf-engineering/src/components/ui/parallax-section.tsx:40-56 | starts as desktop with no reduced motion, no jank cooldown and no timers |
| Parallax.Section.Resize | sicaf-engineering/src/components/ui/parallax-section.tsx:78-80 | mobile exactly when the width is below 768 |
| Parallax.Section.ReducedMotionChanged | sicaf-engineering/src/components/ui/parallax-section.tsx:83-87 | the preference follows the media query |
| Parallax.Section.Observe | sicaf-engineering/src/components/ui/parallax-section.tsx:101-109 | the motion is switched off exactly when a batch holds a jank entry, and each jank entry adds one timer 800 ms ahead; other entries change nothing |
| Parallax.Section.FireTimer | sicaf-engineering/src/components/ui/parallax-section.tsx:107 | the earliest pending timer runs once it is due; it is removed and switches the motion back on |
| Parallax.JankCooldownFromFirst | sicaf-engineering/src/components/ui/parallax-section.tsx:104-107 | after two janks less than 800 ms apart, the first one's timer re-enables the motion before the second jank's 800 ms have passed |
| SectionReveal.DrawMode | sicaf-engineering/src/components/ui/SectionReveal.tsx:28 | a draw in [0,1) gives the mode in 1..5 whose fifth of the interval contains it |
| SectionReveal.DrawAvoiding | sicaf-engineering/src/components/ui/SectionReveal.tsx:26-31 | the do-while returns the first draw that differs from the previous mode, when there is one. Without a previous mode it uses exactly one draw |
| SectionReveal.InitialMode | sicaf-engineering/src/components/ui/SectionReveal.tsx:24-32 | a given mode is used without drawing; otherwise the first draw decides, because the previous-mode ref is null at mount |
| SectionReveal.Overlays | sicaf-engineering/src/components/ui/SectionReveal.tsx:186-228 | exactly one overlay is drawn, and it is the overlay of the mode |
| SectionReveal.OverlaysDistinct | sicaf-engineering/src/components/ui/SectionReveal.tsx:186-228 | different modes draw different overlays |
| SectionReveal.SectionPose | sicaf-engineering/src/components/ui/SectionReveal.tsx:174-175 | shown exactly when in view; hidden again whenever out of view |
| SectionReveal.ChildVariant | sicaf-engineering/src/components/ui/SectionReveal.tsx:231-257 | child `i` is lowered by 25 (mobile) or 30 and enters in 0.5 s or 0.55 s. It starts `0.04*i` s after the container, because its variant's own transition replaces the `delay: 0.06*i` prop |
| SectionReveal.ChildStagger | sicaf-engineering/src/components/ui/SectionReveal.tsx:231-257 | later children start strictly later, one 0.04 s step per child; on mobile they travel 25 instead of 30 and take 0.5 s instead of 0.55 s |
| SectionReveal.ChildVariants | sicaf-engineering/src/components/ui/SectionReveal.tsx:242-264 | one entry variant per child, in order |
| SectionReveal.Render | sicaf-engineering/src/components/ui/SectionReveal.tsx:163-264 | plain exactly when animation is disabled or reduced motion is preferred. Otherwise it has the mode's one overlay, the in-view pose, and exactly `ChildVariants`: one variant per child, child `i` starting `0.04*i` s in |
| SectionReveal.Progress | sicaf-engineering/src/components/ui/SectionReveal.tsx:37-39 | the clamped progress lies in [0,1], and is 0 at or below the input range and 1 at or above it |
| SectionReveal.InterpolateFalling | sicaf-engineering/src/components/ui/SectionReveal.tsx:37-39 | a clamped map onto a falling range stays between its ends and reaches them at the input ends |
| SectionReveal.InterpolateRising | sicaf-engineering/src/components/ui/SectionReveal.tsx:38 | the same for a rising range |
| SectionReveal.TiltBounded | sicaf-engineering/src/components/ui/SectionReveal.tsx:37-39 | for any pointer offset, both angles stay within 5 degrees and the brightness stays within [0.9, 1.1]. Pointer offsets of ±300 or beyond give ∓5 degrees about x |
| SectionReveal.CentreIsNeutral | sicaf-engineering/src/components/ui/SectionReveal.tsx:37-39 | a zero offset gives a level overlay at brightness 1 |
| SectionReveal.SectionRevealState.constructor | sicaf-engineering/src/components/ui/SectionReveal.tsx:22-46 | the mode is fixed once at mount, and the pointer offset starts at 0 |
| SectionReveal.SectionRevealState.RenderNow | sicaf-engineering/src/components/ui/SectionReveal.tsx:163-264 | the mounted section renders plainly exactly when animation is disabled or reduced motion is preferred; otherwise the overlay of its fixed mode and the staggered children for its current width |
| SectionReveal.SectionRevealState.Resize | sicaf-engineering/src/components/ui/SectionReveal.tsx:48 | mobile exactly when the width is below 768 |
| SectionReveal.SectionRevealState.ReducedMotionChanged | sicaf-engineering/src/components/ui/SectionReveal.tsx:49 | the preference follows the media query |
| SectionReveal.SectionRevealState.MouseMove | sicaf-engineering/src/components/ui/SectionReveal.tsx:214-218 | the handler as written records the pointer's offset from the centre of the overlay |
| SectionReveal.SectionRevealState.MouseLeave | sicaf-engineering/src/components/ui/SectionReveal.tsx:219-222 | the handler as written puts the offset back to 0 |
| SectionReveal.OverlayStaysLevel | sicaf-engineering/src/components/ui/SectionReveal.tsx:201-225 | the overlay is `pointer-events-none`, so after mounting and any sequence of resizes and motion-preference changes it is level at brightness 1 |
| AnimatedScroll.OffsetsBySide | sicaf-engineering/src/components/ui/animated-scroll.tsx:50-61 | each axis moves only for its own two directions; opposite directions give opposite offsets; up and right give `+magnitude`; no offset exceeds the magnitude |
| AnimatedScroll.DelayMonotone | sicaf-engineering/src/components/ui/animated-scroll.tsx:77 | with a non-negative stagger step, later elements never start earlier (strictly later with a positive step), and element 0 starts at the base delay |
| AnimatedScroll.DefaultVariants | sicaf-engineering/src/components/ui/animated-scroll.tsx:63-81 | hidden is transparent, offset and blurred; visible is opaque, in place and sharp, with the staggered delay |
| AnimatedScroll.ChosenVariants | sicaf-engineering/src/components/ui/animated-scroll.tsx:82 | the caller's variants, when given, replace the defaults entirely |
| AnimatedScroll.DefaultEntry | sicaf-engineering/src/components/ui/animated-scroll.tsx:82-88 | with the default labels the element is opaque and in place exactly when in view, and otherwise waits at its entry offset |
| AnimatedScroll.Items | sicaf-engineering/src/components/ui/animated-scroll.tsx:185 | words mode yields at least one item; chars mode yields one single-character item per character |
| AnimatedScroll.RenderedItemsJoin | sicaf-engineering/src/components/ui/animated-scroll.tsx:195-204 | rendering the items is joining them with spaces in words mode and concatenating them in chars mode |
| AnimatedScroll.TextRoundTrip | sicaf-engineering/src/components/ui/animated-scroll.tsx:185-204 | in both modes the rendered text is exactly the input |
| AnimatedScroll.EmptyText | sicaf-engineering/src/components/ui/animated-scroll.tsx:185 | `""` gives no character items, unlike the split-text placeholder, and one empty word item |
| Loader.Increment | sicaf-engineering/src/components/ui/Loader.tsx:23 | each step adds at least 0.1 |
| Loader.Step | sicaf-engineering/src/components/ui/Loader.tsx:21-26 | progress never decreases; below 99.5 it gains at least 0.1, and at or above it stays fixed |
| Loader.StepBelowCeiling | sicaf-engineering/src/components/ui/Loader.tsx:22-23 | a step from below 99.6 stays below 99.6 |
| Loader.IterateMonotone | sicaf-engineering/src/components/ui/Loader.tsx:20-29 | over frames the progress never decreases |
| Loader.IterateBelowCeiling | sicaf-engineering/src/components/ui/Loader.tsx:20-29 | from below 99.6 the progress stays below 99.6 however many frames pass |
| Loader.IterateAdvances | sicaf-engineering/src/components/ui/Loader.tsx:22-25 | after `n` frames the progress has reached 99.5 or gained at least `0.1*n` |
| Loader.PlateauIsFixed | sicaf-engineering/src/components/ui/Loader.tsx:22-25 | from 99.5 on the progress stays fixed |
| Loader.ReachesPlateau | sicaf-engineering/src/components/ui/Loader.tsx:8-29 | starting from 1, after 985 frames or more the progress is in [99.5, 99.6) |
| Loader.PercentShown | sicaf-engineering/src/components/ui/Loader.tsx:103 | until loaded the displayed number is between 1 and 99; once loaded it is 100 |
| Loader.LoaderState.constructor | sicaf-engineering/src/components/ui/Loader.tsx:8-10 | starts at 1, not done, no closing effect |
| Loader.LoaderState.Frame | sicaf-engineering/src/components/ui/Loader.tsx:20-28 | one frame applies `Step` and keeps progress in [1, 99.6) |
| Loader.LoaderState.RunFrames | sicaf-engineering/src/components/ui/Loader.tsx:20-29 | `n` frames give `Iterate(progress, n)` |
| Loader.LoaderState.Load | sicaf-engineering/src/components/ui/Loader.tsx:13-17 | loading sets 100 and the closing effect, and schedules "done" 1800 ms later |
| Loader.LoaderState.WowEffect | sicaf-engineering/src/components/ui/Loader.tsx:33-37 | at 100 with the effect on and not done, "done" is scheduled 600 ms later, and never before loading |
| Loader.LoaderState.FireDone | sicaf-engineering/src/components/ui/Loader.tsx:16 | a pending timer runs only once it is due and no pending timer is earlier; it is removed, and either of the two timers sets done |
| Loader.NeverFullBeforeLoad | sicaf-engineering/src/components/ui/Loader.tsx:8-31 | however many frames pass before loading, the number shown is at most 99 |
| FullTransition.Variant | sicaf-engineering/src/components/ui/SectionFullTransition.tsx:36-43 | the cover variant is full and opaque, the uncover variant is flat and transparent |
| FullTransition.UseSectionFullTransition | sicaf-engineering/src/components/ui/SectionFullTransition.tsx:10-14 | the provider's value when there is one, otherwise the error "SectionFullTransitionProvider missing" |
| FullTransition.Provider.constructor | sicaf-engineering/src/components/ui/SectionFullTransition.tsx:34 | starts uncovered with no pending timer |
| FullTransition.Provider.Trigger | sicaf-engineering/src/components/ui/SectionFullTransition.tsx:21-27 | covers now and replaces any pending uncover with one due 650 ms after this trigger |
| FullTransition.Provider.Tick | sicaf-engineering/src/components/ui/SectionFullTransition.tsx:24-26 | a due uncover fires; otherwise nothing changes |
| FullTransition.Replay | sicaf-engineering/src/components/ui/SectionFullTransition.tsx:21-27 | after any sequence of triggers, the overlay covers at time `t` exactly when the latest trigger is less than 650 ms before `t` |
| FullTransition.DebounceExample | sicaf-engineering/src/components/ui/SectionFullTransition.tsx:21-27 | two triggers 400 ms apart keep the page covered until 650 ms after the second |
| Contact.IssuesOf | sicaf-engineering/src/components/sections/contact.tsx:29-43 | every reported issue names a field that breaks its rule, with that rule's message |
| Contact.IssuesComplete | sicaf-engineering/src/components/sections/contact.tsx:29-43 | every field that breaks its rule is reported |
| Contact.Validate | sicaf-engineering/src/components/sections/contact.tsx:29-43 | the schema's issues name only failing fields, each with its fixed message |
| Contact.ValidateExact | sicaf-engineering/src/components/sections/contact.tsx:29-43 | a field is reported exactly when it breaks its rule |
| Contact.AcceptedIff | sicaf-engineering/src/components/sections/contact.tsx:29-43 | accepted exactly when the name has at least 2 characters, the e-mail passes, the phone is absent or has at least 8, and the message has at least 10; the company never matters |
| Contact.DefaultsRejected | sicaf-engineering/src/components/sections/contact.tsx:52-58 | the initial values fail on the name, the message and the empty phone |
| Contact.PhoneRule | sicaf-engineering/src/components/sections/contact.tsx:36-38 | an absent phone passes; a present phone shorter than 8, including `""`, fails |
| Contact.ContactForm.constructor | sicaf-engineering/src/components/sections/contact.tsx:48-58 | starts with the default values and not submitted |
| Contact.ContactForm.Edit | sicaf-engineering/src/components/sections/contact.tsx:173-240 | editing replaces the field values and leaves the flag and the pending timers unchanged |
| Contact.ContactForm.Submit | sicaf-engineering/src/components/sections/contact.tsx:61-67 | accepted values schedule the "sent" flag 1000 ms later; rejected values change nothing |
| Contact.ContactForm.FireSubmitTimer | sicaf-engineering/src/components/sections/contact.tsx:64-66 | the earliest pending timer runs once due; it is removed and sets the "sent" flag |
| Contact.ContactForm.Reset | sicaf-engineering/src/components/sections/contact.tsx:270-273 | the flag clears and the fields return to their defaults |

## Left out

- SectionReveal.ChildVariant: the start of each child is the container's `staggerChildren` step. This follows the library rule that a variant's own `transition` replaces the element's `transition` prop. The library's scheduling itself is not modelled.
- SectionReveal.SectionRevealState.MouseMove: the handler is modelled as written. Its element is `pointer-events-none`, so it never runs in the page (`OverlayStaysLevel`), and the pointer tilt of the fifth overlay is never visible.
- CaseStudyReveal.LayerOffset: the shimmer's reveal variant (`delay+0.22`, opacity 0 to 0.34 to 0.10) is not modelled as playing. The element's later `animate` attribute replaces it, so the shimmer stays at its initial opacity 0. The looping background sweep itself is not modelled.
- Animation library internals are not modelled: spring physics, tweens, `useScroll`, `useInView` and the evaluation of `cubicBezier` curves. Scroll progress, in-view flags and the value of a non-identity easing curve are inputs.
- The GSAP scroll setup of the landing page, the orbiting dots and the other trigonometric decorations are not modelled. They are presentation built on foreign libraries.
- SplitText.UnitDelay: for the wave effect, `Math.sin(index)` is an input in [-1, 1], so the contract only bounds the wave term to ±0.04. The monotonicity lemmas cover grow, slide and fade only.
- Parallax.Section: the motion layer exists only when `bgImage` is set. The model describes that layer and does not model its absence.
- Parallax.Section: `willChange`, the hover-effect prop, the overlay opacity and the image component's props are not modelled. They do not decide behaviour.
- Parallax.Eased: the value of the three named curves is an input, so only the linear curve is computed.
- The number-to-string formatting of offsets such as `${-speed*100}%` is not modelled. Offsets are numbers of percent.
- Zero-width or zero-height boxes are excluded by `requires` in the tilt formulas. In the source they divide by zero: a zero pointer offset gives NaN angles, and any other offset gives infinite ones.
- `Math.random()` is a sequence of draws in [0, 1), and the current time is a parameter of every handler that sets a timer.
- Listener registration and removal are not modelled. On the landing page the cleanup removes freshly created closures, so it does not actually detach anything.
- The timer bookkeeping of `setTimeout` ids is not modelled. The contact form's and the loader's timers are never cancelled in the source, so they are queues of deadlines.
- Contact: the e-mail format check is an opaque predicate. Lengths count `char`s, which stand for UTF-16 code units.
- Contact: the `console.log` of submitted values, form field rendering and react-hook-form's error display are not modelled.
- Floating-point rounding is not modelled: numbers are exact reals, so the loader's plateau bound of 99.6 holds for real arithmetic.
- BackgroundMusic, the optimized image, AnimatedCounter, the button ripple, the placeholder image generator, the header, the footer, the client layout and the content sections are not part of this model.
