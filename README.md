# Transx-bot front end: the stateful core, modelled in Dafny

The site is mostly declarative React markup. This project models the pieces of it that hold sequential logic, one Dafny module per source file. It proves the properties those pieces promise.

- **Scene** (`AITradingBackground.jsx`): the ambient background. A class holds three arrays: 15 nodes that bounce, 30 particles that wrap, and 8 indicator bars.
  - `Frame` runs the per-frame loops and the nested pair scan of module **Pairs**.
  - `ObserveResize` is the container observer's clamp. `WindowResize` is the bare window resize.
- **Registration** (`Register.jsx`): the three-field validator.
  - JavaScript whitespace and `trim` are modelled, and so is the email pattern `^[^\s@]+@[^\s@]+\.[^\s@]+$`.
  - The page class holds the form, the error map, and the submit/success/reset state cells.
- **Testimonials** (`TestimonialsSection.jsx`): the breakpoint table, `maxIndex` with `ceil`, the wrap-around arrows, the dots, and the gated auto-advance.
- **Pricing** (`PricingSection.jsx`): `getCardStyle` as a pure function of the offset from the selected plan, the render offset, and the selection cell.
- **Navbar** (`Navbar.jsx`):
  - the scroll threshold and the route predicates;
  - the dropdown flag, with its 200 ms close timer as a slot that can be cleared;
  - the timers whose handle was overwritten;
  - the effect cleanup that clears the slot whenever the flag changes.
- **BotVoice** (`BotVoice.js`): the ordered voice search, and the module-level utterance cell.
- **WelcomeBot** (`WelcomeBot.jsx`): the delayed show gated by storage, the typewriter reveal in UTF-16 code units, the buttons that appear after typing, and the dismissal that is persisted.
- **Download** (`Download.jsx`): the extension rule, the file name, the alert text, and the single `downloading` lock.
- **PointerTilt**, **TradingCard**, **ServicesSection** (`TradingCard.jsx`, `ServicesSection.jsx`): both card files hold the same tilt formula. It is modelled once, in `PointerTilt`, together with the hover state of each card.
- **MotionUtils** (`motionUtils.js`): `get3DTilt`, `isMobile`, `prefersReducedMotion` and the GPU-layer style writes.

Browser services become explicit inputs or methods:
- timers are methods that fire, with a precondition that the timer is pending;
- `Math.random()` draws are parameters in [0, 1);
- `localStorage` is a map;
- router navigations, alerts and speech-synthesis calls are recorded in sequences or counters.

String lengths are JavaScript's: module **Utf16** counts UTF-16 code units, two for a character outside the Basic Multilingual Plane. The name and password rules and the typewriter read lengths this way.

`ObserveResize` clamps from above only (`Math.min(x, W)`, `Math.min(y, H)`), so a negative coordinate stays negative.

## Model

| member | source | states |
|---|---|---|
| Scene.CanvasHeight | src/components/AITradingBackground.jsx:15-21 | the canvas height is the container's height, or 500 when that is 0; never 0 |
| Scene.InitNodeInCanvas | src/components/AITradingBackground.jsx:50-53 | a new node lies in [0,W]×[0,H] and satisfies the bounce invariant |
| Scene.InitNodeSlow | src/components/AITradingBackground.jsx:52-54 | a new node's velocities are at most 0.15 in magnitude, and its radius is in [3,5) |
| Scene.InitNode | src/components/AITradingBackground.jsx:49-56 | a node built from six draws; InitNodeInCanvas and InitNodeSlow state where it lies and how fast it moves |
| Scene.InitParticle | src/components/AITradingBackground.jsx:59-67 | a particle built from seven draws, at a random point of the canvas |
| Scene.InitIndicator | src/components/AITradingBackground.jsx:70-78 | bar i built from five draws, at x = W/9·(i+1); IndicatorSlots states the order of the slots |
| Scene.IndicatorSlots | src/components/AITradingBackground.jsx:70-71 | indicator i starts at x = W/9·(i+1): the xs strictly increase and lie in (0,W) |
| Scene.StepNode | src/components/AITradingBackground.jsx:105-112 | one node frame; StepNodeBounces, StepNodeContained and ContainedAfter state what it does and keeps |
| Scene.StepNodeBounces | src/components/AITradingBackground.jsx:105-112 | a node frame adds the velocity and 0.05 to the pulse; vx flips exactly when the new x is outside [0,W], likewise vy; speeds never change |
| Scene.StepNodeContained | src/components/AITradingBackground.jsx:106-112 | a frame preserves "x ∈ [0,W] or x+vx ∈ [0,W]" on both axes |
| Scene.ContainedNearCanvas | src/components/AITradingBackground.jsx:106-112 | a contained node is at most one velocity step, \|vx\| or \|vy\|, off the canvas |
| Scene.ContainedAfter | src/components/AITradingBackground.jsx:105-112 | a contained node stays contained after any number of frames on a fixed canvas |
| Scene.SpeedAfter | src/components/AITradingBackground.jsx:111-112 | after any number of frames both speeds are unchanged |
| Scene.NodeStaysContained | src/components/AITradingBackground.jsx:49-112 | a node created on a canvas that is not resized stays contained on every frame, within 0.15 of the canvas |
| Scene.StepParticle | src/components/AITradingBackground.jsx:134-142 | one particle frame with the four wrap rules in source order; StepParticleOnCanvas states the result |
| Scene.StepParticleOnCanvas | src/components/AITradingBackground.jsx:134-142 | after a particle frame 0 ≤ x ≤ W and 0 ≤ y ≤ H, by the wrap rules in source order; life grows by 0.005; nothing else changes |
| Scene.StepIndicator | src/components/AITradingBackground.jsx:155 | one indicator frame: the phase advances by the bar's speed |
| Scene.IndicatorDrift | src/components/AITradingBackground.jsx:154-155 | after k frames a bar's phase has advanced by k times its speed, and no other field has changed |
| Scene.Connections | src/components/AITradingBackground.jsx:89-101 | the pairs the nested loops draw a line for, in loop order; ConnectionsShape states which pairs they are |
| Scene.SquaredThreshold | src/components/AITradingBackground.jsx:91-94 | for a distance d ≥ 0, testing d < 200 is testing d² < 200² |
| Scene.LineAlpha | src/components/AITradingBackground.jsx:94-95 | the line alpha is in (0,0.3] for d in [0,200) and not positive from 200 on |
| Scene.LineAlphaDecreasing | src/components/AITradingBackground.jsx:95 | the line alpha strictly decreases in the distance |
| Scene.ConnectionsShape | src/components/AITradingBackground.jsx:89-101 | a pair (i,j) gets a line iff i < j and the nodes are closer than 200, and no pair gets two |
| Pairs.RowShape | src/components/AITradingBackground.jsx:90-101 | the inner loop collects exactly the close pairs (i,k), i < k < j, in increasing k |
| Pairs.RowsShape | src/components/AITradingBackground.jsx:89-101 | the first i rows collect exactly the close pairs with first index below i, in loop order |
| Pairs.ScanPairs | src/components/AITradingBackground.jsx:89-101 | the nested loops return the row-by-row list of selected pairs |
| Scene.ClampNode | src/components/AITradingBackground.jsx:28-31 | `Math.min` of each coordinate with the new edge; ClampNodeProperties states its effect |
| Scene.ClampParticle | src/components/AITradingBackground.jsx:32-35 | the same clamp for a particle; ClampParticleProperties states its effect |
| Scene.ClampIndicator | src/components/AITradingBackground.jsx:36-39 | the clamp of x and baseY for a bar; ClampIndicatorProperties states its effect |
| Scene.ClampNodeProperties | src/components/AITradingBackground.jsx:28-31 | the clamp gives x ≤ W and y ≤ H. A coordinate that already fits is kept, a larger one becomes the edge, and nothing is raised. Velocity, radius and pulse are kept. The clamp is idempotent |
| Scene.ClampParticleProperties | src/components/AITradingBackground.jsx:32-35 | the particle clamp bounds x and y from above, keeps a fitting coordinate, and keeps velocity, life, size and opacity |
| Scene.ClampIndicatorProperties | src/components/AITradingBackground.jsx:36-39 | the indicator clamp bounds x and baseY from above, and keeps y, height, pulse and speed |
| Scene.ShrinkExample | src/components/AITradingBackground.jsx:28-31 | a node at (750,50) clamps to (400,50) on a 400×300 canvas |
| Scene.Scene.constructor | src/components/AITradingBackground.jsx:15-78 | the canvas is sized from the container (300×150 without one); 15/30/8 entities are created from the draws; every node is contained |
| Scene.Scene.Frame | src/components/AITradingBackground.jsx:82-155 | time grows by 0.01; the lines are the connections of the nodes before the frame; every entity takes its own step; node containment is preserved |
| Scene.Scene.WindowResize | src/components/AITradingBackground.jsx:46 | the window resize re-sizes the canvas and leaves every entity alone |
| Scene.Scene.ObserveResize | src/components/AITradingBackground.jsx:25-40 | the observer re-sizes the canvas, then clamps every node, particle and indicator to it; counts and time are kept |
| Registration.TrimEmpty | src/pages/Register.jsx:34 | the trimmed string is empty iff every character is JavaScript whitespace |
| Utf16.Length | src/pages/Register.jsx:36 | `length` counts UTF-16 code units: never fewer than the characters, at most twice as many, and 0 only for the empty string |
| Registration.TrimAtLeastTwo | src/pages/Register.jsx:36 | the trimmed length in code units is at least 2 iff the string has two non-space characters or one non-space character outside the Basic Multilingual Plane |
| Registration.EmailPatternShape | src/pages/Register.jsx:42 | a matching email has no whitespace anywhere and exactly one `@`, not at either end |
| Registration.EmailPatternJoin | src/pages/Register.jsx:42 | any `local@domain.top` built from three `[^\s@]+` runs matches |
| Registration.Form.Set | src/pages/Register.jsx:18-21 | the edit replaces the named field and leaves the other two unchanged |
| Registration.NameError | src/pages/Register.jsx:34-38 | the name rule on the trimmed name, its length in code units; NameRule states it on the characters typed |
| Registration.EmailError | src/pages/Register.jsx:40-44 | emptiness on the trimmed email, then the pattern on the email as typed; EmailPadded states the consequence for padding |
| Registration.PasswordError | src/pages/Register.jsx:46-50 | the password rule on the untrimmed password, its length in code units; PasswordUntrimmed and AstralLengths state examples |
| Registration.Errors | src/pages/Register.jsx:31-54 | the map `validate` builds, one entry per broken rule; ErrorsEntries states its entries |
| Registration.ErrorsEntries | src/pages/Register.jsx:31-54 | a field has an error entry iff it breaks its rule (lengths in code units), and the entry is that rule's message |
| Registration.NameRule | src/pages/Register.jsx:34-38 | "Name is required" iff the name is all whitespace. No name error iff it has two non-space characters, or one non-space character outside the Basic Multilingual Plane |
| Registration.AstralLengths | src/pages/Register.jsx:36-48 | one emoji (two code units) is a long enough name; four emoji (eight code units) are a long enough password, three are not |
| Registration.EmailPadded | src/pages/Register.jsx:40-44 | an email with leading or trailing whitespace always gets an error, and it is "Email is required" only if the email is all whitespace |
| Registration.PasswordUntrimmed | src/pages/Register.jsx:46-50 | the password is not trimmed: eight spaces pass it, while the same string fails as a name |
| Registration.ValidIff | src/pages/Register.jsx:52-53 | `validate` returns true iff none of the three rules reports an error |
| Registration.ErrorsFieldwise | src/pages/Register.jsx:31-54 | a field's entry in the error map is unaffected by edits to another field |
| Registration.ValidExample | src/pages/Register.jsx:31-54 | ("Jo", "a@b.c", "12345678") validates |
| Registration.RegisterPage.ErrorShown | src/pages/Register.jsx:132-134 | an error line renders when the field's entry is present and not '' |
| Registration.RegisterPage.Disabled | src/pages/Register.jsx:183 | the inputs and the button are disabled while `isSubmitting` |
| Registration.RegisterPage.constructor | src/pages/Register.jsx:7-14 | empty fields, no errors, not submitting, no success message |
| Registration.RegisterPage.Change | src/pages/Register.jsx:16-29 | only the named field is replaced. Its error becomes '' only if one was shown, other errors are untouched, and the field's error is no longer shown |
| Registration.RegisterPage.Submit | src/pages/Register.jsx:56-63 | the errors become `validate`'s map; only a valid form sets `isSubmitting` and starts a request |
| Registration.RegisterPage.RequestResolves | src/pages/Register.jsx:66-83 | a resolved request shows the success message, schedules the reset, and `finally` clears `isSubmitting` |
| Registration.RegisterPage.ResetFires | src/pages/Register.jsx:73-78 | the reset empties all three fields and hides the success message |
| Testimonials.CardsPerView | src/components/TestimonialsSection.jsx:48-56 | the breakpoint table: 2 from 1024 pixels, 1.5 from 768, else 1 |
| Testimonials.CardsPerViewMonotone | src/components/TestimonialsSection.jsx:48-56 | a wider window never shows fewer cards |
| Testimonials.Ceil | src/components/TestimonialsSection.jsx:63 | `Math.ceil`: the least integer not below x |
| Testimonials.MaxIndex | src/components/TestimonialsSection.jsx:63 | `maxIndex` is below 6. When positive, the view starting there reaches the last card and does not run past it |
| Testimonials.MaxIndexByWidth | src/components/TestimonialsSection.jsx:48-63 | `maxIndex` is 4 on desktop and tablet widths, 5 on phones |
| Testimonials.Next | src/components/TestimonialsSection.jsx:65-72 | `handleNext` always lands in [0,maxIndex], one step forward or at 0 |
| Testimonials.Prev | src/components/TestimonialsSection.jsx:74-76 | `handlePrev` keeps an index in [0,maxIndex], one step back or at maxIndex |
| Testimonials.NextPrevInverse | src/components/TestimonialsSection.jsx:65-76 | on [0,maxIndex], next and prev are mutual inverses |
| Testimonials.NextClimb | src/components/TestimonialsSection.jsx:65-72 | from 0, k ≤ maxIndex next steps reach k |
| Testimonials.NextCycle | src/components/TestimonialsSection.jsx:65-72 | from 0, maxIndex+1 next steps return to 0 |
| Testimonials.EnabledArrowsDoNotWrap | src/components/TestimonialsSection.jsx:65-76 | below maxIndex next adds one, above 0 prev subtracts one, and from maxIndex on next returns 0 |
| Testimonials.DotPastMaxThenNext | src/components/TestimonialsSection.jsx:322-326 | from 768 pixels up (between 768 and 1024 the dots and the arrows both show) the last dot (5) is past maxIndex, and the next step returns to 0 |
| Testimonials.Carousel.MaxIdx | src/components/TestimonialsSection.jsx:63 | the carousel's `maxIndex` is below the card count |
| Testimonials.Carousel.PrevDisabled | src/components/TestimonialsSection.jsx:272 | the prev arrow is disabled exactly where a click would wrap instead of stepping back |
| Testimonials.Carousel.NextDisabled | src/components/TestimonialsSection.jsx:296 | the next arrow is disabled exactly where a click would wrap instead of stepping forward |
| Testimonials.Carousel.constructor | src/components/TestimonialsSection.jsx:7-58 | index 0, cards-per-view read from the width at mount, not paused, not yet in view |
| Testimonials.Carousel.Resize | src/components/TestimonialsSection.jsx:48-59 | a resize re-reads the table and keeps the index |
| Testimonials.Carousel.NextClick | src/components/TestimonialsSection.jsx:65-72 | the next arrow applies Next with the current maxIndex |
| Testimonials.Carousel.PrevClick | src/components/TestimonialsSection.jsx:74-76 | the prev arrow applies Prev with the current maxIndex |
| Testimonials.Carousel.Dot | src/components/TestimonialsSection.jsx:323-326 | a dot sets the index to any card 0..5 |
| Testimonials.Carousel.Tick | src/components/TestimonialsSection.jsx:79-92 | the interval runs only while in view and not paused, and applies Next |
| Testimonials.Carousel.MouseEnter | src/components/TestimonialsSection.jsx:121 | hovering pauses the auto-advance |
| Testimonials.Carousel.MouseLeave | src/components/TestimonialsSection.jsx:122 | leaving unpauses |
| Testimonials.Carousel.EnterView | src/components/TestimonialsSection.jsx:7 | the section comes into view once and stays in view |
| Pricing.GetCardStyle | src/components/PricingSection.jsx:63-94 | only the selected card has zIndex 10, scale 1 and opacity 1; every card has zIndex ≤ 10, scale in [0.85,1], opacity in [0.3,1], y ≥ 0, and x of the offset's sign |
| Pricing.SelectedStyle | src/components/PricingSection.jsx:67-75 | at offset 0 the style is zIndex 10, scale 1, x 0, y 0, opacity 1 |
| Pricing.UnselectedStyle | src/components/PricingSection.jsx:76-94 | at a non-zero offset: zIndex = 10−\|offset\| < 10; scale in [0.85,0.88]; opacity in [0.3,0.45]; y = 8\|offset\|; x ≥ 60 on the right and ≤ −60 on the left |
| Pricing.StyleRecedes | src/components/PricingSection.jsx:76-94 | a card farther from the selection is deeper, no larger, no brighter, lower and farther out |
| Pricing.StyleSymmetric | src/components/PricingSection.jsx:76-94 | the styles at +k and −k differ only in the sign of x |
| Pricing.ThreePlanStyles | src/components/PricingSection.jsx:76-94 | one step to the right gives (9, 0.88, 60, 8, 0.45); two steps either way hit both floors, giving (8, 0.85, ±80, 16, 0.3) |
| Pricing.RenderedPositions | src/components/PricingSection.jsx:132-135 | the selected card is drawn at (−210,−240); others are drawn lower, to their own side |
| Pricing.PricingSection.ActiveOnTop | src/components/PricingSection.jsx:121-137 | the selected plan's zIndex is above every other plan's |
| Pricing.PricingSection.constructor | src/components/PricingSection.jsx:6 | the selection starts at plan 0 |
| Pricing.PricingSection.Select | src/components/PricingSection.jsx:58-60 | selecting plan i makes it the active plan, and exactly that one is marked active |
| Navbar.IsScrolled | src/components/Navbar.jsx:16-18 | the scroll test `scrollY > 100` |
| Navbar.IsDropdownActive | src/components/Navbar.jsx:33 | the `some` scan over the four entries; DropdownActiveIff states its routes |
| Navbar.HeaderShown | src/components/Navbar.jsx:387-410 | the compact header shows iff scrolled and the full header iff not; exactly one of them |
| Navbar.SomeItemIs | src/components/Navbar.jsx:33 | the `some` scan over the entries holds iff the path is one of them |
| Navbar.DropdownActiveIff | src/components/Navbar.jsx:25-33 | the dropdown is active iff the path is /stocks, /crypto, /forex or /fd-nfd |
| Navbar.HomeHighlightedRoutes | src/components/Navbar.jsx:149 | Home is highlighted iff the path is / or a dropdown route; not on /register or /download |
| Navbar.AtMostOneItemHighlighted | src/components/Navbar.jsx:211 | no two entries are highlighted at once; one is iff the dropdown is active |
| Navbar.NavbarState.constructor | src/components/Navbar.jsx:8-12 | closed, not scrolled, no timer pending |
| Navbar.NavbarState.SetOpen | src/components/Navbar.jsx:65-75 | a change of the open flag runs the effect cleanup, which clears the slot's timer; an unchanged flag keeps it |
| Navbar.NavbarState.Navigate | src/components/Navbar.jsx:7 | a navigation records the route and moves the location to it |
| Navbar.NavbarState.Scroll | src/components/Navbar.jsx:16-18 | scrolled iff scrollY > 100 |
| Navbar.NavbarState.MouseEnter | src/components/Navbar.jsx:36-41 | hovering cancels the pending close in the slot and opens the menu |
| Navbar.NavbarState.MouseLeave | src/components/Navbar.jsx:43-47 | leaving schedules a close in the slot. A close still pending there becomes unclearable, and that cannot happen after an enter |
| Navbar.NavbarState.FireRef | src/components/Navbar.jsx:44-46 | the slot's timer, if still pending (no enter since), closes the menu |
| Navbar.NavbarState.FireStray | src/components/Navbar.jsx:44-46 | a timer whose handle was lost also closes the menu |
| Navbar.NavbarState.MobileToggle | src/components/Navbar.jsx:50-52 | the mobile button negates the open flag |
| Navbar.NavbarState.MouseDown | src/components/Navbar.jsx:55-67 | while open, a press outside both dropdown areas closes the menu; one inside either, or a press while closed, changes nothing |
| Navbar.NavbarState.KeyDown | src/components/Navbar.jsx:85-91 | Enter or Space navigates to the entry and closes the menu; any other key changes nothing |
| Navbar.NavbarState.LinkClick | src/components/Navbar.jsx:206-209 | a link click closes the menu and follows the link |
| Navbar.NavbarState.HomeClick | src/components/Navbar.jsx:94-96 | the Home link closes the menu and goes to / |
| Navbar.NavbarState.ItemClick | src/components/Navbar.jsx:206-211 | an entry's click closes the menu, and that entry becomes the highlighted one |
| Navbar.NavbarState.MobileButton | src/components/Navbar.jsx:346-349 | the mobile Register and Download entries navigate and close the menu |
| Navbar.NavbarState.DesktopButton | src/components/Navbar.jsx:233-243 | the desktop Register and Download buttons navigate and leave the menu as it was |
| BotVoice.Lower | src/utils/BotVoice.js:26-29 | lower-casing keeps the length and lower-cases each letter |
| BotVoice.Filter | src/utils/BotVoice.js:24-30 | the filter keeps only list members that pass the test |
| BotVoice.FilterHead | src/utils/BotVoice.js:32-40 | the filter is empty iff no voice passes, and its head is the first voice in list order that passes |
| BotVoice.GetBestVoice | src/utils/BotVoice.js:18-44 | a voice comes back only with synthesis present, and it is one of the listed voices |
| BotVoice.BestVoiceIsListed | src/utils/BotVoice.js:18-44 | no voice iff synthesis is absent or the list is empty |
| BotVoice.BestVoicePreferred | src/utils/BotVoice.js:24-34 | the first English voice named female, zira, samantha or karen (any case) wins |
| BotVoice.BestVoiceEnglish | src/utils/BotVoice.js:36-40 | with no preferred voice, the first voice whose lang starts with "en" wins |
| BotVoice.BestVoiceFallback | src/utils/BotVoice.js:42-43 | with no English voice, the first default voice wins, and failing that the first voice |
| BotVoice.CaseExamples | src/utils/BotVoice.js:25-29 | the name test ignores case ("ZIRA"), the lang test does not ("EN-US") |
| BotVoice.Speech.constructor | src/utils/BotVoice.js:6-12 | no utterance at load |
| BotVoice.Speech.SetVoices | src/utils/BotVoice.js:21 | the synthesiser's voice list changes and nothing else does |
| BotVoice.Speech.CreateUtterance | src/utils/BotVoice.js:79-107 | a new utterance in the best voice is spoken and becomes current |
| BotVoice.Speech.Speak | src/utils/BotVoice.js:52-74 | without synthesis: the error callback runs, the result is null, and the cell is unchanged. Otherwise: a current utterance is cancelled; the text is spoken, or deferred while the voice list is empty; the cell is returned |
| BotVoice.Speech.FireDeferred | src/utils/BotVoice.js:65-68 | a deferred text is spoken once the voices arrive |
| BotVoice.Speech.UtteranceFinished | src/utils/BotVoice.js:94-103 | end or error clears the cell, whichever utterance it holds |
| BotVoice.Speech.StopSpeech | src/utils/BotVoice.js:112-117 | cancels and clears only when an utterance is current; otherwise nothing |
| WelcomeBot.TypingSplitsEmoji | src/components/WelcomeBot.jsx:12-30 | the greeting is 143 code units, and after five ticks the text ends in half of the emoji |
| WelcomeBot.Bot.Renders | src/components/WelcomeBot.jsx:57 | the bot renders unless dismissed or not yet visible |
| WelcomeBot.Bot.CursorShown | src/components/WelcomeBot.jsx:109 | the cursor shows while the text is shorter than the greeting; CursorWhileTyping states when that is |
| WelcomeBot.Bot.CursorWhileTyping | src/components/WelcomeBot.jsx:109 | the cursor shows iff characters remain, and never next to the buttons |
| WelcomeBot.Bot.constructor | src/components/WelcomeBot.jsx:7-21 | hidden, empty text, show delay pending |
| WelcomeBot.Bot.ShowTimerFires | src/components/WelcomeBot.jsx:16-21 | the bot becomes visible and starts typing iff no dismissal flag is stored |
| WelcomeBot.Bot.TypingTick | src/components/WelcomeBot.jsx:28-39 | a tick appends the next code unit, so the text is always `message[0..index]`. At the end, typing stops and the buttons' delay starts |
| WelcomeBot.Bot.ButtonsTimerFires | src/components/WelcomeBot.jsx:35-37 | the buttons show, and only with the whole greeting typed |
| WelcomeBot.Bot.Dismiss | src/components/WelcomeBot.jsx:42-45 | dismissed, the flag "true" is stored, and nothing renders |
| WelcomeBot.Bot.ButtonClick | src/components/WelcomeBot.jsx:47-55 | Register and Download navigate first and then dismiss |
| Download.Extension | src/pages/Download.jsx:48 | every extension is three letters |
| Download.FileName | src/pages/Download.jsx:48 | `ai-trading-bot-<id>.<ext>`; FileNameRoundTrip and FileNameInjective state that the id can be read back |
| Download.FileNameRoundTrip | src/pages/Download.jsx:48 | the file name ends in "." + the extension, and the id is read back from it |
| Download.FileNameInjective | src/pages/Download.jsx:48 | different ids give different file names |
| Download.PlatformFiles | src/pages/Download.jsx:10-48 | windows → .exe, android → .apk, ios → .ipa |
| Download.FindPlatform | src/pages/Download.jsx:52 | `find` returns a listed platform with that id, or none when no platform has it |
| Download.StartedAlert | src/pages/Download.jsx:52 | the success alert with the found platform's name, `undefined` for an unknown id |
| Download.StartedAlertNames | src/pages/Download.jsx:52 | the success alert names Windows, Android or iOS for their ids |
| Download.DownloadPage.Disabled | src/pages/Download.jsx:107 | `downloading === id \|\| downloading !== null`; LockShape states that this is "some download runs" |
| Download.DownloadPage.ShowsProgress | src/pages/Download.jsx:110 | the spinner shows on the button being downloaded |
| Download.DownloadPage.LockShape | src/pages/Download.jsx:107-110 | every button is disabled iff a download runs; at most one shows progress, and all are then disabled |
| Download.DownloadPage.constructor | src/pages/Download.jsx:8 | nothing downloading |
| Download.DownloadPage.Start | src/pages/Download.jsx:37-38 | a click on an enabled button takes the lock for that id |
| Download.DownloadPage.Complete | src/pages/Download.jsx:41-59 | on success the link name and the platform alert are recorded, on failure the failure alert; the lock is freed either way |
| PointerTilt.CardTilt | src/components/TradingCard.jsx:16-23 | the rotation for a pointer position, one degree per ten pixels off centre; the four lemmas below state its properties |
| PointerTilt.CentreIsLevel | src/components/TradingCard.jsx:19-23 | a pointer at the card's centre gives rotation (0,0) |
| PointerTilt.TiltRoundTrip | src/components/TradingCard.jsx:16-23 | the tilt map and its inverse undo each other |
| PointerTilt.TiltLinear | src/components/TradingCard.jsx:22-23 | moving the pointer by (dx,dy) changes the rotation by (dy/10, −dx/10) |
| PointerTilt.TiltBounded | src/components/TradingCard.jsx:16-23 | over the card, rotations stay within h/20 and w/20 |
| TradingCard.EffectiveDelay | src/components/TradingCard.jsx:45 | an omitted or null delay is 0; a given one is used as is |
| TradingCard.HoverLift | src/components/TradingCard.jsx:63-64 | hovered: y −6 and scale 1.02; otherwise 0 and 1 |
| TradingCard.Card.constructor | src/components/TradingCard.jsx:6-8 | level and not hovered |
| TradingCard.Card.MouseMove | src/components/TradingCard.jsx:11-26 | without the card element nothing changes; otherwise the rotation is the tilt |
| TradingCard.Card.MouseEnter | src/components/TradingCard.jsx:49 | hover is set |
| TradingCard.Card.MouseLeave | src/components/TradingCard.jsx:28-31 | rotation reset to (0,0) and hover cleared |
| TradingCard.Card.Click | src/components/TradingCard.jsx:33-35 | a click navigates to the card's path |
| ServicesSection.Pose | src/components/ServicesSection.jsx:182-221 | hovered: scale 1.06, z 20, icon at 360°; otherwise 1, 0, 0 |
| ServicesSection.ServiceCard.constructor | src/components/ServicesSection.jsx:139-140 | level and not hovered |
| ServicesSection.ServiceCard.MouseMove | src/components/ServicesSection.jsx:143-158 | without the card element nothing changes; otherwise the rotation is the tilt |
| ServicesSection.ServiceCard.MouseEnter | src/components/ServicesSection.jsx:170 | hover is set |
| ServicesSection.ServiceCard.MouseLeave | src/components/ServicesSection.jsx:160-163 | rotation reset and hover cleared |
| MotionUtils.Get3DTilt | src/utils/motionUtils.js:247-258 | `get3DTilt`; Get3DTiltShape states it |
| MotionUtils.Get3DTiltShape | src/utils/motionUtils.js:247-258 | zero at the rect centre, always scale 1.02 and y −4, and 0.12 times the card tilt |
| MotionUtils.IsMobile | src/utils/motionUtils.js:276-279 | `isMobile`, false without a window; MobileMatchesCarousel relates it to the carousel |
| MotionUtils.MobileMatchesCarousel | src/utils/motionUtils.js:276-279 | `isMobile` (width below 768) is the carousel's one-card breakpoint |
| MotionUtils.WithoutWindow | src/utils/motionUtils.js:5-8 | without a window, `isMobile` and `prefersReducedMotion` are false |
| MotionUtils.Enable | src/utils/motionUtils.js:262-267 | on an element: willChange 'transform' and transform 'translateZ(0)'; on none, nothing |
| MotionUtils.Disable | src/utils/motionUtils.js:268-272 | on an element: willChange 'auto', and the transform is kept; on none, nothing |

## Left out

- Canvas drawing (`ctx` calls, alpha and shadow settings, the sine-driven radius, opacity and bar height, the wave curves): it is rendering against a foreign API. Only the state updates are modelled.
- `Math.sqrt` in the pair test: the threshold is tested on the squared distance. `Scene.SquaredThreshold` shows that the two tests agree.
- Floating point: positions and velocities are exact reals. `Math.PI` is the decimal of the double.
- `requestAnimationFrame`, the observer's and the listeners' registration, and teardown: the frame, the observer callback and the window resize are methods that the caller invokes.
- Scene.Scene.ObserveResize: it clamps from above only (`Math.min(x, W)`, `Math.min(y, H)`), so a negative coordinate stays negative.
- Scene.NodeStaysContained: the containment invariant is claimed only for a canvas that is not resized. A shrink can leave a clamped node more than one step outside the box.
- Timers (`setTimeout`, `setInterval`) become explicit fire methods. Effect cleanups on unmount are not modelled.
- `alert`, `document.createElement`, `localStorage`, `navigate` and `window.scrollTo` become recorded sequences and maps. The scroll to the top on the home route is not modelled: it only moves the page.
- Registration.RegisterPage.RequestResolves: the `catch` branch of the submit handler is not modelled. The simulated request is a timer promise that never rejects.
- Registration.IsSpace: strings are sequences of Unicode scalar values, while `trim` and the email pattern in the source run on UTF-16 code units. Every whitespace character and `@` lies in the Basic Multilingual Plane, so trimming and the pattern read the same both ways. Lengths are counted in code units (`Utf16.Length`). A lone surrogate cannot be represented in the model.
- BotVoice.Lower: it lower-cases ASCII letters only; JavaScript's `toLowerCase` also handles other scripts.
- Speech-synthesis calls (`speak`, `cancel`, the utterance's rate, pitch, volume and lang): they are recorded or omitted. The `voiceschanged` listener is one method that fires a deferred request.
- The `hoveredCard` state of the carousel and the card transforms of the carousel track: they are presentational.
- Framer-motion variants, easings and spring tables in `motionUtils.js`: they are library configuration.
- The other components and pages of the site are not part of this model.
