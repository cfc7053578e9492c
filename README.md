# Abasto restaurant site: hero rotation and reservation form

The site is a restaurant's marketing pages. Almost all of it is presentation.
Two pieces of state logic are modelled here.

**Hero rotation** (`hero_rotation.dfy`, module `HeroRotation`). The landing
hero keeps two looping indices. `bgIndex` picks one of three background
slides and `feedIndex` one of three "Kitchen Live" cards. Each index starts
at 0. Each one is advanced by its own interval: every 6000 ms for the
background and every 8000 ms for the feed. Each interval is cleared when the
section unmounts. The class `Hero` holds the two indices, whether each
interval is still registered, and the milliseconds since mount:

- `BgTick` and `FeedTick` are the two interval callbacks.
- `StopBg` and `StopFeed` clear the intervals.
- `Elapse(ms)` lets time pass. A live interval delivers its callback once
  for every multiple of its period crossed. A cleared interval delivers
  nothing.

The invariant `OnSchedule` ties each index to the time its interval has run:
`index == (runtime / period) mod 3`. The feed interval is 8000 ms, as the code
sets it. The comment beside that constant says 4 s.

**Reservation form** (`reservation.dfy`, module `Reservation`). The page holds
a draft request and a status: idle, submitting or success. The class
`ReservationForm` has the change handler, the submit handler and `Elapse(ms)`.
`Elapse` fires the pending two-second callbacks that have fallen due. The
handlers are modelled as written:

- `HandleChange` merges one field into the draft, whatever the status.
- `HandleSubmit` has no validation and no duplicate-submit guard. It sets the
  status to submitting and schedules one more callback.

What keeps submits in order is the page around the handlers. The
`required` inputs block a submit with an empty required field. The button is
disabled while submitting. The form is replaced by the success view once the
status is success. The predicate `SubmitEnabled` states this gate. The
invariant `UiConsistent` holds for every state that the page's own controls
can produce. The lemma `LifecycleOrder` shows that such runs go idle,
then submitting, then success, and never back.

Two behaviours of the code are worth knowing:

- The inputs stay enabled while submitting. The success view reads the draft
  as it is when success arrives, so an edit made in those two seconds is what
  the view shows. `EditWhileSubmitting` shows this. The view shows the values
  that were submitted only when no edit happens in between.
- The guests `<select>` has no value bound to the draft. On mount it
  displays its first option, "1 Guests", while the draft holds "2".

The submit handler itself validates nothing: not the required fields and not
the time slot. It also does not ignore a submit made while the status is not
idle. Only the page gate does these things.

JavaScript's `%` truncates and Dafny's is Euclidean. This does not matter
here, because every operand is non-negative.

## Model

| member | source | states |
|---|---|---|
| HeroRotation.Next | components/main/Hero.tsx:100 | the successor index is below the track length; it is the next index, or 0 after the last |
| HeroRotation.IterateIsShift | components/main/Hero.tsx:99-101 | n advances from index a give (a + n) mod length; from 0, n ticks give n mod length |
| HeroRotation.Advance | components/main/Hero.tsx:98-111 | over a stretch of time a running track advances once per period boundary crossed, a cleared one stays put, and an on-schedule track stays on schedule |
| HeroRotation.Hero.constructor | components/main/Hero.tsx:94-111 | on mount both indices are 0, both intervals are registered, and the schedule invariant holds |
| HeroRotation.Hero.BgTick | components/main/Hero.tsx:99-101 | the background callback moves bgIndex to its successor mod 3; feedIndex is unchanged; both stay in bounds |
| HeroRotation.Hero.FeedTick | components/main/Hero.tsx:107-109 | the feed callback moves feedIndex to its successor mod 3; bgIndex is unchanged; both stay in bounds |
| HeroRotation.Hero.StopBg | components/main/Hero.tsx:102 | clearing the background interval stops it; clearing it again changes nothing; the schedule invariant is kept |
| HeroRotation.Hero.StopFeed | components/main/Hero.tsx:110 | clearing the feed interval stops it; clearing it again changes nothing; the schedule invariant is kept |
| HeroRotation.Hero.Elapse | components/main/Hero.tsx:98-111 | each live track advances once per period boundary crossed, independently; a cleared track never changes; each index stays (runtime / period) mod 3 |
| HeroRotation.Hero.CurrentSlide | components/main/Hero.tsx:120-134 | the slide looked up by bgIndex exists and is the slide with id bgIndex + 1 |
| HeroRotation.Hero.CurrentUpdate | components/main/Hero.tsx:174-198 | the kitchen card looked up by feedIndex exists and has id "k" followed by feedIndex + 1 |
| HeroRotation.Hero.SlideNumber | components/main/Hero.tsx:219 | the displayed slide number is in 1..3 and names the slide on display |
| HeroRotation.Hero.Caption | components/main/Hero.tsx:219 | the caption is "0", then the digit of the displayed slide number bgIndex + 1, then a dash and the current slide's label |
| HeroRotation.RunFor | components/main/Hero.tsx:13-14 | t ms after mount the indices are (t/6000) mod 3 and (t/8000) mod 3, each track on its own period (1 and 0 at 24000 ms) |
| HeroRotation.StopBackgroundAfter | components/main/Hero.tsx:98-111 | after the background interval is cleared at s ms, bgIndex stays at its value at s while the feed keeps advancing |
| Reservation.InitialDraft | app/reserve/page.tsx:28-36 | the initial draft has guests "2" and every other field empty |
| Reservation.WithField | app/reserve/page.tsx:38-40 | the merge sets the named field to the new value and leaves every other field as it was |
| Reservation.WithFieldUnchanged | app/reserve/page.tsx:38-40 | writing a field's current value back leaves the draft as it was |
| Reservation.WithFieldOverwrites | app/reserve/page.tsx:38-40 | a later edit of a field overwrites an earlier edit of it |
| Reservation.WithFieldCommutes | app/reserve/page.tsx:38-40 | edits of two different fields give the same draft in either order |
| Reservation.InitialDraftControlBuilt | app/reserve/page.tsx:28-36 | the initial draft has requests "", no time chosen and guests "2", one of the select's options |
| Reservation.ControlEditsKeepDraftBuilt | app/reserve/page.tsx:127-206 | the controls write only the six time slots, "1".."8" or "large" for guests, and never requests, so requests stays "" |
| Reservation.StillPending | app/reserve/page.tsx:47-49 | the callbacks left after time t are exactly those due later than t, each kept as many times as it was scheduled |
| Reservation.LifecycleOrder | app/reserve/page.tsx:42-50 | under the page's allowed steps the status never moves back, and success is reached only through submitting |
| Reservation.ReservationForm.constructor | app/reserve/page.tsx:25-36 | on mount the status is idle, the draft is initial, nothing is scheduled |
| Reservation.ReservationForm.SubmitEnabled | app/reserve/page.tsx:210-216 | a submit gets through only when idle, and then exactly when date, time, name, phone and email are non-empty |
| Reservation.ReservationForm.ShownMessage | app/reserve/page.tsx:84-99 | the success view is shown exactly in the success status, with the draft's name, date and email |
| Reservation.ReservationForm.HandleChange | app/reserve/page.tsx:38-40 | the draft becomes the one-field merge and nothing else changes; a control's edit keeps the page invariant |
| Reservation.ReservationForm.HandleSubmit | app/reserve/page.tsx:42-50 | the status becomes submitting and one callback is scheduled 2000 ms ahead; the draft is untouched; a gated submit is the step from idle |
| Reservation.ReservationForm.Elapse | app/reserve/page.tsx:47-49 | a due callback sets success; the rest stay pending; the page invariant is kept and the status moves only along allowed steps |
| Reservation.ReserveAndWait | app/reserve/page.tsx:42-50 | a filled form submits through the gate, which then closes; the status is submitting before 2000 ms and success from then on, showing the entered name, date and email |
| Reservation.EditWhileSubmitting | app/reserve/page.tsx:98-99 | a filled form passes the page gate; an edit made while submitting is what the success view shows |
| Reservation.SubmitTwiceUngated | app/reserve/page.tsx:42-50 | the gate is closed after a submit; calling the handler twice anyway schedules two callbacks, and both end in success |

## Left out

- Rendering, layout and styling are left out. This covers the JSX, the Tailwind classes, the Next.js image and font components, and the other pages and components.
- framer-motion animation parameters are left out: durations, easing, stagger, the progress bar and the scroll parallax. They are floating-point library behaviour.
- Real timers and React's scheduling are replaced by `Elapse` over whole milliseconds. Intervals are taken to fire exactly on multiples of their period after mount. React's development-mode double run of effects is not modelled.
- `e.preventDefault()` and the browser's form validation are DOM behaviour. The `required` check appears only as `SubmitEnabled`. The format checks of `type="email"` and `type="date"` inputs are not modelled.
- `handleChange` builds on the `formData` of the render it closed over. The model applies each edit to the latest draft, which is what happens when every change event is followed by a render.
- A pending submit callback after the reservation page unmounts is not modelled.
