# Mindfulness app: a verified model of its view state

The app (one SwiftUI file, `ContentView.swift`) offers a breathing animation, a diary,
a freehand doodling canvas and a tap-the-shape game. Each feature keeps its own local
`@State` and changes it in small, single-threaded steps: a drag sample, a timer tick,
a button press. This project models those steps in Dafny and proves what they
guarantee.

Each view is a `class` whose fields are the `@State` variables that its handlers
change (the game's constant `shapeColor` is not modelled). Its methods are the view's
handlers and change those fields in place, as the Swift code does. For the canvas, the
game and the breathing view, each method's `ensures` ties the new state to a pure
transition function of the old state. Lemmas about those functions, often over whole
sequences of events, carry the properties. The journal's delete is tied to the
function `RemoveOffsets` in the same way. Its add-entry form's methods state their new
fields and the grown list directly. Module `Timers` (`timers.dfy`) defines n ticks of
a repeating timer once, for the game and the breathing view.

- `graphics.dfy`, module `Graphics`: the colours the views name, the colour picker's
  palette, and points and sizes with integer coordinates.
- `doodling.dfy`, module `Doodling`: the drawing canvas (`DoodlingPageView`, `Line`,
  `ColorPickerView`'s tap). `Drag` is the drag handler. `Step` and `Run` apply any
  sequence of canvas inputs. The lemmas show these facts:
  - every stroke has at least one point;
  - a stroke's colour and width never change once it exists;
  - without Clear, the number of strokes grows by exactly the number of
    zero-translation samples;
  - a zero-translation sample followed by non-zero-translation samples yields one
    stroke whose points are those samples' locations in order;
  - non-zero-translation samples on an empty canvas are dropped.
- `tap_game.dfy`, module `TapGame`: the game's countdown, score and restart
  (`GamePageView`). The clock never goes negative, and the game is over only when the
  clock reads 0. Once over, the game stays over under ticks. From a restart, the
  sixteenth tick is the first to end the game.
- `breathing.dfy`, module `Breathing`: the timer callback of `BreathingExerciseView`.
  Each tick flips the phase. From the view's first state the phases alternate.
- `journal.dfy`, module `Journal`: the diary list (`DigitalJournalView.deleteEntry`,
  `AddEntryForm.saveEntry`). Removal at a set of offsets is the function
  `RemoveOffsets`. Its lemmas give its exact length and say where every kept entry
  lands. Deleting a just-saved entry gives back the earlier list.

Observations from the code, kept in the model rather than corrected:

- The game does not block taps after it ends: `TapGame.Tap` raises the score whatever
  `gameOver` says.
- The breathing view starts white. The timer only ever sets indigo or mint, so after
  two ticks scale and caption are back to the start but the colour is not
  (`Breathing.Alternates`).
- A new stroke starts on every sample whose cumulative translation is zero. That
  includes a drag that comes back exactly to its starting point, so one drag can leave
  two strokes (`Doodling.ReturnToOriginStartsStroke`).
- When the clock reaches 0, the game is not over yet. The next tick ends it, so
  "Time: 0" shows for one tick while the game is still running.

## Model

| member | source | states |
|---|---|---|
| `Graphics.PaletteIsDistinct` | ContentView.swift:308-312 | the picker offers twelve pairwise distinct colours (they are ForEach identities), black among them, white not |
| `Doodling.Drag` | ContentView.swift:236-245 | zero translation: one new stroke at the end holding only the location, in the selected colour and width, earlier strokes unchanged; otherwise with strokes present: same count, earlier strokes unchanged, the last grows by exactly the location at its end with colour and width kept; otherwise nothing changes; in every case the old strokes are extended, never altered, and well-formedness is kept |
| `Doodling.Step` | ContentView.swift:236-258 | a canvas input keeps every stroke non-empty with a palette colour; Clear empties the list; every other input keeps each old stroke's place, colour, width and points prefix; a swatch tap sets exactly the colour and a slider move exactly the width, leaving the strokes and the other selection untouched |
| `Doodling.RunPreservesValid` | ContentView.swift:236-258 | after any sequence of inputs every stroke has at least one point and a palette colour, and the selection stays in the palette |
| `Doodling.RunExtends` | ContentView.swift:239-243 | without Clear, whatever happens to the selection, no stroke is removed, reordered or recoloured, no width changes, and points only grow at the end |
| `Doodling.RunCountsStrokes` | ContentView.swift:238-244 | without Clear, the number of strokes grows by exactly the number of zero-translation samples |
| `Doodling.MovesExtendLastStroke` | ContentView.swift:240-244 | continuation samples append their locations, in order, to the last stroke only; earlier strokes and the selection are unchanged |
| `Doodling.StrokeOfOneDrag` | ContentView.swift:237-244 | a zero-translation sample followed by non-zero-translation samples adds exactly one stroke, whose points are the samples' locations in order, with the selection of the moment |
| `Doodling.SelectThenDraw` | ContentView.swift:236-253 | a width and a colour chosen before a zero-translation sample become the new stroke's width and colour; its points are the locations of that sample and the non-zero-translation samples after it, in order; the earlier strokes are untouched |
| `Doodling.ReturnToOriginStartsStroke` | ContentView.swift:238-239 | a drag that returns exactly to its origin (translation zero again) starts a second stroke there: one drag of three samples leaves two strokes |
| `Doodling.MovesOnEmptyAreDropped` | ContentView.swift:241 | non-zero-translation samples on an empty canvas change nothing |
| `Doodling.ClearThenDraw` | ContentView.swift:257-259 | Clear empties the canvas whatever it held, clearing twice equals clearing once, and a following zero-translation sample leaves exactly one one-point stroke |
| `Doodling.ClearAfterFourStrokesScenario` | ContentView.swift:238-258 | four zero-translation samples on an empty page leave four strokes; Clear then leaves none, and one more zero-translation sample leaves one |
| `Doodling.DoodlingPage.constructor` | ContentView.swift:224-226 | the page starts with no strokes, black, width 5 |
| `Doodling.DoodlingPage.OnDragChanged` | ContentView.swift:236-245 | the handler, written as pop, append point, push, changes the strokes exactly as `Drag` does, leaves the selection alone and keeps the page valid |
| `Doodling.DoodlingPage.SelectColor` | ContentView.swift:316-318 | a swatch tap sets the selected colour and touches no stroke |
| `Doodling.DoodlingPage.SetLineWidth` | ContentView.swift:253 | a slider move sets the width and touches no stroke |
| `Doodling.DoodlingPage.Clear` | ContentView.swift:257-259 | the Clear button leaves no strokes and keeps the selection |
| `TapGame.Tick` | ContentView.swift:377-383 | while time is left and the game is not over the clock drops by one and the game stays on; otherwise the game is over and the clock is unchanged; the score and shape never change; a non-negative clock stays non-negative; the state invariant is kept |
| `TapGame.Tap` | ContentView.swift:387-391 | the score rises by exactly one, the clock and game-over flag are untouched even after the game ends, and the shape moves to the new position |
| `TapGame.Countdown` | ContentView.swift:378-379 | n ticks with n at most the time left take exactly n seconds off and change nothing else |
| `TapGame.OverIsFinal` | ContentView.swift:380-382 | once the game is over, any number of ticks changes nothing |
| `TapGame.EndsOnTick` | ContentView.swift:377-383 | from a running consistent state the game is not over after up to timeRemaining ticks and is over, with the clock at 0, after one more |
| `TapGame.SixteenthTickEndsGame` | ContentView.swift:393-398 | from the restart state the clock reads 15 - n after n <= 15 ticks, and the sixteenth tick is the first to end the game |
| `TapGame.TicksKeepScore` | ContentView.swift:377-383 | ticks never change the score or the shape's position |
| `TapGame.TicksKeepConsistent` | ContentView.swift:377-383 | ticks keep the clock within 0..15, the game over only at 0, the score non-negative |
| `TapGame.GamePage.constructor` | ContentView.swift:327-330 | a new game: score 0, 15 seconds, not over, shape at (100, 100) |
| `TapGame.GamePage.TimerFired` | ContentView.swift:377-383 | the timer callback changes the fields exactly as `Tick` and keeps the invariant |
| `TapGame.GamePage.ShapeTapped` | ContentView.swift:387-391 | a tap changes the fields exactly as `Tap` with a position in the board's range, keeping the invariant |
| `TapGame.GamePage.RestartGame` | ContentView.swift:393-398 | restart restores score 0, 15 seconds, not over, shape at (100, 100), from any state |
| `Breathing.Tick` | ContentView.swift:95-103 | every tick ends in the exhale phase (1.5, "Exhale", indigo) or the inhale phase (1.0, "Inhale", mint), always with a different scale than before; the caption is "Exhale" exactly when the scale was 1.0 |
| `Breathing.TwoTicksReturn` | ContentView.swift:95-103 | within the cycle a tick changes the phase and two ticks return to it |
| `Breathing.Alternates` | ContentView.swift:48-50 | from the first state (1.0, "Inhale", white) the view shows exhale after every odd number of ticks and mint inhale after every even positive number, never the white start again |
| `Breathing.BreathingExercise.constructor` | ContentView.swift:48-50 | the view starts at scale 1.0, "Inhale", white |
| `Breathing.BreathingExercise.TimerFired` | ContentView.swift:94-104 | the timer callback changes scale, caption and colour exactly as `Tick` |
| `Journal.RemoveOffsets` | ContentView.swift:168-170 | removal at offsets leaves as many entries as there were minus the removed offsets within range, and only entries that were there |
| `Journal.KeptMovesDown` | ContentView.swift:168-170 | an entry at an offset not removed survives, moved down by the number of removed offsets before it |
| `Journal.RemoveValidOffsets` | ContentView.swift:168-170 | removing valid offsets shortens the list by exactly their number |
| `Journal.RemoveNothing` | ContentView.swift:168-170 | deleting an empty set of offsets leaves the list unchanged |
| `Journal.DeleteUndoesSave` | ContentView.swift:205-208 | deleting the entry just appended gives back the earlier list |
| `Journal.DigitalJournal.constructor` | ContentView.swift:132 | the journal starts empty |
| `Journal.DigitalJournal.DeleteEntry` | ContentView.swift:168-170 | a swipe-to-delete replaces the list by `RemoveOffsets` of it, one entry fewer per offset |
| `Journal.AddEntryForm.constructor` | ContentView.swift:175-178 | the sheet is bound to the journal's list and opens with empty text and the given date |
| `Journal.AddEntryForm.EditDescription` | ContentView.swift:185 | typing sets the form's text |
| `Journal.AddEntryForm.PickDate` | ContentView.swift:183 | picking a date sets the form's date |
| `Journal.AddEntryForm.SaveEntry` | ContentView.swift:205-208 | Save grows the bound journal by one: the new entry, with the form's date and text, last, the earlier entries unchanged |

## Left out

- Stroke and entry identities (`UUID`): they are fixed at creation and only serve as
  list identities. Line and entry values here have no identity field.
- Colours are abstract tokens. `CGFloat` coordinates are integers, since they are only
  stored and compared with zero.
- Timer scheduling and animation: `Timer.scheduledTimer` in the breathing view,
  `Timer.publish` in the game, `withAnimation` and the breathing-duration slider.
  Only the per-tick transition is modelled. A timer is scheduled on every `onAppear`
  and never invalidated, so stacked timers may deliver extra ticks; each tick is
  still the same transition.
- TapGame.GamePage.ShapeTapped: the random new position is a parameter constrained
  to the board's range, not a random draw.
- TapGame.Tap: the score is an unbounded integer. Swift's `Int` would trap on
  overflow after 2^63 - 1 taps, and that is not modelled.
- Rendering (`CanvasView`'s path drawing), the `DateFormatter` behind `dateFormatted`,
  navigation, sheets, `presentationMode` dismissal and the Cancel button: these are
  presentation glue with no state change to the modelled data.
- Journal.DigitalJournal.DeleteEntry: requires every offset to index an entry. The
  list's `onDelete` only passes offsets of rows it shows, and the behaviour of
  `remove(atOffsets:)` on other offsets is not part of this model.
- `GamePageView.shapeColor`: a constant `.mint` that no handler assigns; it only
  colours the shape, so the game state has no field for it.
- `Journal.Date` is an abstract instant (an integer); `Date()` for today is a
  parameter of the form's constructor.
