# Inudoption card stack, modelled in Dafny

Inudoption shows a stack of profile cards, like a dating app. The stack view
(`ContentView`) holds the ordered list of live profiles. It draws the cards
whose id lies within 3 of the largest live id, and it gives each card a width
and a vertical offset that depend on the number of live profiles. Each card
(`CardView`) tracks its drag translation. When a drag is released, the card is
dismissed if it moved sideways by more than half the card width; otherwise it
snaps back. A dismissed card's profile is removed from the live list by id.

The model has three modules:

- `Profiles` (profiles.dfy): the `User` record, the five-profile seed list, and
  `Without`, the order-preserving filter that `removeAll { $0.id == id }`
  performs. `RemoveEach` applies a series of dismissals one after another.
- `Gesture` (gesture.dfy): the drag translation `Size`, `GesturePercentage`,
  the release classifier `Classify`, and the class `CardView`. Its
  `translation` field is overwritten while dragging and reset on a snap-back.
- `Stack` (stack.dfy): `MaxId`, the window test `InWindow`, and the layout
  functions `CardOffset` and `CardWidth`. `Rendered` is the list of cards one
  render pass draws. The class `ContentView` holds `users: seq<User>`. Its
  `Remove` method is the removal callback, `Body` is one render pass, and
  `EndDrag` connects a card's release to the removal.

Geometry is modelled with `real` in place of `CGFloat`. The `GeometryProxy` is
replaced by its width. The callback `onRemove` is modelled by the list of users
it was called with, which `CardView.OnEnded` returns. "Called exactly once with
this card's user" is then the list `[user]`.

Two consequences of the code as written:

- The card with the largest id gets offset 0 and full width only while the ids
  are exactly `0..count-1` (`ConsecutiveLayout`), because `getCardWidth` and
  `getCardOffset` use `users.count`, not a card's rank. After removing id 2
  from the seed list, id 4 is drawn at offset -10 and 10 wider than the
  geometry (`AfterRemovingTwo`).
- `getGesturePercentage` divides by the card's width with no guard for a zero
  width (line 114). The model requires a positive width. The width a card
  divides by is its own frame width, which the stack sets with `getCardWidth`
  (lines 80-81), so `EndDrag` classifies against `CardWidth`, not against the
  stack's geometry width.

The functions `Without`, `InWindow`, `StackCards` and `Rendered` carry no
contract of their own; the lemmas named in the table below state what they
mean (`WithoutMembers` and `WithoutConcat` for `Without`, `WindowIds` for
`InWindow`, `StackCardsMembers`, `StackCardsConcat` and `RenderedMembers` for
the drawn cards).

## Model

| member | source | states |
|---|---|---|
| Profiles.SeedUsers | Inudoption/Inudoption/ContentView.swift:24-30 | the initial list has five profiles whose ids are 0..4 in list order |
| Profiles.WithoutMembers | Inudoption/Inudoption/ContentView.swift:77 | a profile is still live after removal iff it was live and its id differs from the removed id |
| Profiles.WithoutConcat | Inudoption/Inudoption/ContentView.swift:77 | removal distributes over concatenation, so kept profiles keep their relative order |
| Profiles.WithoutAbsent | Inudoption/Inudoption/ContentView.swift:77 | removing an id that no live profile has leaves the list unchanged |
| Profiles.WithoutCount | Inudoption/Inudoption/ContentView.swift:77 | the list shrinks by exactly the number of profiles carrying the removed id |
| Profiles.DistinctCount | Inudoption/Inudoption/ContentView.swift:24-30 | with distinct ids an id occurs at most once, and once exactly when some profile has it |
| Profiles.WithoutPresent | Inudoption/Inudoption/ContentView.swift:77 | with distinct ids, removing a present id removes exactly one profile |
| Profiles.WithoutDistinct | Inudoption/Inudoption/ContentView.swift:77 | removal keeps live ids distinct |
| Profiles.RemoveEachMembers | Inudoption/Inudoption/ContentView.swift:76-78 | after a series of dismissals a profile is live iff it was live before and its id was never dismissed |
| Profiles.DismissAll | Inudoption/Inudoption/ContentView.swift:76-78 | dismissing every id that occurs leaves an empty list |
| Profiles.SeedDismissAll | Inudoption/Inudoption/ContentView.swift:24-30 | dismissing ids 4, 3, 2, 1, 0 from the seed list leaves it empty |
| Profiles.SeedWithoutTwo | Inudoption/Inudoption/ContentView.swift:24-30 | dismissing id 2 from the seed list leaves the profiles with ids 0, 1, 3, 4, in that order |
| Gesture.Abs | Inudoption/Inudoption/ContentView.swift:156 | the magnitude used by the threshold test is non-negative and equals the value or its negation |
| Gesture.GesturePercentage | Inudoption/Inudoption/ContentView.swift:113-115 | the percentage times the card width is the horizontal translation |
| Gesture.Classify | Inudoption/Inudoption/ContentView.swift:155-160 | a release dismisses iff twice the horizontal translation is above the width or below its negation, with the 0.5 threshold of line 111 and no division |
| Gesture.HalfWidthSnapsBack | Inudoption/Inudoption/ContentView.swift:156 | the test is strict: a drag of exactly half the width, either way, snaps back |
| Gesture.ClassifySymmetric | Inudoption/Inudoption/ContentView.swift:156 | the outcome ignores the vertical translation and the drag direction |
| Gesture.ClassifyExamples | Inudoption/Inudoption/ContentView.swift:156 | 300 of 500 dismisses; 150 of 500 snaps back |
| Gesture.CardView.constructor | Inudoption/Inudoption/ContentView.swift:101-109 | a new card holds its user and a zero translation |
| Gesture.CardView.OnChanged | Inudoption/Inudoption/ContentView.swift:153-154 | while dragging, the translation becomes the gesture's latest translation; the user is unchanged |
| Gesture.CardView.OnEnded | Inudoption/Inudoption/ContentView.swift:155-160 | on a dismissal the callback is called once with this card's user and the translation is kept; otherwise the callback is not called and the translation is reset to zero |
| Stack.MaxId | Inudoption/Inudoption/ContentView.swift:40-42 | 0 for an empty list; otherwise at least every live id and equal to one of them |
| Stack.CardOffset | Inudoption/Inudoption/ContentView.swift:36-38 | the offset is 0 iff the id is count-1, and positive iff the id is smaller |
| Stack.CardWidth | Inudoption/Inudoption/ContentView.swift:32-34 | width plus offset is the geometry width |
| Stack.WindowIds | Inudoption/Inudoption/ContentView.swift:75 | the window `(maxID - 3)...maxID` holds exactly the four ids maxID-3, maxID-2, maxID-1, maxID |
| Stack.CardFor | Inudoption/Inudoption/ContentView.swift:80-82 | a drawn card carries its profile, its width and offset add up to the geometry width, and its offset is 0 iff its id is count-1 |
| Stack.LayoutStep | Inudoption/Inudoption/ContentView.swift:32-38 | one id step up lowers the offset by 10 and widens the card by 10 |
| Stack.LayoutMonotone | Inudoption/Inudoption/ContentView.swift:32-38 | for a fixed list, a larger id gives a strictly smaller offset and a strictly larger width |
| Stack.StackCardsMembers | Inudoption/Inudoption/ContentView.swift:74-83 | a card is produced exactly for each profile inside the window, laid out against the given count |
| Stack.RenderedMembers | Inudoption/Inudoption/ContentView.swift:75 | a profile is drawn iff maxID-3 <= id <= maxID, with the layout computed from the whole live count |
| Stack.StackCardsBound | Inudoption/Inudoption/ContentView.swift:75 | with distinct ids, no more cards are drawn than the window set has ids |
| Stack.RenderedAtMostFour | Inudoption/Inudoption/ContentView.swift:75 | with distinct ids at most four cards are drawn |
| Stack.TopCardRendered | Inudoption/Inudoption/ContentView.swift:75 | a non-empty list always draws the card of the profile holding maxID |
| Stack.RenderedEmpty | Inudoption/Inudoption/ContentView.swift:74 | an empty list draws no cards |
| Stack.ConsecutiveLayout | Inudoption/Inudoption/ContentView.swift:32-38 | while ids are exactly 0..count-1, maxID is count-1; its card has offset 0 and full width, and every other drawn card has a positive offset and a smaller width |
| Stack.StackCardsConcat | Inudoption/Inudoption/ContentView.swift:74-83 | the cards of a list split in two are those of the first part followed by those of the second: cards are drawn in list order |
| Stack.StackCardsSnoc | Inudoption/Inudoption/ContentView.swift:74-83 | a profile appended to the list is drawn after the others iff it lies in the window |
| Stack.FiveStackCards | Inudoption/Inudoption/ContentView.swift:74-83 | five profiles with ids 0..4 produce the cards of ids 1..4, in order |
| Stack.FiveConsecutiveRendered | Inudoption/Inudoption/ContentView.swift:72-85 | a list with ids 0..4 draws ids 1..4 with offsets 30, 20, 10, 0 and widths reduced by the same amounts |
| Stack.SeedRendered | Inudoption/Inudoption/ContentView.swift:24-30 | the seed list draws ids 1..4 with offsets 30, 20, 10, 0 |
| Stack.GapStackCards | Inudoption/Inudoption/ContentView.swift:74-83 | profiles with ids 0, 1, 3, 4 produce the cards of ids 1, 3, 4, in order |
| Stack.GapRendered | Inudoption/Inudoption/ContentView.swift:32-38 | with ids 0, 1, 3, 4 the drawn offsets are 20, 0, -10: the layout uses the live count, not the rank |
| Stack.AfterRemovingTwo | Inudoption/Inudoption/ContentView.swift:77 | after dismissing id 2 from the seed list, id 4 is drawn at offset -10 and 10 wider than the geometry |
| Stack.ContentView.constructor | Inudoption/Inudoption/ContentView.swift:24-30 | the view starts with the seed list, whose ids are distinct |
| Stack.ContentView.Remove | Inudoption/Inudoption/ContentView.swift:76-78 | the live list becomes the old list without the removed user's id, and ids stay distinct |
| Stack.ContentView.Body | Inudoption/Inudoption/ContentView.swift:72-85 | with distinct live ids, one pass over the live list returns exactly the cards `Rendered` describes, at most four of them, including the card of the profile holding maxID when the list is non-empty |
| Stack.ContentView.EndDrag | Inudoption/Inudoption/ContentView.swift:76-78 | the release is classified against the card's own frame width `CardWidth`; a dismissal removes the card's id from the live list and keeps the card's translation; any other release leaves the list alone and resets the translation |

## Left out

- Notification permission and scheduling (`registerForRemoteNotification`, `scheduleLocalNotification`, the `onAppear` hook, lines 44-69 and 87-96). These are OS calls with an asynchronous callback.
- SwiftUI rendering: `GeometryReader`, stacks, images, text, padding, shadows and animations. `Body` returns the laid-out cards in place of views. The card height of 400 and the horizontal offset by the translation are not modelled.
- The rotation effect `(tx / width) * 25` degrees (line 150). It is cosmetic output.
- `CGFloat` behaviour: rounding, and the NaN or infinity that a zero width gives in `getGesturePercentage`. The model computes with exact reals and requires a positive width.
- 64-bit `Int` overflow in `users.count - 1 - id` and in `maxID - 3`. Ids and counts are unbounded integers.
- `User.description`, the `Hashable` identity that `ForEach` uses, and `ContentView_Previews`.
- Gesture.CardView.OnEnded: when a dismissal happens, the SwiftUI view is discarded. The model keeps the object and only says that its translation is unchanged.
