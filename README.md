# EasyGUI list view, on-screen keyboard and private helpers in Dafny

This project models three parts of the EasyGUI embedded graphics library and
proves properties of them.

- **List view widget** (`gui_listview.dfy`, module `GuiListview`). A list view
  owns a list of rows, and each row owns a list of items that may hold text.
  It also owns a NULL-terminated column array that grows on demand. Its scalars
  are the row count, the selected row (-1 for none), the first visible row and
  the slider flags (automatic mode, slider shown). The class `Listview` has the
  widget's fields. Rows are a `seq<Row>`, and each row carries a stable handle
  that stands for its address. The column array is an `array?` that
  `AddColumn` reallocates by copying. Every internal step and public operation
  is a method. Each method is specified by pure functions: `SlideStart`,
  `IncSelected`, `CheckedSelection`, `CheckedStart`, `SetItem`, `Unlink`,
  `BorderIndex` and `Resized`. Lemmas then prove their properties.
  Redraw requests (`guii_widget_invalidate`) are counted in `invalidations`,
  and SelectionChanged notifications in `events`. The row height and widget
  size come in as `Metrics`. The number of rows per page is computed with C's
  truncating division.
- **On-screen keyboard** (`gui_keyboard.dfy`, module `GuiKeyboard`). The
  three key layouts are constant tables. They keep the `'g'`/`'V'` pair of
  the third letter row. The class `Keyboard` is the module-level keyboard
  record together with the state of its widgets:
  - the shift mode (cleared, normal, uppercase);
  - the slide-animation counter;
  - the font and the default font;
  - whether the base widget is visible, and its position;
  - which of the three layouts is shown;
  - the buttons that Init creates;
  - the key events sent to the input queue, as the sequence `sent`.

  Click, double click, the timer tick, show, hide and the create-once
  constructor are methods. Each is specified by the pure functions `EmittedBy`,
  `ShiftAfterClick`, `NextActionValue` and `KeyboardWidgets`.
- **Private helpers** (`gui_private.dfy`, module `GuiPrivate`). This module
  holds the closed-interval rectangle overlap test and the parameter guard
  `AssertParams`.

Allocation results are inputs to the operations:
- `allocOk`/`reallocOk`/`timerOk` are booleans.
- `allocLimit` is the number of item allocations in `setitemstring` that
  succeed before the first one fails.
- `newHandle` is the address the allocator returns for the keyboard.

The process-wide GUI object is the `Gui` parameter. Only its `Initialized`
flag is read.

A few integer widths from the source matter, and the model keeps them:
- `setitemstring` takes its column in 16 bits and increments it before the
  walk. For column 0xFFFF the walk therefore stays on the first item.
- The item lookup behind `getitemvalue` takes the column as an 8-bit value,
  so the column is taken modulo 256.

## Model

| member | source | states |
|---|---|---|
| GuiPrivate.RectMatch | src/include/gui/gui_private.h:123-129 | when the test fails no point lies in both rectangles, so skipping a non-matching widget never skips a visible pixel |
| GuiPrivate.RectMatchIffCommonPoint | src/include/gui/gui_private.h:123-129 | for well-formed rectangles the overlap test holds exactly when some point lies in both (closed intervals) |
| GuiPrivate.RectMatchSymmetric | src/include/gui/gui_private.h:123-129 | the overlap test is symmetric in its two rectangles |
| GuiPrivate.SharedEdgeMatches | src/include/gui/gui_private.h:123-129 | rectangles sharing only a vertical edge match, because the comparison is `>` on closed intervals |
| GuiPrivate.SharedCornerMatches | src/include/gui/gui_private.h:123-129 | rectangles touching at one corner match, and that corner is their only common point |
| GuiPrivate.RectMatchEnclosing | src/include/gui/gui_private.h:123-129 | a well-formed rectangle matches every rectangle that encloses it (itself included), in both argument orders |
| GuiPrivate.AssertParams | src/include/gui/gui_private.h:149-154 | the failure value (0) when the condition is false or the GUI is not initialized, the operation's own result otherwise |
| GuiListview.ItemsPerPage | src/widget/gui_listview.c:97-115 | with a font, exactly that many full rows fit below the header row (r+1 rows ≤ height < r+2 rows); C truncation gives 0 for a widget lower than one row and -1 for height 0; 0 without a font |
| GuiListview.SlideStart | src/widget/gui_listview.c:118-136 | dir<0 moves the start up by |dir|, stopping at 0; dir>0 moves it down by dir unless that passes count − perPage − 1, in which case it becomes exactly count − perPage; dir = 0 changes nothing |
| GuiListview.IncSelected | src/widget/gui_listview.c:148-165 | dir<0 moves the selection up by |dir|, stopping at exactly 0; dir>0 moves it down by dir, stopping at exactly count−1; dir = 0 changes nothing |
| GuiListview.CheckedSelection | src/widget/gui_listview.c:168-178 | a non-negative result is below count; a selection past the end becomes count−1 (−1 when the list is empty); others are kept |
| GuiListview.CheckedStart | src/widget/gui_listview.c:179-187 | the first visible row is ≥ 0 (a negative one becomes 0); if count > perPage the last page is full, and a positive start whose page runs past the end is clamped to exactly count − perPage; a start already in range is kept |
| GuiListview.HitRow | src/widget/gui_listview.c:449-450 | the row index computed from a click lies in the band of rows below the header that holds the click's y |
| GuiListview.RowIndex | src/widget/gui_listview.c:618-624 | the position of a row handle is the first position holding it |
| GuiListview.Unlink | src/widget/gui_listview.c:618-624 | unlinking keeps the other rows in order and shortens the list by one |
| GuiListview.UnlinkRemovesOnlyThatRow | src/widget/gui_listview.c:618-632 | after unlinking, the removed handle is gone, handles stay distinct, and every other handle is still present |
| GuiListview.GetRow | src/widget/gui_listview.c:68-84 | a row exactly when the index is below the row count, and then the row at that index |
| GuiListview.ItemAt | src/widget/gui_listview.c:87-94 | an item exactly when the row exists and has that many items, and then that item |
| GuiListview.SetItem | src/widget/gui_listview.c:660-689 | success iff col < items + allocations available; on success the list is padded with empty items to col+1, item col holds the text and other items are unchanged; on failure the items appended so far remain; col 0xFFFF sets only an existing first item |
| GuiListview.SetItemThenGetItem | src/widget/gui_listview.c:660-689 | after a successful set, the item at (row, col) reads back the text, and other items and rows read as before |
| GuiListview.BorderIndex | src/widget/gui_listview.c:405-415 | the first column whose right border (sum of widths) lies within 10 pixels of x, or the column count when there is none |
| GuiListview.BorderIsFirst | src/widget/gui_listview.c:410-415 | a column with a near border and none before it is the one BorderIndex picks |
| GuiListview.Resized | src/widget/gui_listview.c:416-419 | dragging a border shrinks that column by the drag distance unless it would drop below 4 pixels; other columns are untouched |
| GuiListview.ResizeKeepsMinimumWidth | src/widget/gui_listview.c:416-419 | a column at least 4 pixels wide stays at least 4 pixels wide after a drag |
| GuiListview.Listview.constructor | src/widget/gui_listview.c:241-246 | a zeroed widget after PreInit: no rows or columns, selection −1, slider width 30, automatic slider mode |
| GuiListview.Listview.OnPreInit | src/widget/gui_listview.c:241-246 | PreInit sets selection −1, slider width 30 and automatic slider mode |
| GuiListview.Listview.Slide | src/widget/gui_listview.c:118-136 | the first visible row becomes SlideStart of the old one, and one redraw is requested unless dir is 0 |
| GuiListview.Listview.SetSelected | src/widget/gui_listview.c:139-145 | the selection takes the new value, and SelectionChanged is raised exactly when it differs from the old one |
| GuiListview.Listview.IncSelection | src/widget/gui_listview.c:148-165 | the selection becomes IncSelected of the old one, with one notification when it changed and one redraw unless dir is 0 |
| GuiListview.Listview.CheckValues | src/widget/gui_listview.c:168-194 | selection and first visible row pass the range check; in automatic mode the slider is shown iff count > rows per page |
| GuiListview.Listview.ReleaseRowItems | src/widget/gui_listview.c:201-208 | every item of the row is freed |
| GuiListview.Listview.ReleaseRows | src/widget/gui_listview.c:214-224 | every row and every item is freed, the list is empty and count is 0 |
| GuiListview.Listview.OnRemove | src/widget/gui_listview.c:368-383 | Remove frees all rows, items, columns and the column array |
| GuiListview.Listview.FindColumnBorder | src/widget/gui_listview.c:405-415 | the scan over column widths stops at BorderIndex of the columns for the saved touch x |
| GuiListview.Listview.OnTouchStart | src/widget/gui_listview.c:385-392 | the touch position is saved |
| GuiListview.Listview.DragColumnBorder | src/widget/gui_listview.c:405-422 | a grabbed column is resized to Resized(...), x is saved and one redraw is requested; otherwise nothing changes |
| GuiListview.Listview.OnTouchMove | src/widget/gui_listview.c:393-426 | TouchMoved: a vertical move of more than one row slides by one row toward the move; in the header row a grabbed column border follows the finger; nothing without a font |
| GuiListview.Listview.OnClick | src/widget/gui_listview.c:428-475 | Clicked: inside the slider, the top part slides up and the bottom part slides down; below the header the clicked row is selected if it exists; a header click changes nothing |
| GuiListview.Listview.OnKeyPress | src/widget/gui_listview.c:477-487 | Down and Up move the selection by +1/−1 and are reported handled; other keys change nothing |
| GuiListview.Listview.Callback | src/widget/gui_listview.c:234-498 | each command has the effect of its branch, stated with the same functions as the step methods: PreInit's defaults, Draw's range check and slider flag, Remove's empty widget, TouchStart's saved position, TouchMove's slide and column drag (TouchMoved), Click's slider zones and row hit (Clicked), KeyPress's Up/Down moves and IncSelection's move; the result is TouchHandled, KeyHandled or 1 as the branch reports; every field that a branch does not write keeps its value; unknown commands are not processed and change nothing |
| GuiListview.Listview.GrowColumns | src/widget/gui_listview.c:545 | the reallocated array has col_count + 2 slots, the old columns first and the rest empty |
| GuiListview.Listview.AddColumn | src/widget/gui_listview.c:538-563 | on success one column (width 100 when not positive) is appended and the array stays NULL-terminated; on any allocation failure 0 and the columns are unchanged |
| GuiListview.Listview.SetColumnWidth | src/widget/gui_listview.c:572-587 | for an existing column the width is set, never below 4, with one redraw; past the last column 0 and no change |
| GuiListview.Listview.AddRow | src/widget/gui_listview.c:594-610 | on success a fresh handle's empty row is appended, count grows by one and the values are re-checked (selection, first row, automatic slider), with SelectionChanged raised exactly when the re-check moved the selection; on allocation failure no handle and no change |
| GuiListview.Listview.RemoveRow | src/widget/gui_listview.c:618-632 | the row is unlinked, count drops by one, all other rows stay, and the values are re-checked, with SelectionChanged raised exactly when the selection moved; a NULL handle gives 0 |
| GuiListview.Listview.RemoveRows | src/widget/gui_listview.c:639-650 | all rows are freed, count is 0 and the values are re-checked, with SelectionChanged raised exactly when the selection moved |
| GuiListview.Listview.SetItemString | src/widget/gui_listview.c:660-689 | the row's items become SetItem(...) of the old ones, and 1 is returned exactly when the text was set |
| GuiListview.Listview.SetSliderAuto | src/widget/gui_listview.c:699-714 | automatic mode takes the requested value, with a redraw only when it changed |
| GuiListview.Listview.SetSliderVisibility | src/widget/gui_listview.c:724-745 | in manual mode the slider takes the requested visibility; 1 only when that changed it |
| GuiListview.Listview.Scroll | src/widget/gui_listview.c:753-772 | the first visible row becomes CheckedStart(start + step); 1 exactly when it changed, with one redraw then; the selection and automatic slider are re-checked, with SelectionChanged raised exactly when the selection moved |
| GuiListview.Listview.SetSelection | src/widget/gui_listview.c:780-791 | the selection becomes CheckedSelection of the requested one, SelectionChanged is raised once for the set and once more if the re-check moves it, the first row and automatic slider are re-checked, and one redraw is requested |
| GuiListview.Listview.GetSelection | src/widget/gui_listview.c:798-809 | the selected row; the guard's failure value 0 when the GUI is not initialized |
| GuiListview.Listview.GetItemValue | src/widget/gui_listview.c:820-840 | 1 and exactly the first length−1 characters of the item's text (all of it when shorter) when the item exists; 0 and an empty buffer when it does not; no write at all when length ≤ 1 or before initialization |
| GuiListview.CheckValuesIdempotent | src/widget/gui_listview.c:168-194 | running the range check twice gives the same result as once |
| GuiListview.IncSelectionKeepsRange | src/widget/gui_listview.c:148-165 | a non-zero move from any row or from −1 lands on an existing row; Up from −1 selects row 0 |
| GuiListview.SlideForwardOnShortList | src/widget/gui_listview.c:127-130 | sliding down a list shorter than a page gives a negative first row, which the next range check resets to 0 |
| GuiListview.ScrollExample | src/widget/gui_listview.c:753-772 | with 20 rows and 5 per page, +3 from 0 gives 3 and a further +100 gives 15 |
| GuiListview.RemoveAddedRow | src/widget/gui_listview.c:594-632 | removing the row just added restores the previous row list |
| GuiKeyboard.LayoutOf | src/gui/gui_keyboard.c:362-384 | ABC, 123 and CALC keys bring up layouts 0, 1 and 2 of the layout table respectively |
| GuiKeyboard.ShownOnly | src/gui/gui_keyboard.c:362-384 | exactly the chosen layout of the three is visible |
| GuiKeyboard.CharFor | src/gui/gui_keyboard.c:405-411 | the shift character when shift is on and the key has one, the plain character otherwise |
| GuiKeyboard.Label | src/gui/gui_keyboard.c:306-352 | a label is never empty, and a character key's label is exactly one character (the typed character, see LabelIsTypedCharacter) |
| GuiKeyboard.EmittedBy | src/gui/gui_keyboard.c:403-424 | a character key sends its character for the shift state (the shift character when shift is on and the key has one, the plain one otherwise) and Backspace the backspace key, each followed by the empty key; other keys send nothing |
| GuiKeyboard.ShiftAfterClick | src/gui/gui_keyboard.c:362-415 | layout keys clear shift; Shift is a logical toggle: cleared becomes normal, normal and uppercase become cleared; after an emitted key shift is cleared unless uppercase |
| GuiKeyboard.Typed | src/gui/gui_keyboard.c:353-426 | clicking a sequence of keys in turn keeps the shift state in range and sends at most two events per key, in pairs each closed by the empty key |
| GuiKeyboard.NextActionValue | src/gui/gui_keyboard.c:459-481 | hiding counts up to 10, showing counts down to 0, any other action leaves the counter |
| GuiKeyboard.TimerStops | src/gui/gui_keyboard.c:459-481 | only the hide and show animations stop the timer, and they stop it once the counter is at its end (10 when hiding, 0 when showing) |
| GuiKeyboard.PositionFor | src/gui/gui_keyboard.c:459-481 | the position stays within 50..100 % of the screen for counters 0..10, is 50 % exactly at 0 (shown) and 100 % exactly at 10 (below the screen) |
| GuiKeyboard.RowWidgets | src/gui/gui_keyboard.c:530-541 | one button per key of the row, in order, at vertical position 1 + 25·row |
| GuiKeyboard.LayoutWidgets | src/gui/gui_keyboard.c:528-542 | as many buttons as keys in the layout, all on that layout at their row's position |
| GuiKeyboard.KeyboardWidgets | src/gui/gui_keyboard.c:511-543 | every button belongs to one of the layouts and sits at its row's position |
| GuiKeyboard.Keyboard.constructor | src/gui/gui_keyboard.c:278-281 | the static record: all zero except the animation counter at 10 |
| GuiKeyboard.Keyboard.ShiftDisable | src/gui/gui_keyboard.c:283-286 | shift becomes cleared, redrawing the main layout only if it was on |
| GuiKeyboard.Keyboard.ShiftEnable | src/gui/gui_keyboard.c:288-293 | shift takes the mode, redrawing only when going from cleared to on |
| GuiKeyboard.Keyboard.ShiftToggle | src/gui/gui_keyboard.c:295-298 | shift becomes its logical negation, always redrawing |
| GuiKeyboard.Keyboard.Hide | src/gui/gui_keyboard.c:560-568 | with a keyboard, the base widget is hidden and 1 returned; 0 otherwise |
| GuiKeyboard.Keyboard.Show | src/gui/gui_keyboard.c:577-594 | with a keyboard, it takes the editing widget's font if there is one (with a redraw) and is shown; 0 otherwise |
| GuiKeyboard.Keyboard.Click | src/gui/gui_keyboard.c:353-426 | sent events grow by EmittedBy, shift becomes ShiftAfterClick, the main layout is redrawn iff shift changed, layout keys show only their layout, Hide hides the keyboard |
| GuiKeyboard.Keyboard.DblClick | src/gui/gui_keyboard.c:427-438 | on Shift sets uppercase mode and returns handled; on any other key returns 0 and changes nothing |
| GuiKeyboard.Keyboard.TimerTick | src/gui/gui_keyboard.c:459-481 | the counter becomes NextActionValue, the position 50 + 5·counter when it moved, the keyboard is hidden at the bottom or shown when leaving it, and the timer stops at the end |
| GuiKeyboard.Keyboard.CreateRowButtons | src/gui/gui_keyboard.c:530-541 | the inner loop creates RowWidgets of the row |
| GuiKeyboard.Keyboard.CreateLayoutButtons | src/gui/gui_keyboard.c:528-542 | the row loop creates LayoutWidgets of the layout |
| GuiKeyboard.Keyboard.CreateLayouts | src/gui/gui_keyboard.c:511-543 | only the first layout is shown, and the buttons are KeyboardWidgets of all layouts |
| GuiKeyboard.Keyboard.OnInit | src/gui/gui_keyboard.c:494-547 | the base widget is placed at 50 % and hidden, its font becomes the default font, the letter layout alone is shown, and every key gets its button |
| GuiKeyboard.Keyboard.Create | src/gui/gui_keyboard.c:601-611 | the base widget is created only when there is none, and the stored handle is returned; a failed widget or timer allocation leaves no handle |
| GuiKeyboard.LabelIsTypedCharacter | src/gui/gui_keyboard.c:336-342 | a character key is drawn with exactly the character its click sends |
| GuiKeyboard.SpecialLabelIgnoresShift | src/gui/gui_keyboard.c:312-334 | special keys show the same name in every shift state |
| GuiKeyboard.LetterLayoutHasNoV | src/gui/gui_keyboard.c:126 | the letter layout draws 'g' twice without shift, has no 'v' key, and sends 'V' from the second 'g' key with shift |
| GuiKeyboard.ShiftTwice | src/gui/gui_keyboard.c:295-298 | two Shift clicks restore cleared or normal mode but turn uppercase into normal |
| GuiKeyboard.EnterDoesNothing | src/gui/gui_keyboard.c:360-400 | Enter sends no key and keeps the shift state |
| GuiKeyboard.BackspaceIgnoresShift | src/gui/gui_keyboard.c:389-392 | Backspace sends the same events in every shift state |
| GuiKeyboard.UppercaseSticks | src/gui/gui_keyboard.c:412-415 | in uppercase mode any run of character keys and Backspace keeps uppercase and sends each key's shifted character and the empty key |
| GuiKeyboard.NormalShiftIsOneShot | src/gui/gui_keyboard.c:412-415 | after Shift, only the first of two character keys is shifted and shift ends cleared |
| GuiKeyboard.TickKeepsRange | src/gui/gui_keyboard.c:459-481 | the counter stays within 0..10 and the position within 50..100 % |
| GuiKeyboard.HideReachesBottom | src/gui/gui_keyboard.c:461-468 | hiding reaches 10 after 10 − v ticks, and the next tick stops the timer |
| GuiKeyboard.ShowReachesTop | src/gui/gui_keyboard.c:469-479 | showing from v > 0 reaches 0 after v ticks, and the tick that reaches 0 stops the timer |
| GuiKeyboard.KeyCountOfFourRows | src/gui/gui_keyboard.c:528-542 | a layout of four rows has as many keys as its four rows together |
| GuiKeyboard.ButtonCount | src/gui/gui_keyboard.c:93-276 | Init creates 97 buttons, one per key of the three layouts |

## Left out

- The list view Draw branch and all drawing primitives (rectangles, 3D frames, scroll bar, text). Only the range check that Draw runs first is modelled.
- The floating-point row height (font size × 1.3). The integer row height is an input (`Metrics.rowHeight`), and so are the widget's width and height.
- The 16-bit widths of `count`, `selected`, `visiblestartindex`, the column count and the scroll step are not modelled. These values are unbounded integers. The two column parameters whose width changes behaviour are modelled (see above).
- The TouchMove saved position (`tx`, `ty`) is a function-static variable in the source, so all list views share it. The model keeps one pair per widget.
- The header-click column search in Click has no effect in the source (its action is a TODO), so the model changes nothing for a header click.
- GuiListview.Listview.OnRemove: the source frees the rows, items and columns and leaves the fields dangling, because the widget itself is freed next. The model leaves an empty widget instead.
- GuiListview.Listview.RemoveRow requires the handle to be a row of this list. Unlinking a foreign node corrupts the list in the source.
- GuiListview.Listview.SetItemString requires the row handle to be a row of this list. The source writes into whatever row the handle points to, which is not modelled.
- GuiListview.Listview.GetItemValue requires an existing item to hold text. The source copies from the item's text pointer without checking it.
- GuiListview.Listview.GetSelection returns 0 on a failed guard, as the code does. Its comment says −1.
- Item and column texts are stored by pointer in the source. The model stores the text value, so later changes to the caller's buffer are not modelled.
- Locking (`__GUI_ENTER`/`__GUI_LEAVE`), the OS mailbox definitions and the layout of the `gui_t` struct.
- The allocator. Each allocation outcome is an input, and freeing is removal from the model. `ReleaseRowItems` and `ReleaseRows` return the number of blocks freed.
- The widget tree calls (create, show/hide, invalidate, get-by-id, set position, z-index, 3D style) are not modelled. They appear only as the visibility flags, positions and redraw counters they set.
- Keyboard geometry: the float `x`/`w` of each key and all percent sizes except the vertical positions are not modelled. Unicode encoding of characters is not modelled either. An emitted key is the character itself.
- The value of `GUI_KEY_BACKSPACE` is defined outside these files. The model uses the `BackspaceKey` event for it.
- The keyboard's `action` field is never assigned. The lines that would set it in show/hide are commented out. `TimerTick` is modelled for whatever value the field holds, and nothing in the model starts the timer.
- The layout containers' own callback only answers Init with 1. The default widget callbacks it falls back to are not part of this model.
- GuiKeyboard.Keyboard.Show takes the editing widget's font as an `Option`. A NULL widget and a widget without a font are the same `None` case, because the source treats them alike.
- GuiKeyboard.Keyboard.Create does not model the checks inside widget creation, which are not part of this model. They are folded into the `allocOk` input.
- GuiListview.Listview.OnClick requires a font (`m.hasFont`), and so does `Callback` for a Click command. The source's Click branch computes the row height from the font without checking it, so a click on a list view without a font dereferences NULL there.
- GuiListview.Listview.GrowColumns states that the new slots are empty. `realloc` leaves them uninitialised. When the column allocation then fails in addcolumn, the source keeps an array without a NULL terminator, which the operations modelled here never read past `col_count`.
- The active-window guard (`__GUI_ASSERTACTIVEWIN`) is not used by the list view or keyboard operations, and widget creation is not part of this model.
- How key buttons are drawn, including the font they are drawn with, is not modelled. Only their labels are (`Label`).
