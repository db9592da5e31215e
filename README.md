# TUI file manager: navigator and permission colouring

A Dafny model of the browser component of a terminal file manager written in
Go with Bubble Tea. The component keeps a working directory, its listing, a
selection index and a scrolling viewport. It reacts to terminal resizes, to
directory listings arriving asynchronously (each tagged with the `ID` of the
browser that requested it), and to four key bindings: Up, Down, Open and
Parent. It also renders the listing one line per entry, colouring each
character of the permission string by what it means.

Modules, one per concern of `filemanager/filemanager.go`:

- `FileSystem`: paths as segment lists, `Join` and `Dir`, directory entries.
- `Perms`: `writePerms`, with lipgloss styles replaced by abstract tags
  (a palette and a role).
- `Render`: the row layout of `renderFiles`. The outcome of `os.Stat` for
  each entry is an input.
- `Navigation`: the model's state as a value, plus one function per case of
  `Update` and the lemmas about them. `Run` feeds a sequence of messages to
  a step function and collects the load requests. A load request is returned
  data: the directory to list and the `ID` to tag the answer with. It is not
  a command that gets executed.
- `FileManager`: `filemanager.Model` as a class whose methods change its
  fields in place. Each method handling a message is specified by the
  `Navigation` handler of the same name, `Init` by `Navigation.Init`, and
  `RenderFiles` by `Render.Rendered`. Go's `Update` works on a copy that the host stores back, so
  changing the one object in place has the same effect.
- `ClampedSelection`: a reachable out-of-range index in Open, and the
  corrected listing handler that clamps `Selected`.
- `FreshListing`: a superseded listing applied under a newer directory, and
  the corrected listing handler that checks which request it answers.

`Navigation` and `FileManager` model the code as written. `ClampedSelection`
holds the corrected handler `UpdateClamped` and its proof; `FreshListing`
holds the corrected handler `OnListing` and its proofs.

In several places the code does less than a tidy browser would. The model
follows the code:

- a listing does not clamp `Selected`;
- Parent does not reset `Selected`;
- Down on an empty listing sets `Selected` to -1;
- Up and Down always re-centre the offset, even when the selection is still
  visible;
- the viewport height after a resize is the terminal height minus the
  margin, with no lower bound;
- the first resize creates a fresh viewport, so the offset becomes 0;
- the selection is kept inside the window only by Up and Down: Parent resets
  the offset to 0 and keeps `Selected`, and a later resize keeps the offset,
  so either can leave the selection below the window;
- every request carries the browser's one `ID`, so the answer to a request
  the user has already moved away from is still applied.

## Model

| member | source | states |
|---|---|---|
| `FileSystem.Join` | filemanager/filemanager.go:197 | the child path extends the directory by exactly the entry's name |
| `FileSystem.Dir` | filemanager/filemanager.go:203 | the parent drops the last segment; the starting directory is its own parent |
| `FileSystem.DirOfJoin` | filemanager/filemanager.go:197-203 | going into a child and back up returns to the same directory |
| `FileSystem.JoinOfDir` | filemanager/filemanager.go:197-203 | going up and back into the last segment returns to the same directory |
| `Perms.TypeRole` | filemanager/filemanager.go:260-267 | the first character is a Dir exactly when it is `d`, a Symlink exactly when it is `l`, and a File otherwise |
| `Perms.PermStyle` | filemanager/filemanager.go:269-283 | a later character is Read, Write, Exec, None or Special for `r`, `w`, `x`, `-`, `sStT` respectively (each an if-and-only-if), and is unstyled for any other character |
| `Perms.TextAppend` | filemanager/filemanager.go:258-286 | the text of appended spans is the concatenation of their texts |
| `Perms.PermSpans` | filemanager/filemanager.go:257-287 | exactly one span per input character and in order, each holding its own character; the first is styled by the type rule, every later one by the permission rule |
| `Perms.SpellsPointwise` | filemanager/filemanager.go:257-287 | spans that each hold one character, in order, spell those characters |
| `Perms.PermSpansSpell` | filemanager/filemanager.go:257-287 | styling never changes the characters: the spans spell the mode string |
| `Perms.PermStylePositional` | filemanager/filemanager.go:269-284 | a later cell depends on its own character only, not on its position or the rest of the string |
| `Perms.WritePerms` | filemanager/filemanager.go:257-287 | the loop produces exactly `PermSpans`: one cell per character, in order, the first classified by the type rule and each later one by the permission rule; the cells spell the mode string; a non-empty input is required, because Go reads `perms[0]` |
| `Render.Row` | filemanager/filemanager.go:229-251 | a line has three spans more than its mode string |
| `Render.RowLayout` | filemanager/filemanager.go:229-251 | a line spells `mode + " " + name + "\n"` and starts with the coloured mode string; every styled span uses the highlighted palette exactly when the line is for the selected entry, and so does the separator's background; the span after the mode string's is the name, coloured Dir or File; the line ends with an unstyled line break |
| `Render.RowText` | filemanager/filemanager.go:240-251 | the mode spans followed by separator, name and line break spell the whole line |
| `Render.RowPalette` | filemanager/filemanager.go:230-248 | a line built from one palette uses that palette in every styled span |
| `Render.OkIndices` | filemanager/filemanager.go:216-227 | the indices of the entries that get a line: strictly increasing, each with a successful stat, and including every such entry |
| `Render.RowsAtPrefix` | filemanager/filemanager.go:216-252 | the lines of earlier entries do not depend on later ones |
| `Render.RowsAtSnoc` | filemanager/filemanager.go:216-252 | one more successful entry appends exactly its line |
| `Render.RenderedByRows` | filemanager/filemanager.go:214-255 | the output is exactly the lines of the entries whose stat succeeded, in listing order; a failed stat contributes nothing; only the line whose index equals `Selected` is highlighted |
| `Render.RenderFiles` | filemanager/filemanager.go:214-255 | the loop over the entries produces exactly `Rendered`, which by `RenderedByRows` is one line per entry with a successful stat, in listing order, with only the selected entry's line highlighted |
| `Navigation.Half` | filemanager/filemanager.go:180 | Go's `/ 2`, truncating toward zero for negative heights |
| `Navigation.Recentre` | filemanager/filemanager.go:180 | the requested offset is never negative and equals 0 or `selected - height/2`; for a window of at least one line and a non-negative selection, `offset <= selected <= offset + height - 1` |
| `Navigation.New` | filemanager/filemanager.go:95-106 | a new model has the given `ID` and directory, no entries, `Selected = 0`, `Margin = 4`, not ready, and a zero-sized viewport (width, height, offset and `YPosition` all 0) |
| `Navigation.Init` | filemanager/filemanager.go:148-150 | the first request lists the starting directory under the model's own `ID` |
| `Navigation.Completion` | filemanager/filemanager.go:137-145 | the answer to a request reports the listing under the request's `ID` |
| `Navigation.OnResize` | filemanager/filemanager.go:154-166 | the viewport height becomes the terminal height minus the margin, and its width the terminal width; only the first resize resets the offset and sets `YPosition = Margin/2`; later ones keep both; `ID`, `CWD`, `Files`, `Selected` and `Margin` never change |
| `Navigation.OnDirectoryLoaded` | filemanager/filemanager.go:167-172 | a listing with another `ID` changes nothing; a matching one replaces `Files` wholesale; `Selected`, `CWD` and the viewport are never touched |
| `Navigation.OnUp` | filemanager/filemanager.go:175-182 | `Selected` drops by exactly one when it is positive and is otherwise unchanged, so it never goes negative from `Selected >= 0`; the offset is re-centred and not negative; with a window of at least one line the selection is visible; nothing else changes |
| `Navigation.OnDown` | filemanager/filemanager.go:183-191 | `Selected` becomes `min(old+1, len(Files)-1)`; from any `Selected >= -1` (every reachable value) it lands in `[0, len(Files)-1]` on a non-empty listing and at -1 on an empty one; the offset is re-centred; the selection is visible when the window has a line; nothing else changes |
| `Navigation.OnOpen` | filemanager/filemanager.go:192-201 | nothing happens on an empty listing or on an entry that is not a directory; on a directory it sets `CWD := join(CWD, name)`, `Selected := 0` and offset 0, and requests the new directory under the model's `ID`; it panics exactly when the listing is non-empty and `Selected` is outside it |
| `Navigation.OnParent` | filemanager/filemanager.go:202-205 | it sets `CWD := dir(CWD)` and offset 0, keeps `Selected` and `Files`, and requests the new directory under the model's `ID` |
| `Navigation.Update` | filemanager/filemanager.go:152-212 | `ID` and `Margin` never change; a request is issued exactly by Parent and by Open on a directory, always for the new `CWD` under the model's own `ID`; only Open can panic, and it leaves the state as it was |
| `Navigation.RunKeepsIdentity` | filemanager/filemanager.go:137-205 | over any sequence of messages the `ID` and margin stay put, and every requested load carries the model's `ID` |
| `Navigation.RunSelectedAtLeastMinusOne` | filemanager/filemanager.go:175-191 | over any sequence of messages, `Selected` never drops below -1 |
| `Navigation.OwnLoadAccepted` | filemanager/filemanager.go:137-172 | the answer to a model's own request is never discarded: it replaces `Files` |
| `Navigation.InitLoadAccepted` | filemanager/filemanager.go:137-172 | the answer to the request `Init` issues replaces `Files` and changes nothing else |
| `Navigation.ParentThenOpen` | filemanager/filemanager.go:192-205 | Parent, then the parent's listing, then Open returns to the starting directory and requests it again, whenever the kept `Selected` now indexes that directory |
| `Navigation.ScrollScenario` | filemanager/filemanager.go:183-191 | two Downs in a three-entry listing with a two-line window select the third entry and scroll by one line |
| `Navigation.ParentLeavesWindow` | filemanager/filemanager.go:202-205 | with `Selected = 3` in a two-line window at offset 2, Parent moves the offset to 0 and the selection, kept, is no longer in the window |
| `Navigation.ShrinkingResizeLeavesWindow` | filemanager/filemanager.go:163-166 | with `Selected = 5` in a ten-line window at offset 0, a resize to two lines keeps the offset and the selection is no longer in the window |
| `FileManager.Model.constructor` | filemanager/filemanager.go:95-106 | the new object is `New(id, cwd)` |
| `FileManager.Model.Init` | filemanager/filemanager.go:148-150 | returns `Navigation.Init` of the object's state: a request for the working directory under the object's `ID` |
| `FileManager.Model.Resize` | filemanager/filemanager.go:154-166 | the fields change as `OnResize` says |
| `FileManager.Model.DirectoryLoaded` | filemanager/filemanager.go:167-172 | the fields change as `OnDirectoryLoaded` says; a stale message leaves them all unchanged |
| `FileManager.Model.Up` | filemanager/filemanager.go:175-182 | the fields change as `OnUp` says; the selection stays non-negative and inside a window of at least one line |
| `FileManager.Model.Down` | filemanager/filemanager.go:183-191 | the fields change as `OnDown` says; the selection stays inside a non-empty listing and inside a window of at least one line |
| `FileManager.Model.Open` | filemanager/filemanager.go:192-201 | the fields and the returned command are as `OnOpen` says, including the panic outcome |
| `FileManager.Model.Parent` | filemanager/filemanager.go:202-205 | the fields and the returned command are as `OnParent` says; `Selected` is kept |
| `FileManager.Model.Update` | filemanager/filemanager.go:152-212 | the fields and the returned command are as `Update` says |
| `FileManager.Model.RenderFiles` | filemanager/filemanager.go:214-255 | renders the object's listing as `Rendered` specifies |
| `ClampedSelection.DownBeforeFirstListingPanics` | filemanager/filemanager.go:184-196 | Down before the first listing, then that listing, then Open indexes entry -1 of a one-entry listing |
| `ClampedSelection.ParentIntoShorterListingPanics` | filemanager/filemanager.go:171-205 | the third of three entries selected, then Parent, then a one-entry parent listing, then Open indexes entry 2 of a one-entry listing |
| `ClampedSelection.DownInEmptyDirectoryThenParentPanics` | filemanager/filemanager.go:184-205 | Down in an empty directory, then Parent, then a one-entry parent listing, then Open indexes entry -1 of a one-entry listing |
| `ClampedSelection.Clamp` | filemanager/filemanager.go:171 | the clamped selection is 0 for an empty listing, a valid index otherwise, and unchanged when already valid |
| `ClampedSelection.OnDirectoryLoadedClamped` | filemanager/filemanager.go:167-172 | a stale listing is still ignored; a matching one replaces `Files` and leaves a valid selection; when the old selection was already valid, it agrees with the code as written |
| `ClampedSelection.ClampedStepKeepsSelectionValid` | filemanager/filemanager.go:152-212 | with the clamp, every message keeps the selection valid and none panics |
| `ClampedSelection.ClampedNeverPanics` | filemanager/filemanager.go:152-212 | with the clamp, no sequence of messages from a valid state panics, and the final state is valid |
| `ClampedSelection.ClampedFromNewNeverPanics` | filemanager/filemanager.go:95-212 | with the clamp, a new model never panics, whatever it is sent |
| `FreshListing.SupersededAnswerApplied` | filemanager/filemanager.go:137-172 | Open into `a/b`, Parent, the answer for `a`, then the late answer for `a/b`: both requests carry the same `ID`, and the run ends with `CWD = a` but the listing of `a/b` in `Files` |
| `FreshListing.OnListing` | filemanager/filemanager.go:167-172 | with the fix, an answer to a request of another browser or for another directory changes nothing, and `Files` changes only for an answer to the request for the current directory of this browser; nothing but `Files` ever changes |
| `FreshListing.LatestAnswerApplied` | filemanager/filemanager.go:137-205 | with the fix, the answer to the request any step has just issued is still applied |
| `FreshListing.SupersededAnswerDiscarded` | filemanager/filemanager.go:137-205 | with the fix, once a step has moved to another directory, the answer to the request for the directory left behind is discarded |
| `FreshListing.SupersededAnswerDiscardedScenario` | filemanager/filemanager.go:137-205 | with the fix, the run of `SupersededAnswerApplied` ends with the listing of `a` under `CWD = a` |

## Left out

- `os.ReadDir`, `os.Stat` and the `fmt.Println` error report are I/O. A listing arrives as the entries of a `DirectoryLoaded` event. The stat outcome of each entry is an argument of `RenderFiles`.
- lipgloss colours, `Inherit`, `Render` and escape codes come from a foreign library. `DefaultPermStyles`, `DefaultSelectedStyle` and `PermStyles.Inherit` become the two palettes `Base` and `Highlighted`. A styled string becomes a span tagged with its palette and role.
- The internals of the bubbles viewport are left out: the clamp of `SetYOffset` to the content length, `SetContent`, and the final `viewport.Update` that also scrolls on Up and Down. The model keeps the offset the code requests. It does not keep the rendered content that `SetContent` stores.
- `View`, `JoinVertical` and the "Loading..." screen are presentation and are not modelled.
- The `KeyMap` and `key.Matches` are replaced by the four events Up, Down, Open and Parent. Other keys and mouse messages reach only the viewport, so they are not modelled.
- `filepath.Join` and `filepath.Dir` become appending and dropping one path segment. Cleaning, `..`, separators inside names and the root of an absolute path belong to the Go library.
- The asynchrony of `tea.Cmd` is the framework's. A load request is returned data, and its answer is a later event, in any order.
- A Go panic ends the program. The model represents it as the `IndexPanic` effect, with the state unchanged.
- Go's fixed-width `int` cannot overflow in `Selected++`: Down clamps `Selected` to `len(m.Files)-1` right after the increment (lines 184-187), and nothing else raises it, so `Selected` never exceeds the longest listing's length. The model uses unbounded integers.
- Perms.WritePerms: treats the mode string as a sequence of characters, but Go reads its first byte and then its runes. The two agree for the ASCII strings that `FileMode.String()` produces.
- `main.go` (the host program, quitting on `q`) is not part of this model.

## Findings

| source | as written | input that shows it | evidently intended | confidence | as-written member | corrected member |
|---|---|---|---|---|---|---|
| filemanager/filemanager.go:171 | a matching `direntMsg` replaces `Files` but keeps `Selected`, which can then lie outside the new listing, and Open only checks that the listing is non-empty before indexing `m.Files[m.Selected]` (line 196) | press Down before the first listing arrives (`Selected` becomes -1), receive a one-entry listing, press Open; or select the third of three entries, press Parent, receive a one-entry listing, press Open; or press Down in an empty directory, press Parent, receive a one-entry listing, press Open | clamp `Selected` into the new listing when it arrives, so that Open never indexes out of range | high; not executed | `ClampedSelection.DownBeforeFirstListingPanics` | `ClampedSelection.ClampedNeverPanics` |
| filemanager/filemanager.go:144 | every `readDir` is tagged with the browser's one `ID`, so a `direntMsg` answering a request the user has already moved away from passes the check at line 168 and replaces `Files` | Open into directory `a/b`, press Parent, receive the listing of `a`, then receive the late listing of `a/b`: `Files` holds the listing of `a/b` while `CWD` is `a`, and a following Open joins a name from `a/b` onto `a` | apply an answer only when it is the answer to the request for the current directory | medium; not executed | `FreshListing.SupersededAnswerApplied` | `FreshListing.SupersededAnswerDiscarded` |
