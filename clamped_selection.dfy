/** The `direntMsg` case replaces `Files` without bringing `Selected` back
    into the new listing, and Down on an empty listing sets `Selected` to -1,
    while Open trusts `Selected` once the listing is non-empty. Two event
    sequences the code allows therefore reach the out-of-range index
    `m.Files[m.Selected]`. The fix is the clamp of `Selected` into the new
    listing when it arrives; with it no event sequence ever panics. */
module ClampedSelection {
  import opened FileSystem
  import opened Navigation

  /** Down pressed before the first listing arrives, then Open. */
  lemma DownBeforeFirstListingPanics()
    ensures Run(Update, New(1, []), [Down, DirectoryLoaded(1, [Entry("a", true)]), Open])
         == Crashed(New(1, []).(files := [Entry("a", true)], selected := -1), -1, 1)
  {
  }

  /** The third entry selected, Parent, a parent holding one directory, then Open. */
  lemma ParentIntoShorterListingPanics()
    ensures var s := New(1, ["a"]);
      var evs := [DirectoryLoaded(1, [Entry("x", false), Entry("y", false), Entry("z", false)]),
                  Down, Down, Parent, DirectoryLoaded(1, [Entry("a", true)]), Open];
      Run(Update, s, evs).Crashed? && Run(Update, s, evs).index == 2 && Run(Update, s, evs).length == 1
  {
  }

  /** Down in an empty directory, then Parent and its listing, then Open. */
  lemma DownInEmptyDirectoryThenParentPanics()
    ensures var s := New(1, ["a", "e"]);
      var evs := [DirectoryLoaded(1, []), Down, Parent, DirectoryLoaded(1, [Entry("e", true)]), Open];
      Run(Update, s, evs) == Crashed(s.(cwd := ["a"], files := [Entry("e", true)], selected := -1), -1, 1)
  {
  }

  /** The selection is a valid index whenever there is something to select. */
  predicate SelectionValid(s: State)
  {
    s.files != [] ==> 0 <= s.selected < |s.files|
  }

  /** `Selected` brought into a listing of length `n` (0 when it is empty). */
  function Clamp(selected: int, n: nat): (r: int)
    ensures n == 0 ==> r == 0
    ensures n > 0 ==> 0 <= r < n
    ensures 0 <= selected < n ==> r == selected
  {
    if n == 0 || selected < 0 then 0
    else if selected >= n then n - 1
    else selected
  }

  /** The `direntMsg` case with the clamp: a stale message is still ignored,
      and a matching one replaces `Files` and leaves a valid selection. */
  function OnDirectoryLoadedClamped(s: State, id: int, entries: seq<Entry>): (r: State)
    ensures id != s.id ==> r == s
    ensures id == s.id ==> r.files == entries && SelectionValid(r)
    ensures id == s.id && 0 <= s.selected < |entries| ==> r == OnDirectoryLoaded(s, id, entries)
  {
    if id != s.id then s else s.(files := entries, selected := Clamp(s.selected, |entries|))
  }

  /** `Update` with the clamped `direntMsg` case; every other case as written. */
  function UpdateClamped(s: State, ev: Event): Reply
  {
    match ev
    case DirectoryLoaded(id, entries) => Reply(OnDirectoryLoadedClamped(s, id, entries), NoCmd)
    case _ => Update(s, ev)
  }

  /** One step of the corrected model keeps the selection valid and never panics. */
  lemma ClampedStepKeepsSelectionValid(s: State, ev: Event)
    requires SelectionValid(s)
    ensures SelectionValid(UpdateClamped(s, ev).next)
    ensures !UpdateClamped(s, ev).effect.IndexPanic?
  {
    match ev
    case Up =>
      assert s.files != [] ==> OnUp(s).selected < |s.files|;
    case _ =>
  }

  /** From a valid state, the corrected model never panics on any sequence of
      events, and ends in a valid state. */
  lemma {:induction false} ClampedNeverPanics(s: State, evs: seq<Event>)
    requires SelectionValid(s)
    ensures Run(UpdateClamped, s, evs).Finished?
    ensures SelectionValid(Run(UpdateClamped, s, evs).last)
    decreases |evs|
  {
    if evs != [] {
      ClampedStepKeepsSelectionValid(s, evs[0]);
      ClampedNeverPanics(UpdateClamped(s, evs[0]).next, evs[1..]);
    }
  }

  /** A fresh model is valid, so the corrected one never panics at all. */
  lemma ClampedFromNewNeverPanics(id: int, cwd: Path, evs: seq<Event>)
    ensures Run(UpdateClamped, New(id, cwd), evs).Finished?
  {
    ClampedNeverPanics(New(id, cwd), evs);
  }
}
