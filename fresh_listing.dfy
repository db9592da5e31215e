/** Every `readDir` a browser issues is tagged with the same `ID`, so a
    `direntMsg` cannot tell the answer to the latest request from the answer
    to one the user has already moved away from. When two requests are in
    flight and their answers arrive out of order, the listing of the
    directory left behind replaces `Files` under the new `CWD`, and a later
    Open joins a name from that listing onto the wrong directory. The fix is
    an answer that names the request it answers, applied only when that
    request is for the current directory of this browser. */
module FreshListing {
  import opened FileSystem
  import opened Navigation

  /** Open into `a/b`, Parent back to `a`, the answer for `a`, then the
      late answer for `a/b`: the listing of `a/b` is shown as that of `a`. */
  lemma SupersededAnswerApplied()
    ensures var s := State(1, ["a"], [Entry("b", true)], 0, 4, Viewport(80, 10, 0, 2), true);
      var listA := [Entry("b", true), Entry("c", false)];
      var listAB := [Entry("x", false)];
      var t := Run(Update, s, [Open, Parent, DirectoryLoaded(1, listA), DirectoryLoaded(1, listAB)]);
      && t.Finished?
      && t.loads == [Load(["a", "b"], 1), Load(["a"], 1)]
      && t.last.cwd == ["a"] && t.last.files == listAB
  {
    var s := State(1, ["a"], [Entry("b", true)], 0, 4, Viewport(80, 10, 0, 2), true);
    var listA := [Entry("b", true), Entry("c", false)];
    var listAB := [Entry("x", false)];
    var evs := [Open, Parent, DirectoryLoaded(1, listA), DirectoryLoaded(1, listAB)];
    var inB := s.(cwd := ["a", "b"]);
    assert Update(s, Open) == Reply(inB, ReadDir(Load(["a", "b"], 1)));
    var backInA := inB.(cwd := ["a"]);
    assert Update(inB, Parent) == Reply(backInA, ReadDir(Load(["a"], 1)));
    var late := [DirectoryLoaded(1, listAB)];
    assert Run(Update, backInA.(files := listA), late) == Finished(backInA.(files := listAB), []) by {
      assert late[1..] == [];
    }
    var rest := [DirectoryLoaded(1, listA)] + late;
    assert rest[1..] == late;
    var last := backInA.(files := listAB);
    assert Run(Update, backInA, rest) == Finished(last, []);
    assert evs[1..] == [Parent] + rest && evs[1..][1..] == rest;
    assert Run(Update, inB, evs[1..]) == Finished(last, [Load(["a"], 1)]);
  }

  /** The corrected `direntMsg` case: the answer to `l` is applied only when
      `l` was issued by this browser for the directory it is in now. */
  function OnListing(s: State, l: Load, entries: seq<Entry>): (r: State)
    ensures l.id != s.id || l.path != s.cwd ==> r == s
    ensures r.files != s.files ==> l == Load(r.cwd, r.id)
    ensures r.id == s.id && r.cwd == s.cwd && r.selected == s.selected
    ensures r.viewport == s.viewport && r.ready == s.ready && r.margin == s.margin
  {
    if l == Load(s.cwd, s.id) then s.(files := entries) else s
  }

  /** The fix loses nothing: the answer to the request a step has just
      issued is applied, whatever that step was. */
  lemma LatestAnswerApplied(s: State, ev: Event, listing: seq<Entry>)
    requires Update(s, ev).effect.ReadDir?
    ensures var r := Update(s, ev);
      OnListing(r.next, r.effect.load, listing) == r.next.(files := listing)
  {
  }

  /** Once a step has moved to another directory, the answer to the request
      made before it is discarded. */
  lemma SupersededAnswerDiscarded(s: State, ev: Event, earlier: Load, listing: seq<Entry>)
    requires earlier == Load(s.cwd, s.id)
    requires Update(s, ev).next.cwd != s.cwd
    ensures OnListing(Update(s, ev).next, earlier, listing) == Update(s, ev).next
  {
  }

  /** The scenario above with the fix: the late answer for `a/b` is
      discarded and `Files` keeps the listing of `a`. */
  lemma SupersededAnswerDiscardedScenario()
    ensures var s := State(1, ["a"], [Entry("b", true)], 0, 4, Viewport(80, 10, 0, 2), true);
      var listA := [Entry("b", true), Entry("c", false)];
      var listAB := [Entry("x", false)];
      var open := Update(s, Open);
      var parent := Update(open.next, Parent);
      var t := OnListing(OnListing(parent.next, parent.effect.load, listA), open.effect.load, listAB);
      t.cwd == ["a"] && t.files == listA
  {
  }
}
