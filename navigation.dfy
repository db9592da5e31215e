/** The navigation state of `filemanager.Model` and what `Update` does to it,
    as values: each event handler maps the old state to the new one and to the
    command it returns. The class `FileManager.Model` performs the same steps
    in place and is specified by these functions.

    Only the fields navigation reads or writes are kept: the viewport is its
    width, height, vertical offset and `YPosition`, and `vport_ready` is
    `ready`. A returned `readDir` command is the load request it will carry
    out: the directory to list and the `ID` its answer will be tagged with. */
module Navigation {
  import opened FileSystem

  datatype Viewport = Viewport(width: int, height: int, yOffset: int, yPosition: int)

  datatype State = State(
    id: int,
    cwd: Path,
    files: seq<Entry>,
    selected: int,
    margin: int,
    viewport: Viewport,
    ready: bool)

  /** A pending `readDir(path)` issued by the model whose `ID` is `id`. */
  datatype Load = Load(path: Path, id: int)

  /** What a call of `Update` hands back besides the model: no command, a
      directory read, or the index-out-of-range panic of `m.Files[m.Selected]`. */
  datatype Effect = NoCmd | ReadDir(load: Load) | IndexPanic(index: int, length: nat)

  datatype Reply = Reply(next: State, effect: Effect)

  /** The messages `Update` handles: a `tea.WindowSizeMsg`, a `direntMsg`, and
      the four key bindings. */
  datatype Event =
    | Resize(width: int, height: int)
    | DirectoryLoaded(id: int, entries: seq<Entry>)
    | Up
    | Down
    | Open
    | Parent

  function Max(a: int, b: int): int
  {
    if a >= b then a else b
  }

  function Min(a: int, b: int): int
  {
    if a <= b then a else b
  }

  /** Go's `a / 2`, which truncates toward zero (Dafny's `/` does not for
      negative `a`). */
  function Half(a: int): (r: int)
    ensures a >= 0 ==> 0 <= r && 2 * r <= a <= 2 * r + 1
    ensures a < 0 ==> r <= 0 && 2 * r - 1 <= a <= 2 * r
  {
    if a >= 0 then a / 2 else -((-a) / 2)
  }

  /** The offset `max(0, m.Selected-m.viewport.Height/2)` requested after a
      move: never negative, and for a window of at least one line and a
      selection at or below the top, the selection lies inside the window. */
  function Recentre(selected: int, height: int): (r: int)
    ensures r >= 0
    ensures r >= selected - Half(height)
    ensures r == 0 || r == selected - Half(height)
    ensures height >= 1 && selected >= 0 ==> r <= selected <= r + height - 1
  {
    Max(0, selected - Half(height))
  }

  /** `New(id, cwd)`: nothing listed yet, the first entry selected, four
      lines of margin, and a zero-sized viewport until the first resize. */
  function New(id: int, cwd: Path): (s: State)
    ensures s.id == id && s.cwd == cwd
    ensures s.files == [] && s.selected == 0 && s.margin == 4
    ensures !s.ready && s.viewport == Viewport(0, 0, 0, 0)
  {
    State(id, cwd, [], 0, 4, Viewport(0, 0, 0, 0), false)
  }

  /** `Init`: list the starting directory, tagged with the model's `ID`. */
  function Init(s: State): (e: Effect)
    ensures e.ReadDir? && e.load.path == s.cwd && e.load.id == s.id
  {
    ReadDir(Load(s.cwd, s.id))
  }

  /** The `direntMsg` that a load request eventually comes back as, given
      what `os.ReadDir` returned (on an error, whatever it had read). */
  function Completion(l: Load, listing: seq<Entry>): (ev: Event)
    ensures ev.DirectoryLoaded? && ev.id == l.id && ev.entries == listing
  {
    DirectoryLoaded(l.id, listing)
  }

  /** The fields that only navigation changes. */
  predicate SameNavigation(s: State, r: State)
  {
    r.id == s.id && r.cwd == s.cwd && r.files == s.files && r.selected == s.selected && r.margin == s.margin
  }

  /** A `tea.WindowSizeMsg`: the viewport gets the terminal height less the
      margin (which may be zero or negative); only the first one creates the
      viewport, at offset 0 and `YPosition` half the margin. */
  function OnResize(s: State, width: int, height: int): (r: State)
    ensures r.ready && SameNavigation(s, r)
    ensures r.viewport.width == width && r.viewport.height == height - s.margin
    ensures !s.ready ==> r.viewport.yOffset == 0 && r.viewport.yPosition == Half(s.margin)
    ensures s.ready ==> r.viewport.yOffset == s.viewport.yOffset && r.viewport.yPosition == s.viewport.yPosition
  {
    var h := height - s.margin;
    if !s.ready then
      s.(viewport := Viewport(width, h, 0, Half(s.margin)), ready := true)
    else
      s.(viewport := s.viewport.(width := width, height := h))
  }

  /** A `direntMsg`: ignored unless it carries this model's `ID`; otherwise
      the listing replaces `Files` and nothing else changes (in particular
      `Selected` is not brought back into range). */
  function OnDirectoryLoaded(s: State, id: int, entries: seq<Entry>): (r: State)
    ensures id != s.id ==> r == s
    ensures id == s.id ==> r.files == entries
    ensures r.id == s.id && r.cwd == s.cwd && r.selected == s.selected && r.margin == s.margin
    ensures r.viewport == s.viewport && r.ready == s.ready
  {
    if id != s.id then s else s.(files := entries)
  }

  /** The offset requested after a move is always the re-centred one. */
  predicate Recentred(r: State)
  {
    r.viewport.yOffset == Recentre(r.selected, r.viewport.height)
  }

  /** The selection lies inside the window of `height` lines at `yOffset`. */
  predicate InWindow(r: State)
  {
    r.viewport.yOffset <= r.selected <= r.viewport.yOffset + r.viewport.height - 1
  }

  /** Only the selection and the offset may differ. */
  predicate OnlyMoved(s: State, r: State)
  {
    r == s.(selected := r.selected, viewport := s.viewport.(yOffset := r.viewport.yOffset))
  }

  /** The Up binding: one step up unless already at (or above) the top. */
  function OnUp(s: State): (r: State)
    ensures r.selected == (if s.selected > 0 then s.selected - 1 else s.selected)
    ensures s.selected >= 0 ==> r.selected >= 0
    ensures r.selected <= s.selected
    ensures OnlyMoved(s, r) && Recentred(r) && r.viewport.yOffset >= 0
    ensures s.viewport.height >= 1 && r.selected >= 0 ==> InWindow(r)
  {
    var sel := if s.selected > 0 then s.selected - 1 else s.selected;
    s.(selected := sel, viewport := s.viewport.(yOffset := Recentre(sel, s.viewport.height)))
  }

  /** The Down binding: one step down, but never past the last entry; on an
      empty listing that puts the selection at -1. */
  function OnDown(s: State): (r: State)
    ensures r.selected == Min(s.selected + 1, |s.files| - 1)
    ensures s.files == [] && s.selected >= -1 ==> r.selected == -1
    ensures s.files != [] && s.selected >= -1 ==> 0 <= r.selected < |s.files|
    ensures OnlyMoved(s, r) && Recentred(r) && r.viewport.yOffset >= 0
    ensures s.viewport.height >= 1 && r.selected >= 0 ==> InWindow(r)
  {
    var sel := if s.selected + 1 >= |s.files| then |s.files| - 1 else s.selected + 1;
    s.(selected := sel, viewport := s.viewport.(yOffset := Recentre(sel, s.viewport.height)))
  }

  /** The Open binding. With nothing listed, or a selected entry that is not a
      directory, nothing happens. On a directory the model moves into it,
      selects the first entry, scrolls to the top and asks for the new
      listing. Go indexes `m.Files[m.Selected]` after checking only that the
      listing is non-empty; a selection outside the listing is the panic. */
  function OnOpen(s: State): (r: Reply)
    ensures s.files == [] ==> r == Reply(s, NoCmd)
    ensures r.effect.IndexPanic? <==> s.files != [] && !(0 <= s.selected < |s.files|)
    ensures r.effect.IndexPanic? ==> r == Reply(s, IndexPanic(s.selected, |s.files|))
    ensures 0 <= s.selected < |s.files| && !s.files[s.selected].isDir ==> r == Reply(s, NoCmd)
    ensures 0 <= s.selected < |s.files| && s.files[s.selected].isDir ==>
      && r.next == s.(cwd := Join(s.cwd, s.files[s.selected].name), selected := 0, viewport := s.viewport.(yOffset := 0))
      && r.effect == ReadDir(Load(r.next.cwd, s.id))
  {
    if |s.files| == 0 then Reply(s, NoCmd)
    else if !(0 <= s.selected < |s.files|) then Reply(s, IndexPanic(s.selected, |s.files|))
    else if s.files[s.selected].isDir then
      var cwd := Join(s.cwd, s.files[s.selected].name);
      Reply(s.(cwd := cwd, selected := 0, viewport := s.viewport.(yOffset := 0)), ReadDir(Load(cwd, s.id)))
    else Reply(s, NoCmd)
  }

  /** The Parent binding: move to the parent directory, scroll to the top and
      ask for its listing; the selection index is kept as it was. */
  function OnParent(s: State): (r: Reply)
    ensures r.next == s.(cwd := Dir(s.cwd), viewport := s.viewport.(yOffset := 0))
    ensures r.next.selected == s.selected && r.next.files == s.files
    ensures r.effect == ReadDir(Load(Dir(s.cwd), s.id))
  {
    var cwd := Dir(s.cwd);
    Reply(s.(cwd := cwd, viewport := s.viewport.(yOffset := 0)), ReadDir(Load(cwd, s.id)))
  }

  /** `Update`: dispatch on the message. Every request it issues is for the
      new working directory and carries this model's own `ID`; neither the
      `ID` nor the margin ever changes; only Open can panic, and then the
      state is left as it was. */
  function Update(s: State, ev: Event): (r: Reply)
    ensures r.next.id == s.id && r.next.margin == s.margin
    ensures r.effect.ReadDir? ==> r.effect.load == Load(r.next.cwd, s.id)
    ensures r.effect.ReadDir? <==> (ev == Parent || (ev == Open && OnOpen(s).effect.ReadDir?))
    ensures r.effect.IndexPanic? ==> ev == Open && r.next == s
  {
    match ev
    case Resize(w, h) => Reply(OnResize(s, w, h), NoCmd)
    case DirectoryLoaded(id, entries) => Reply(OnDirectoryLoaded(s, id, entries), NoCmd)
    case Up => Reply(OnUp(s), NoCmd)
    case Down => Reply(OnDown(s), NoCmd)
    case Open => OnOpen(s)
    case Parent => OnParent(s)
  }

  /** The outcome of feeding a model a sequence of messages: the final state
      and the loads requested on the way, or the state in which it panicked. */
  datatype RunResult = Finished(last: State, loads: seq<Load>) | Crashed(at: State, index: int, length: nat)

  function Run(step: (State, Event) -> Reply, s: State, evs: seq<Event>): RunResult
    decreases |evs|
  {
    if evs == [] then Finished(s, [])
    else
      var r := step(s, evs[0]);
      match r.effect
      case IndexPanic(i, n) => Crashed(s, i, n)
      case NoCmd => Run(step, r.next, evs[1..])
      case ReadDir(l) =>
        match Run(step, r.next, evs[1..])
        case Finished(t, loads) => Finished(t, [l] + loads)
        case c => c
  }

  /** The state a run ends in, whether it finished or panicked. */
  function Final(r: RunResult): State
  {
    match r
    case Finished(t, _) => t
    case Crashed(t, _, _) => t
  }

  /** Over any run the `ID` stays put and every load it requests is tagged
      with that `ID`, so its answers are never discarded as stale. */
  lemma {:induction false} RunKeepsIdentity(s: State, evs: seq<Event>)
    ensures Final(Run(Update, s, evs)).id == s.id
    ensures Final(Run(Update, s, evs)).margin == s.margin
    ensures Run(Update, s, evs).Finished? ==>
      forall k :: 0 <= k < |Run(Update, s, evs).loads| ==> Run(Update, s, evs).loads[k].id == s.id
    decreases |evs|
  {
    if evs != [] {
      RunKeepsIdentity(Update(s, evs[0]).next, evs[1..]);
    }
  }

  /** The selection is never below -1: Up cannot go below where it is, and
      Down lands on -1 at worst (an empty listing). */
  lemma {:induction false} RunSelectedAtLeastMinusOne(s: State, evs: seq<Event>)
    requires s.selected >= -1
    ensures Final(Run(Update, s, evs)).selected >= -1
    decreases |evs|
  {
    if evs != [] {
      var r := Update(s, evs[0]);
      assert r.next.selected >= -1;
      RunSelectedAtLeastMinusOne(r.next, evs[1..]);
    }
  }

  /** A model accepts the answer to its own request: the listing replaces
      `Files`, whatever the request was. */
  lemma OwnLoadAccepted(s: State, ev: Event, listing: seq<Entry>)
    requires Update(s, ev).effect.ReadDir?
    ensures var r := Update(s, ev);
      Update(r.next, Completion(r.effect.load, listing)) == Reply(r.next.(files := listing), NoCmd)
  {
  }

  /** The answer to the first read, the one `Init` issues, replaces `Files`
      and changes nothing else. */
  lemma InitLoadAccepted(s: State, listing: seq<Entry>)
    ensures Update(s, Completion(Init(s).load, listing)) == Reply(s.(files := listing), NoCmd)
  {
  }

  /** Parent, then the parent's listing, then Open returns to the directory
      one started in, provided the kept selection index now points at it. */
  lemma ParentThenOpen(s: State, listing: seq<Entry>)
    requires |s.cwd| > 0
    requires 0 <= s.selected < |listing| && listing[s.selected] == Entry(s.cwd[|s.cwd| - 1], true)
    ensures var a := Update(s, Parent).next;
      var b := Update(a, DirectoryLoaded(s.id, listing)).next;
      var c := Update(b, Open);
      c.next.cwd == s.cwd && c.effect == ReadDir(Load(s.cwd, s.id)) && c.next.selected == 0
  {
    JoinOfDir(s.cwd);
  }

  /** Two steps down in `[a.txt, bdir, c.txt]` with a two-line window select
      `c.txt` and scroll by one line. */
  lemma ScrollScenario()
    ensures var s := State(1, [], [Entry("a.txt", false), Entry("bdir", true), Entry("c.txt", false)],
                           0, 4, Viewport(80, 2, 0, 2), true);
      var t := Run(Update, s, [Down, Down]);
      t.Finished? && t.last.selected == 2 && t.last.viewport.yOffset == 1 && t.loads == []
  {
  }

  /** The window is re-centred only by Up and Down. Parent scrolls to the top
      but keeps the selection, so a selection that was on screen can end up
      below the window. */
  lemma ParentLeavesWindow()
    ensures var s := State(1, ["a"], [Entry("p", false), Entry("q", false), Entry("r", false), Entry("t", false)],
                           3, 4, Viewport(80, 2, 2, 2), true);
      InWindow(s) && !InWindow(Update(s, Parent).next)
  {
  }

  /** A later resize changes the height and keeps the offset, so shrinking the
      terminal can leave the selection below the window. */
  lemma ShrinkingResizeLeavesWindow()
    ensures var s := State(1, [], [], 5, 4, Viewport(80, 10, 0, 2), true);
      var r := Update(s, Resize(80, 6)).next;
      InWindow(s) && r.viewport.height == 2 && r.viewport.yOffset == 0 && !InWindow(r)
  {
  }
}
