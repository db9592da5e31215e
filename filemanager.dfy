/** `filemanager.Model` as an object whose `Update` cases change its fields in
    place. Go's `Update` takes the model by value and returns the changed copy,
    which the host stores back; doing the same changes on one object is the
    same thing. Each method handling a message is specified by the handler of
    the same name in `Navigation`, `Init` by `Navigation.Init`, and
    `RenderFiles` by `Render.Rendered`, so every property proved about those
    functions holds of the object. */
module FileManager {
  import opened FileSystem
  import opened Navigation
  import Render
  import Perms

  class Model {
    var id: int
    var cwd: Path
    var files: seq<Entry>
    var selected: int
    var margin: int

    // The fields of the embedded `viewport.Model` that the navigator sets.
    var width: int
    var height: int
    var yOffset: int
    var yPosition: int
    var ready: bool

    /** The navigation state the fields stand for. */
    function Snapshot(): State
      reads this
    {
      State(id, cwd, files, selected, margin, Viewport(width, height, yOffset, yPosition), ready)
    }

    /** `New(id, cwd)`. */
    constructor (id: int, cwd: Path)
      ensures Snapshot() == Navigation.New(id, cwd)
      ensures selected == 0 && margin == 4 && files == []
    {
      this.id := id;
      this.cwd := cwd;
      files := [];
      selected := 0;
      margin := 4;
      width, height, yOffset, yPosition := 0, 0, 0, 0;
      ready := false;
    }

    /** `Init`: the first directory read. */
    method Init() returns (e: Effect)
      ensures e == Navigation.Init(Snapshot())
    {
      e := ReadDir(Load(cwd, id));
    }

    /** The `tea.WindowSizeMsg` case. */
    method Resize(msgWidth: int, msgHeight: int)
      modifies this
      ensures Snapshot() == OnResize(old(Snapshot()), msgWidth, msgHeight)
      ensures height == msgHeight - margin && selected == old(selected) && cwd == old(cwd) && files == old(files)
    {
      var h := msgHeight - margin;
      if !ready {
        width, height, yOffset := msgWidth, h, 0;
        yPosition := Half(margin);
        ready := true;
      } else {
        width := msgWidth;
        height := h;
      }
    }

    /** The `direntMsg` case. */
    method DirectoryLoaded(msgId: int, dirents: seq<Entry>)
      modifies this
      ensures Snapshot() == OnDirectoryLoaded(old(Snapshot()), msgId, dirents)
      ensures msgId != id ==> Snapshot() == old(Snapshot())
    {
      if msgId != id {
        return;
      }
      files := dirents;
    }

    /** The Up binding. */
    method Up()
      modifies this
      ensures Snapshot() == OnUp(old(Snapshot()))
      ensures old(selected) >= 0 ==> 0 <= selected
      ensures height >= 1 && selected >= 0 ==> yOffset <= selected <= yOffset + height - 1
    {
      if selected > 0 {
        selected := selected - 1;
      }
      yOffset := Recentre(selected, height);
    }

    /** The Down binding. */
    method Down()
      modifies this
      ensures Snapshot() == OnDown(old(Snapshot()))
      ensures files != [] && old(selected) >= -1 ==> 0 <= selected < |files|
      ensures height >= 1 && selected >= 0 ==> yOffset <= selected <= yOffset + height - 1
    {
      selected := selected + 1;
      if selected >= |files| {
        selected := |files| - 1;
      }
      yOffset := Recentre(selected, height);
    }

    /** The Open binding; `IndexPanic` is the out-of-range `m.Files[m.Selected]`. */
    method Open() returns (e: Effect)
      modifies this
      ensures Reply(Snapshot(), e) == OnOpen(old(Snapshot()))
      ensures e.IndexPanic? <==> files != [] && !(0 <= selected < |files|)
    {
      if |files| == 0 {
        return NoCmd;
      }
      if !(0 <= selected < |files|) {
        return IndexPanic(selected, |files|);
      }
      if files[selected].isDir {
        cwd := Join(cwd, files[selected].name);
        selected := 0;
        yOffset := 0;
        return ReadDir(Load(cwd, id));
      }
      e := NoCmd;
    }

    /** The Parent binding. */
    method Parent() returns (e: Effect)
      modifies this
      ensures Reply(Snapshot(), e) == OnParent(old(Snapshot()))
      ensures selected == old(selected)
    {
      cwd := Dir(cwd);
      yOffset := 0;
      return ReadDir(Load(cwd, id));
    }

    /** `Update`: one message. */
    method Update(ev: Event) returns (e: Effect)
      modifies this
      ensures Reply(Snapshot(), e) == Navigation.Update(old(Snapshot()), ev)
    {
      match ev
      case Resize(w, h) => Resize(w, h); e := NoCmd;
      case DirectoryLoaded(msgId, dirents) => DirectoryLoaded(msgId, dirents); e := NoCmd;
      case Up => Up(); e := NoCmd;
      case Down => Down(); e := NoCmd;
      case Open => e := Open();
      case Parent => e := Parent();
    }

    /** `renderFiles`, given the outcome of `os.Stat` for each entry. */
    method RenderFiles(stats: seq<Render.Stat>) returns (out: seq<Perms.Span>)
      requires |stats| == |files|
      ensures out == Render.Rendered(files, stats, selected)
    {
      out := Render.RenderFiles(files, stats, selected);
    }
  }
}
