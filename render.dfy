/** The row layout of `renderFiles`: one line per entry whose `os.Stat`
    succeeded, in listing order, and the highlighted style set on the line
    of the selected entry only.

    `os.Stat` is I/O, so its outcome for each entry is an input, given in the
    same order as the entries. */
module Render {
  import opened FileSystem
  import opened Perms

  /** A mode string as `FileMode.String()` produces it: never empty. */
  type Mode = s: string | |s| > 0 witness "-"

  datatype Stat = StatFailed | StatOk(mode: Mode)

  function PaletteFor(highlighted: bool): Palette
  {
    if highlighted then Highlighted else Base
  }

  /** One line of output: the coloured mode string, a separator, the
      coloured name and the line break. */
  function Row(e: Entry, mode: Mode, highlighted: bool): (r: seq<Span>)
    ensures |r| == |mode| + 3
  {
    var p := PaletteFor(highlighted);
    PermSpans(mode, p)
    + [Span(if highlighted then Background else Plain, " "),
       Span(Styled(p, if e.isDir then Role.Dir else Role.File), e.name),
       Span(Plain, "\n")]
  }

  /** A line spells the mode string, a blank and the name, and ends in a line
      break; it is drawn entirely in the highlighted style set exactly when it
      is the selected entry's line; the name is coloured as a directory or as
      a file. */
  lemma RowLayout(e: Entry, mode: Mode, highlighted: bool)
    ensures var r := Row(e, mode, highlighted);
      && Text(r) == mode + " " + e.name + "\n"
      && r[..|mode|] == PermSpans(mode, PaletteFor(highlighted))
      && (forall i :: 0 <= i < |r| && r[i].style.Styled? ==> (r[i].style.palette == Highlighted <==> highlighted))
      && r[|mode|].style == (if highlighted then Background else Plain)
      && r[|mode| + 1].style.Styled? && r[|mode| + 1].style.role == (if e.isDir then Role.Dir else Role.File)
      && r[|mode| + 1].text == e.name
      && r[|r| - 1] == Span(Plain, "\n")
  {
    var p := PaletteFor(highlighted);
    var perms := PermSpans(mode, p);
    var tail := [Span(if highlighted then Background else Plain, " "),
                 Span(Styled(p, if e.isDir then Role.Dir else Role.File), e.name),
                 Span(Plain, "\n")];
    assert Row(e, mode, highlighted) == perms + tail;
    assert (perms + tail)[|mode| + 1] == tail[1];
    PermSpansSpell(mode, p);
    RowText(perms, tail, mode, e.name);
    RowPalette(perms, tail, mode, p);
  }

  lemma RowPalette(perms: seq<Span>, tail: seq<Span>, mode: Mode, p: Palette)
    requires perms == PermSpans(mode, p)
    requires forall j :: 0 <= j < |tail| && tail[j].style.Styled? ==> tail[j].style.palette == p
    ensures (perms + tail)[..|mode|] == perms
    ensures forall i :: 0 <= i < |perms + tail| && (perms + tail)[i].style.Styled? ==> (perms + tail)[i].style.palette == p
  {
    var r := perms + tail;
    assert r[..|mode|] == perms;
    forall i | 0 <= i < |r| && r[i].style.Styled?
      ensures r[i].style.palette == p
    {
      if i < |mode| {
        assert r[i] == perms[i];
        assert i == 0 || perms[i].style == PermStyle(p, mode[i]);
      } else {
        assert r[i] == tail[i - |mode|];
      }
    }
  }

  lemma RowText(perms: seq<Span>, tail: seq<Span>, mode: string, name: string)
    requires |perms| > 0 && Text(perms) == mode
    requires |tail| == 3 && tail[0].text == " " && tail[1].text == name && tail[2].text == "\n"
    ensures Text(perms + tail) == mode + " " + name + "\n"
  {
    SpellsPointwise([tail[0]], " ");
    TextAppend([tail[0]], [tail[1]]);
    assert Text([tail[1]]) == name by { assert [tail[1]][..0] == []; }
    TextAppend([tail[0]] + [tail[1]], [tail[2]]);
    SpellsPointwise([tail[2]], "\n");
    assert tail == [tail[0]] + [tail[1]] + [tail[2]];
    TextAppend(perms, tail);
  }

  /** What `renderFiles` has written after the first `|files|` entries. */
  function Rendered(files: seq<Entry>, stats: seq<Stat>, selected: int): seq<Span>
    requires |stats| == |files|
  {
    if files == [] then []
    else
      var n := |files| - 1;
      Rendered(files[..n], stats[..n], selected) + LineOf(files, stats, selected, n)
  }

  /** The indices of the entries that get a line, in increasing order. */
  function OkIndices(stats: seq<Stat>): (r: seq<nat>)
    ensures forall k :: 0 <= k < |r| ==> r[k] < |stats| && stats[r[k]].StatOk?
    ensures forall k, l :: 0 <= k < l < |r| ==> r[k] < r[l]
    ensures forall i :: 0 <= i < |stats| && stats[i].StatOk? ==> i in r
  {
    if stats == [] then []
    else
      var n := |stats| - 1;
      OkIndices(stats[..n]) + (if stats[n].StatOk? then [n] else [])
  }

  /** The lines of the entries at `idx`, one after another. */
  function RowsAt(files: seq<Entry>, stats: seq<Stat>, selected: int, idx: seq<nat>): seq<Span>
    requires |stats| == |files|
    requires forall k :: 0 <= k < |idx| ==> idx[k] < |files| && stats[idx[k]].StatOk?
  {
    if idx == [] then []
    else
      var m := |idx| - 1;
      RowsAt(files, stats, selected, idx[..m]) + Row(files[idx[m]], stats[idx[m]].mode, idx[m] == selected)
  }

  lemma {:induction false} RowsAtPrefix(files: seq<Entry>, stats: seq<Stat>, selected: int, idx: seq<nat>, n: nat)
    requires |stats| == |files| && n <= |files|
    requires forall k :: 0 <= k < |idx| ==> idx[k] < n && stats[idx[k]].StatOk?
    ensures RowsAt(files[..n], stats[..n], selected, idx) == RowsAt(files, stats, selected, idx)
    decreases |idx|
  {
    if idx != [] {
      RowsAtPrefix(files, stats, selected, idx[..|idx| - 1], n);
    }
  }

  /** The line (if any) that `renderFiles` writes for entry `i`. */
  function LineOf(files: seq<Entry>, stats: seq<Stat>, selected: int, i: nat): seq<Span>
    requires |stats| == |files| && i < |files|
  {
    match stats[i]
    case StatFailed => []
    case StatOk(mode) => Row(files[i], mode, i == selected)
  }

  lemma RowsAtSnoc(files: seq<Entry>, stats: seq<Stat>, selected: int, idx: seq<nat>, n: nat)
    requires |stats| == |files| && n < |files| && stats[n].StatOk?
    requires forall k :: 0 <= k < |idx| ==> idx[k] < |files| && stats[idx[k]].StatOk?
    ensures RowsAt(files, stats, selected, idx + [n]) == RowsAt(files, stats, selected, idx) + LineOf(files, stats, selected, n)
  {
    assert (idx + [n])[..|idx|] == idx;
  }

  /** The output is exactly the lines of the entries whose stat succeeded, in
      listing order, each drawn highlighted iff its index is `selected`. */
  lemma {:induction false} RenderedByRows(files: seq<Entry>, stats: seq<Stat>, selected: int)
    requires |stats| == |files|
    ensures Rendered(files, stats, selected) == RowsAt(files, stats, selected, OkIndices(stats))
    decreases |files|
  {
    if files != [] {
      var n := |files| - 1;
      var prev := OkIndices(stats[..n]);
      RenderedByRows(files[..n], stats[..n], selected);
      RowsAtPrefix(files, stats, selected, prev, n);
      if stats[n].StatOk? {
        RowsAtSnoc(files, stats, selected, prev, n);
      } else {
        assert OkIndices(stats) == prev + [] == prev;
      }
    }
  }

  /** `renderFiles`: the loop over the entries; a failed stat skips the entry. */
  method RenderFiles(files: seq<Entry>, stats: seq<Stat>, selected: int) returns (out: seq<Span>)
    requires |stats| == |files|
    ensures out == Rendered(files, stats, selected)
  {
    out := [];
    for i := 0 to |files|
      invariant out == Rendered(files[..i], stats[..i], selected)
    {
      assert files[..i + 1][..i] == files[..i] && stats[..i + 1][..i] == stats[..i];
      match stats[i]
      case StatFailed =>
      case StatOk(mode) =>
        var p := PaletteFor(i == selected);
        var permStr := WritePerms(mode, p);
        var name := Span(Styled(p, if files[i].isDir then Role.Dir else Role.File), files[i].name);
        var sep := Span(if i == selected then Background else Plain, " ");
        var row := permStr + [sep, name, Span(Plain, "\n")];
        assert row == Row(files[i], mode, i == selected);
        out := out + row;
    }
    assert files[..|files|] == files && stats[..|stats|] == stats;
  }
}
