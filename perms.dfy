/** The permission-string colouring of `writePerms`.

    The lipgloss styles are replaced by abstract tags: a `Palette` says which
    style set a span was drawn with (the default `PermStyles`, or the set that
    inherits the selected-row background), a `Role` says which member of that
    set (Dir, File, Symlink, Read, Write, Exec, None, Special). Rendering a
    string with a style becomes a `Span` carrying the tag and the text. */
module Perms {

  /** Which `PermStyles` value drew a span: `DefaultPermStyles()`, or that set
      after `Inherit(SelectedStyle.Background)`. */
  datatype Palette = Base | Highlighted

  /** The eight members of `PermStyles`; `NoPerm` is its `None` member. */
  datatype Role = Dir | File | Symlink | Read | Write | Exec | NoPerm | Special

  /** How a piece of text is written: raw (`WriteRune`, `WriteString` of an
      unstyled string), through one member of a palette, or through the bare
      selected-row background. */
  datatype Style = Plain | Styled(palette: Palette, role: Role) | Background

  datatype Span = Span(style: Style, text: string)

  /** The characters a sequence of spans puts on the screen. */
  function Text(spans: seq<Span>): string
  {
    if spans == [] then [] else Text(spans[..|spans| - 1]) + spans[|spans| - 1].text
  }

  lemma {:induction false} TextAppend(a: seq<Span>, b: seq<Span>)
    ensures Text(a + b) == Text(a) + Text(b)
    decreases |b|
  {
    if b == [] {
      assert a + b == a;
    } else {
      var n := |b| - 1;
      assert (a + b)[..|a + b| - 1] == a + b[..n];
      TextAppend(a, b[..n]);
    }
  }

  /** The role of the first (file type) character. */
  function TypeRole(c: char): (r: Role)
    ensures r == Dir <==> c == 'd'
    ensures r == Symlink <==> c == 'l'
    ensures r == File <==> c != 'd' && c != 'l'
  {
    match c
    case 'd' => Dir
    case 'l' => Symlink
    case _ => File
  }

  predicate IsSpecial(c: char)
  {
    c == 's' || c == 'S' || c == 't' || c == 'T'
  }

  /** The style of a later (permission) character; anything unknown is raw. */
  function PermStyle(p: Palette, c: char): (r: Style)
    ensures r == Plain <==> !(c in "rwx-" || IsSpecial(c))
    ensures r.Styled? ==> r.palette == p
    ensures r == Styled(p, Read) <==> c == 'r'
    ensures r == Styled(p, Write) <==> c == 'w'
    ensures r == Styled(p, Exec) <==> c == 'x'
    ensures r == Styled(p, NoPerm) <==> c == '-'
    ensures r == Styled(p, Special) <==> IsSpecial(c)
  {
    match c
    case 'r' => Styled(p, Read)
    case 'w' => Styled(p, Write)
    case 'x' => Styled(p, Exec)
    case 's' | 'S' | 't' | 'T' => Styled(p, Special)
    case '-' => Styled(p, NoPerm)
    case _ => Plain
  }

  function TypeCell(p: Palette, c: char): Span
  {
    Span(Styled(p, TypeRole(c)), [c])
  }

  function PermCell(p: Palette, c: char): Span
  {
    Span(PermStyle(p, c), [c])
  }

  /** What `writePerms(perms, style)` writes: one span per character, the
      first classified as a file type and every later one by itself alone. */
  function PermSpans(perms: string, p: Palette): (r: seq<Span>)
    requires |perms| > 0
    ensures |r| == |perms|
    ensures forall i :: 0 <= i < |r| ==> r[i].text == [perms[i]]
    ensures r[0].style == Styled(p, TypeRole(perms[0]))
    ensures forall i :: 1 <= i < |r| ==> r[i].style == PermStyle(p, perms[i])
  {
    [TypeCell(p, perms[0])] + seq(|perms| - 1, i requires 0 <= i < |perms| - 1 => PermCell(p, perms[i + 1]))
  }

  /** Styling never changes the characters: the spans spell the mode string. */
  lemma {:induction false} PermSpansSpell(perms: string, p: Palette)
    requires |perms| > 0
    ensures Text(PermSpans(perms, p)) == perms
  {
    SpellsPointwise(PermSpans(perms, p), perms);
  }

  /** Spans holding one character each, in order, spell those characters. */
  lemma {:induction false} SpellsPointwise(spans: seq<Span>, s: string)
    requires |spans| == |s|
    requires forall i :: 0 <= i < |s| ==> spans[i].text == [s[i]]
    ensures Text(spans) == s
    decreases |s|
  {
    if s != [] {
      var n := |s| - 1;
      SpellsPointwise(spans[..n], s[..n]);
      assert s == s[..n] + [s[n]];
    }
  }

  /** The class of a permission character depends on that character only, not
      on its position or on the rest of the string. */
  lemma PermStylePositional(a: string, b: string, i: nat, j: nat, p: Palette)
    requires 1 <= i < |a| && 1 <= j < |b| && a[i] == b[j]
    ensures PermSpans(a, p)[i] == PermSpans(b, p)[j]
  {
  }

  /** `writePerms`: the loop over the mode string, appending one span per
      character. Go indexes `perms[0]`, so the string must not be empty. */
  method WritePerms(perms: string, p: Palette) returns (out: seq<Span>)
    requires |perms| > 0
    ensures out == PermSpans(perms, p)
    ensures Text(out) == perms
  {
    out := [TypeCell(p, perms[0])];
    var k := 1;
    while k < |perms|
      invariant 1 <= k <= |perms|
      invariant |out| == k
      invariant out[0] == TypeCell(p, perms[0])
      invariant forall i :: 1 <= i < k ==> out[i] == PermCell(p, perms[i])
    {
      out := out + [PermCell(p, perms[k])];
      k := k + 1;
    }
    ghost var want := PermSpans(perms, p);
    assert forall i :: 0 <= i < |out| ==> out[i] == want[i];
    PermSpansSpell(perms, p);
  }
}
