/** Line handling the pages rely on: a fixed-width chunker standing in for
    the standard library's `textwrap.wrap`, and Python's `str.split('\n')`
    and `'\n'.join`. */
module Wrapping {

  /** Stand-in for `textwrap.wrap(s, width)`: consecutive chunks of at most
      `width` characters, and no chunk at all for an empty line. (textwrap
      also breaks at spaces and drops whitespace; no viewport property
      depends on where the breaks fall.) */
  function Wrap(s: string, width: int): (r: seq<string>)
    requires width > 0
    ensures forall i :: 0 <= i < |r| ==> 0 < |r[i]| <= width
    ensures r == [] <==> s == []
    decreases |s|
  {
    if |s| == 0 then []
    else if |s| <= width then [s]
    else [s[..width]] + Wrap(s[width..], width)
  }

  function Flatten(ls: seq<string>): string {
    if ls == [] then "" else ls[0] + Flatten(ls[1..])
  }

  lemma {:induction false} FlattenAppend(a: seq<string>, b: seq<string>)
    ensures Flatten(a + b) == Flatten(a) + Flatten(b)
    decreases |a|
  {
    if a == [] {
      assert a + b == b;
    } else {
      assert (a + b)[1..] == a[1..] + b;
      FlattenAppend(a[1..], b);
    }
  }

  lemma FlattenOne(s: string)
    ensures Flatten([s]) == s
  {
    assert Flatten([s]) == s + Flatten([]);
  }

  /** Wrapping loses and reorders nothing: the chunks put back together are
      the line. */
  lemma {:induction false} WrapKeepsText(s: string, width: int)
    requires width > 0
    ensures Flatten(Wrap(s, width)) == s
    decreases |s|
  {
    if |s| > width {
      WrapKeepsText(s[width..], width);
      assert s == s[..width] + s[width..];
    } else if |s| > 0 {
      FlattenOne(s);
    }
  }

  /** The wrapped lines of every logical line, in order
      (update_viewport_lines, src/page.py:105-112). */
  function WrapAll(lines: seq<string>, width: int): (r: seq<string>)
    requires width > 0
    ensures forall i :: 0 <= i < |r| ==> 0 < |r[i]| <= width
  {
    if lines == [] then []
    else WrapAll(lines[..|lines| - 1], width) + Wrap(lines[|lines| - 1], width)
  }

  /** The wrapped viewport holds exactly the text of the logical lines. */
  lemma {:induction false} WrapAllKeepsText(lines: seq<string>, width: int)
    requires width > 0
    ensures Flatten(WrapAll(lines, width)) == Flatten(lines)
    decreases |lines|
  {
    if lines != [] {
      var init, last := lines[..|lines| - 1], lines[|lines| - 1];
      var wi, wl := WrapAll(init, width), Wrap(last, width);
      assert WrapAll(lines, width) == wi + wl;
      WrapAllKeepsText(init, width);
      WrapKeepsText(last, width);
      FlattenAppend(wi, wl);
      assert Flatten(wi + wl) == Flatten(init) + last;
      assert lines == init + [last];
      FlattenAppend(init, [last]);
      FlattenOne(last);
    }
  }

  /** Python's `s.split('\n')`: the pieces between newlines, always at
      least one. */
  function Split(s: string): (r: seq<string>)
    ensures |r| >= 1
    ensures forall i :: 0 <= i < |r| ==> '\n' !in r[i]
  {
    if |s| == 0 then [""]
    else if s[0] == '\n' then [""] + Split(s[1..])
    else var rest := Split(s[1..]); [[s[0]] + rest[0]] + rest[1..]
  }

  /** Python's `'\n'.join(ls)`. */
  function Join(ls: seq<string>): string {
    if ls == [] then ""
    else if |ls| == 1 then ls[0]
    else ls[0] + "\n" + Join(ls[1..])
  }

  /** Splitting on newlines and joining back gives the text again. */
  lemma {:induction false} JoinSplit(s: string)
    ensures Join(Split(s)) == s
    decreases |s|
  {
    if |s| > 0 {
      JoinSplit(s[1..]);
      var rest := Split(s[1..]);
      if s[0] == '\n' {
        assert Split(s)[1..] == rest;
      } else {
        var r := Split(s);
        assert r[0] == [s[0]] + rest[0] && r[1..] == rest[1..];
        if |rest| == 1 {
          assert s == [s[0]] + s[1..];
        } else {
          assert Join(rest) == rest[0] + "\n" + Join(rest[1..]);
          assert s == [s[0]] + s[1..];
        }
      }
    }
  }

  /** Joining newline-free lines and splitting again gives the lines back. */
  lemma {:induction false} SplitJoin(ls: seq<string>)
    requires |ls| >= 1
    requires forall i :: 0 <= i < |ls| ==> '\n' !in ls[i]
    ensures Split(Join(ls)) == ls
    decreases |ls|
  {
    if |ls| == 1 {
      SplitNoNewline(ls[0]);
    } else {
      SplitJoin(ls[1..]);
      SplitAround(ls[0], Join(ls[1..]));
      assert ls == [ls[0]] + ls[1..];
    }
  }

  lemma {:induction false} SplitNoNewline(s: string)
    requires '\n' !in s
    ensures Split(s) == [s]
    decreases |s|
  {
    if |s| > 0 {
      SplitNoNewline(s[1..]);
      assert s == [s[0]] + s[1..];
    }
  }

  lemma {:induction false} SplitAround(a: string, b: string)
    requires '\n' !in a
    ensures Split(a + "\n" + b) == [a] + Split(b)
    decreases |a|
  {
    var s := a + "\n" + b;
    if |a| == 0 {
      assert s[0] == '\n' && s[1..] == b;
    } else {
      assert s[0] == a[0] && s[1..] == a[1..] + "\n" + b;
      SplitAround(a[1..], b);
      assert a == [a[0]] + a[1..];
    }
  }
}
