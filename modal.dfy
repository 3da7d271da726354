/** The status modal (src/modal.py): lines of up to three fragments laid
    out in a fixed width, and per-slot expiry times. The clock is a
    parameter `now` (seconds, as `time.time()` gives them). */
module ModalLayout {
  import opened Errors
  import opened Markup

  /** The summed display widths of the fragments. */
  function Width(es: seq<string>): nat {
    if es == [] then 0 else |StripWrappers(es[0])| + Width(es[1..])
  }

  /** One turn of the drop loop: the centre goes first, then the right
      fragment, then the left one. */
  function DropOnce(es: seq<string>): (r: seq<string>)
    requires 1 <= |es| <= 3
    ensures |r| == |es| - 1
  {
    if |es| == 3 then [es[0], es[2]]
    else if |es| == 2 then [es[0]]
    else []
  }

  /** The fragments kept for a width of `n`: fragments are dropped by
      priority until the rest is narrower than `n`. */
  function Survivors(es: seq<string>, n: int): (r: seq<string>)
    requires n > 0 && |es| <= 3
    ensures Width(r) < n
    ensures Width(es) < n ==> r == es
    ensures r == es || (|es| == 3 && r == [es[0], es[2]]) || (|es| >= 2 && r == [es[0]]) || r == []
    decreases |es|
  {
    if Width(es) >= n then Survivors(DropOnce(es), n) else es
  }

  /** The three fragments are kept in full, without the centre, as the left
      one alone, or not at all: the first of these that is narrower than
      `n`. */
  lemma SurvivorsOfThree(left: string, center: string, right: string, n: int)
    requires n > 0
    ensures Survivors([left, center, right], n) ==
      if Width([left, center, right]) < n then [left, center, right]
      else if Width([left, right]) < n then [left, right]
      else if Width([left]) < n then [left]
      else []
  {
  }

  /** The padding of get_renderable, given the kept fragments and the
      number of free columns: nothing kept gives a blank line, one fragment
      is centred, two are pushed to the edges, and three get the free
      columns split into two gaps. */
  function Place(es: seq<string>, free: int): string
    requires |es| <= 3
  {
    if |es| == 0 then Spaces(free)
    else if |es| == 1 then
      var mid := free / 2;
      Spaces(mid) + es[0] + Spaces(free - mid)
    else if |es| == 2 then es[0] + Spaces(free) + es[1]
    else
      var gap1 := free / 2;
      es[0] + Spaces(gap1) + es[1] + Spaces(free - gap1) + es[2]
  }

  /** The line for kept fragments `es` in `n` columns: the columns their
      display widths leave free are placed as padding. */
  function Layout(es: seq<string>, n: int): string
    requires |es| <= 3
  {
    Place(es, n - Width(es))
  }

  /** The padding of three fragments: two gaps that sum to the free
      columns, the second equal to the first or one wider. */
  lemma PlaceThreeGaps(es: seq<string>, free: int) returns (g1: nat, g2: nat)
    requires |es| == 3 && free > 0
    ensures 0 < g1 + g2 && g1 <= g2 <= g1 + 1 && g1 + g2 == free
    ensures Place(es, free) == es[0] + Spaces(g1) + es[1] + Spaces(g2) + es[2]
  {
    g1, g2 := free / 2, free - free / 2;
  }

  /** One fragment is centred between two runs of padding, the right one
      equal to the left or one longer. */
  lemma PlaceOneGaps(es: seq<string>, free: int) returns (a: nat, b: nat)
    requires |es| == 1 && free > 0
    ensures a <= b <= a + 1 && a + b == free
    ensures Place(es, free) == Spaces(a) + es[0] + Spaces(b)
  {
    a, b := free / 2, free - free / 2;
  }

  lemma WidthOfOne(e: string)
    ensures Width([e]) == |StripWrappers(e)|
  {
    assert [e][1..] == [];
  }

  lemma WidthOfTwo(es: seq<string>)
    requires |es| == 2
    ensures Width(es) == |StripWrappers(es[0])| + |StripWrappers(es[1])|
  {
    var rest := es[1..];
    assert rest == [es[1]];
    WidthOfOne(es[1]);
  }

  /** With nothing kept, the line is blank and spans exactly `n` display
      columns. */
  lemma LayoutBlank(n: int)
    requires 0 < n
    ensures Layout([], n) == Spaces(n)
    ensures |StripWrappers(Layout([], n))| == n
  {
    StripWrappersMarkupFree(Spaces(n));
  }

  /** One fragment is centred, the right padding equal to the left or one
      more, and the line spans exactly `n` display columns. */
  lemma LayoutCentred(es: seq<string>, n: int)
    requires |es| == 1 && Width(es) < n
    ensures |StripWrappers(Layout(es, n))| == n
    ensures exists a: nat, b: nat ::
      && a <= b <= a + 1
      && a + |StripWrappers(es[0])| + b == n
      && Layout(es, n) == Spaces(a) + es[0] + Spaces(b)
  {
    WidthOfSingle(es);
    var a, b := PlaceOneGaps(es, n - Width(es));
    StripWrappersPadded(a, es[0], b);
    assert |StripWrappers(Layout(es, n))| == a + |StripWrappers(es[0])| + b;
  }

  lemma WidthOfSingle(es: seq<string>)
    requires |es| == 1
    ensures Width(es) == |StripWrappers(es[0])|
  {
    assert es == [es[0]];
    WidthOfOne(es[0]);
  }

  /** Two fragments are pushed to the two edges; the gap between them is
      what the fragments' display widths leave of `n`. */
  lemma LayoutTwo(es: seq<string>, n: int)
    requires |es| == 2 && Width(es) < n
    ensures exists g: nat ::
      && g > 0
      && |StripWrappers(es[0])| + g + |StripWrappers(es[1])| == n
      && Layout(es, n) == es[0] + Spaces(g) + es[1]
  {
    WidthOfTwo(es);
    var g: nat := n - Width(es);
    assert Layout(es, n) == es[0] + Spaces(g) + es[1];
  }

  /** Three fragments: the free columns are split into two gaps, the second
      equal to the first or one wider. */
  lemma LayoutThree(es: seq<string>, n: int)
    requires |es| == 3 && Width(es) < n
    ensures exists g1: nat, g2: nat ::
      && 0 < g1 + g2 && g1 <= g2 <= g1 + 1
      && Width(es) + g1 + g2 == n
      && Layout(es, n) == es[0] + Spaces(g1) + es[1] + Spaces(g2) + es[2]
  {
    var g1, g2 := PlaceThreeGaps(es, n - Width(es));
  }

  function Blanks(k: int): (r: seq<string>)
    ensures |r| == if k <= 0 then 0 else k
    ensures forall i :: 0 <= i < |r| ==> r[i] == ""
  {
    if k <= 0 then [] else Blanks(k - 1) + [""]
  }

  /** ModalLine (src/modal.py:4-73): a left, centre and right fragment. */
  class ModalLine {
    var elements: seq<string>

    /** The fragments given, padded with empty strings to three. */
    constructor (elems: seq<string>)
      ensures elements == elems + Blanks(3 - |elems|)
      ensures |elements| >= 3
    {
      var es := elems;
      while |es| < 3
        invariant |elems| <= |es|
        invariant |elems| < 3 ==> |es| <= 3
        invariant |elems| >= 3 ==> es == elems
        invariant es == elems + Blanks(|es| - |elems|)
        decreases 3 - |es|
      {
        es := es + [""];
      }
      assert Blanks(|es| - |elems|) == Blanks(3 - |elems|);
      elements := es;
    }

    /** get_renderable: drop fragments by priority until the rest is
        narrower than `maxLength`, then lay them out. The source loops
        forever when `maxLength <= 0` (an empty list is never narrower) and
        has no case for more than three fragments. */
    method GetRenderable(maxLength: int) returns (r: string)
      requires maxLength > 0 && |elements| <= 3
      ensures r == Layout(Survivors(elements, maxLength), maxLength)
    {
      var es := elements;
      while Width(es) >= maxLength
        invariant |es| <= 3
        invariant Survivors(es, maxLength) == Survivors(elements, maxLength)
        decreases |es|
      {
        if |es| == 1 {
          es := [];
        } else if |es| == 2 {
          assert es[..1] == DropOnce(es);
          es := es[..1];
        } else {
          es := [es[0], es[2]];
        }
      }
      r := Layout(es, maxLength);
    }
  }

  /** The expiry time of a slot set with `timeout` at time `now`; Python's
      `if timeout` treats both None and zero as "no timeout". */
  function Deadline(timeout: Option<real>, now: real): (d: Option<real>)
    ensures d.Some? <==> timeout.Some? && timeout.value != 0.0
    ensures d.Some? ==> d.value - now == timeout.value
  {
    if timeout.Some? && timeout.value != 0.0 then Some(now + timeout.value) else None
  }

  /** The test of on_screen_update: a set, non-zero expiry at or before now. */
  predicate Expired(t: Option<real>, now: real) {
    t.Some? && t.value != 0.0 && now >= t.value
  }

  /** A slot set with a positive timeout is cleared by the first screen
      update at or after its deadline, and not before. */
  lemma DeadlineExpires(timeout: real, setAt: real, now: real)
    requires timeout > 0.0 && setAt >= 0.0
    ensures Expired(Deadline(Some(timeout), setAt), now) <==> now >= setAt + timeout
  {
  }

  /** A row of expiry times after the first `upTo` slots are swept. */
  function SweepRow(row: seq<Option<real>>, now: real, upTo: int): (r: seq<Option<real>>)
    ensures |r| == |row|
  {
    seq(|row|, k requires 0 <= k < |row| => if k < upTo && Expired(row[k], now) then None else row[k])
  }

  /** The expiry table after a screen update at `now`. */
  function Sweep(table: seq<seq<Option<real>>>, now: real): (r: seq<seq<Option<real>>>)
    ensures |r| == |table|
  {
    seq(|table|, i requires 0 <= i < |table| => SweepRow(table[i], now, 3))
  }

  /** A line's fragments after the first `upTo` slots are swept. */
  function ClearRow(elements: seq<string>, row: seq<Option<real>>, now: real, upTo: int): (r: seq<string>)
    ensures |r| == |elements|
  {
    seq(|elements|, k requires 0 <= k < |elements| =>
      if k < upTo && k < |row| && Expired(row[k], now) then "" else elements[k])
  }

  /** After an update no slot of a well-formed table is still expired, and
      every slot that had not expired keeps its time. */
  lemma SweepClearsExpired(table: seq<seq<Option<real>>>, now: real)
    requires forall i :: 0 <= i < |table| ==> |table[i]| == 3
    ensures forall i, j :: 0 <= i < |table| && 0 <= j < 3 ==> !Expired(Sweep(table, now)[i][j], now)
    ensures forall i, j :: 0 <= i < |table| && 0 <= j < 3 && !Expired(table[i][j], now) ==>
      Sweep(table, now)[i][j] == table[i][j]
  {
  }

  /** A second update at the same time changes nothing. */
  lemma SweepIdempotent(table: seq<seq<Option<real>>>, now: real)
    requires forall i :: 0 <= i < |table| ==> |table[i]| == 3
    ensures Sweep(Sweep(table, now), now) == Sweep(table, now)
  {
    var once := Sweep(table, now);
    forall i | 0 <= i < |table|
      ensures SweepRow(once[i], now, 3) == once[i]
    {
    }
  }

  /** Modal (src/modal.py:75-110): `maxLines` modal lines and, for each of
      their three slots, the time at which the slot is cleared. */
  class Modal {
    const maxLines: nat
    var lines: seq<ModalLine>
    var removeOn: seq<seq<Option<real>>>

    /** Every addressed line has its three slots and an expiry row, and no
        line object appears twice. */
    ghost predicate Valid()
      reads this, lines
    {
      && |lines| >= maxLines
      && |removeOn| == maxLines
      && (forall i :: 0 <= i < maxLines ==> |removeOn[i]| == 3 && |lines[i].elements| >= 3)
      && (forall i, j :: 0 <= i < j < |lines| ==> lines[i] != lines[j])
    }

    /** The lines given, followed by fresh blank lines up to `maxLines`;
        no slot has an expiry time. */
    constructor (maxLines: nat, given: seq<ModalLine>)
      requires forall i :: 0 <= i < |given| ==> |given[i].elements| >= 3
      requires forall i, j :: 0 <= i < j < |given| ==> given[i] != given[j]
      ensures Valid()
      ensures this.maxLines == maxLines
      ensures |lines| == if |given| < maxLines then maxLines else |given|
      ensures lines[..|given|] == given
      ensures forall i :: |given| <= i < |lines| ==> fresh(lines[i]) && lines[i].elements == ["", "", ""]
      ensures forall i :: 0 <= i < maxLines ==> removeOn[i] == [None, None, None]
    {
      this.maxLines := maxLines;
      var ls := given;
      while |ls| < maxLines
        invariant |given| <= |ls| <= if |given| < maxLines then maxLines else |given|
        invariant ls[..|given|] == given
        invariant forall i :: |given| <= i < |ls| ==> fresh(ls[i]) && ls[i].elements == ["", "", ""]
        invariant forall i :: 0 <= i < |given| ==> |given[i].elements| >= 3
        invariant forall i, j :: 0 <= i < j < |ls| ==> ls[i] != ls[j]
      {
        var blank := new ModalLine([]);
        ls := ls + [blank];
      }
      lines := ls;
      removeOn := seq(maxLines, _ => [None, None, None]);
    }

    /** set: replace one fragment and record when it expires. */
    method Set(line: int, idx: int, text: string, timeout: Option<real>, now: real)
      requires Valid() && 0 <= line < maxLines && 0 <= idx < 3
      modifies this, lines[line]
      ensures Valid()
      ensures lines == old(lines)
      ensures lines[line].elements == old(lines[line].elements)[idx := text]
      ensures removeOn == old(removeOn)[line := old(removeOn[line])[idx := Deadline(timeout, now)]]
    {
      lines[line].elements := lines[line].elements[idx := text];
      removeOn := removeOn[line := removeOn[line][idx := Deadline(timeout, now)]];
    }

    /** set_line: replace a whole line; its three slots share one expiry. */
    method SetLine(line: int, modalLine: ModalLine, timeout: Option<real>, now: real)
      requires Valid() && 0 <= line < maxLines && |modalLine.elements| >= 3
      requires forall i :: 0 <= i < |lines| && i != line ==> lines[i] != modalLine
      modifies this
      ensures Valid()
      ensures lines == old(lines)[line := modalLine]
      ensures var d := Deadline(timeout, now); removeOn == old(removeOn)[line := [d, d, d]]
    {
      lines := lines[line := modalLine];
      var endTime := Deadline(timeout, now);
      removeOn := removeOn[line := [endTime, endTime, endTime]];
    }

    /** on_screen_update: every slot whose expiry is at or before `now` is
        emptied and loses its expiry; every other slot is left alone. */
    method OnScreenUpdate(now: real)
      requires Valid()
      modifies this, lines
      ensures Valid()
      ensures lines == old(lines)
      ensures removeOn == Sweep(old(removeOn), now)
      ensures forall i :: 0 <= i < maxLines ==>
        lines[i].elements == ClearRow(old(lines[i].elements), old(removeOn[i]), now, 3)
      ensures forall i :: maxLines <= i < |lines| ==> lines[i].elements == old(lines[i].elements)
    {
      var i := 0;
      while i < maxLines
        invariant 0 <= i <= maxLines
        invariant Valid()
        invariant lines == old(lines)
        invariant forall k :: 0 <= k < i ==> removeOn[k] == SweepRow(old(removeOn[k]), now, 3)
        invariant forall k :: i <= k < maxLines ==> removeOn[k] == old(removeOn[k])
        invariant forall k :: 0 <= k < i ==>
          lines[k].elements == ClearRow(old(lines[k].elements), old(removeOn[k]), now, 3)
        invariant forall k :: i <= k < |lines| ==> lines[k].elements == old(lines[k].elements)
      {
        SweepLine(i, now);
        i := i + 1;
      }
      assert removeOn == Sweep(old(removeOn), now);
    }

    /** One turn of the outer loop of on_screen_update: the three slots of
        line `i`. */
    method SweepLine(i: int, now: real)
      requires Valid() && 0 <= i < maxLines
      modifies this, lines[i]
      ensures Valid()
      ensures lines == old(lines)
      ensures removeOn == old(removeOn)[i := SweepRow(old(removeOn[i]), now, 3)]
      ensures lines[i].elements == ClearRow(old(lines[i].elements), old(removeOn[i]), now, 3)
    {
      var j := 0;
      assert SweepRow(old(removeOn[i]), now, 0) == old(removeOn[i]);
      while j < 3
        invariant 0 <= j <= 3
        invariant Valid()
        invariant lines == old(lines)
        invariant removeOn == old(removeOn)[i := SweepRow(old(removeOn[i]), now, j)]
        invariant lines[i].elements == ClearRow(old(lines[i].elements), old(removeOn[i]), now, j)
      {
        ghost var row := SweepRow(old(removeOn[i]), now, j);
        if Expired(removeOn[i][j], now) {
          Set(i, j, "", None, now);
          removeOn := removeOn[i := removeOn[i][j := None]];
          assert removeOn[i] == row[j := None];
        }
        assert SweepRow(old(removeOn[i]), now, j + 1) == removeOn[i];
        j := j + 1;
      }
    }
  }
}
