/** The viewport and scroll engine of the output pane (src/page.py).
    Inheritance is modelled by composition: an AutoScrolledPage holds the
    ScrollablePage whose methods it extends, and a ChannelChatPage holds
    an AutoScrolledPage. The configuration values the source reads from
    its `config` module (the border flag and the prefix width) are
    constructor parameters. */
module Pages {
  import opened Errors
  import opened Markup
  import opened Wrapping

  function Clamp(x: int, lo: int, hi: int): (r: int)
    requires lo <= hi
    ensures lo <= r <= hi
    ensures lo <= x <= hi ==> r == x
  {
    if x < lo then lo else if x > hi then hi else x
  }

  /** The first viewport index get_renderable can show. */
  function WindowStart(head: int, len: nat): nat {
    Clamp(head, 0, len)
  }

  predicate InWindow(i: int, head: int, h: int) {
    head <= i < head + h
  }

  /** The lines get_renderable shows: exactly the viewport lines whose index
      lies in [head, head + h), in order, and never more than h of them. */
  function Window(v: seq<string>, head: int, h: int): (w: seq<string>)
    ensures |w| <= if h > 0 then h else 0
    ensures WindowStart(head, |v|) + |w| <= |v|
    ensures w == v[WindowStart(head, |v|)..WindowStart(head, |v|) + |w|]
    ensures forall i :: 0 <= i < |v| ==>
      (WindowStart(head, |v|) <= i < WindowStart(head, |v|) + |w| <==> InWindow(i, head, h))
  {
    var lo := WindowStart(head, |v|);
    v[lo..Clamp(head + h, lo, |v|)]
  }

  /** One more viewport line extends the window by that line exactly when
      its index is in the window. */
  lemma WindowStep(v: seq<string>, i: int, head: int, h: int)
    requires 0 <= i < |v|
    ensures Window(v[..i + 1], head, h) ==
      if InWindow(i, head, h) then Window(v[..i], head, h) + [v[i]] else Window(v[..i], head, h)
  {
    var a, b := Window(v[..i], head, h), Window(v[..i + 1], head, h);
    var loA, loB := WindowStart(head, i), WindowStart(head, i + 1);
    var hiA, hiB := Clamp(head + h, loA, i), Clamp(head + h, loB, i + 1);
    assert a == v[..i][loA..hiA];
    assert b == v[..i + 1][loB..hiB];
    if InWindow(i, head, h) {
      assert loA == loB && hiA == i && hiB == i + 1;
      assert a == v[loA..i];
      assert b == v[loA..i] + [v[i]];
    } else if i < head {
      assert loA == hiA && loB == hiB;
    } else {
      assert loA == loB && hiA == hiB;
      assert a == v[loA..hiA] == b;
    }
  }

  /** Lines past the window's end add nothing. */
  lemma WindowStop(v: seq<string>, i: int, head: int, h: int)
    requires 0 <= i <= |v| && i >= head + h
    ensures Window(v, head, h) == Window(v[..i], head, h)
  {
    var a, b := Window(v[..i], head, h), Window(v, head, h);
    if head <= i {
      assert WindowStart(head, i) == WindowStart(head, |v|);
    } else {
      assert |a| == 0 && |b| == 0;
    }
    assert |a| == |b|;
  }

  /** When the head sits at the bottom, the window is the newest h lines. */
  lemma PinnedWindowShowsNewest(v: seq<string>, h: int)
    requires 0 < h <= |v|
    ensures Window(v, |v| - h, h) == v[|v| - h..]
  {
  }

  /** Python's `s[k:]`, where a negative k counts from the end. */
  function SliceFrom(s: seq<string>, k: int): (r: seq<string>)
    ensures |r| <= |s|
    ensures r == s[|s| - |r|..]
  {
    if k >= 0 then (if k <= |s| then s[k..] else [])
    else if -k <= |s| then s[|s| + k..]
    else s
  }

  /** The trim `lines[-h:]` in get_renderable never removes anything from a
      window of height h. */
  lemma TrimIsNoOp(v: seq<string>, head: int, h: int)
    ensures SliceFrom(Window(v, head, h), -h) == Window(v, head, h)
  {
  }

  /** `math.ceil(a / b)` for a positive divisor. */
  function CeilDiv(a: int, b: int): (r: int)
    requires b > 0
    ensures (r - 1) * b < a <= r * b
  {
    var q := (-a) / b;
    assert q * b <= -a < (q + 1) * b;
    -q
  }

  /** The resize remap of on_screen_update (src/page.py:118-127). */
  function RemapHead(head: int, oldWidth: int, newWidth: int): int
    requires newWidth > 0
  {
    var charIdx := head * oldWidth;
    var c := if charIdx != 0 then charIdx + 1 else 0;
    var h := CeilDiv(c, newWidth);
    if h != 0 then h - 1 else 0
  }

  /** For a non-negative character offset p = head * oldWidth, the new head
      is the line, in lines of newWidth characters, that holds character p:
      the floor of p / newWidth. */
  lemma RemapHeadFloor(head: int, oldWidth: int, newWidth: int)
    requires newWidth > 0 && head * oldWidth >= 0
    ensures var r := RemapHead(head, oldWidth, newWidth);
      r >= 0 && r * newWidth <= head * oldWidth < (r + 1) * newWidth
    ensures RemapHead(head, oldWidth, newWidth) == head * oldWidth / newWidth
  {
    var p := head * oldWidth;
    var r := RemapHead(head, oldWidth, newWidth);
    if p != 0 {
      var h := CeilDiv(p + 1, newWidth);
      assert h * newWidth >= p + 1 > 0;
      assert h > 0;
      assert r == h - 1;
      assert r * newWidth == h * newWidth - newWidth;
    }
    assert r >= 0 && r * newWidth <= p < (r + 1) * newWidth;
    FloorUnique(p, newWidth, r);
  }

  lemma FloorUnique(p: int, w: int, r: int)
    requires w > 0 && r * w <= p < (r + 1) * w
    ensures r == p / w
  {
    var q := p / w;
    assert q * w <= p < (q + 1) * w;
    MulMonotone(q + 1, r, w);
    MulMonotone(r + 1, q, w);
  }

  lemma MulMonotone(a: int, b: int, w: int)
    requires w > 0
    ensures a <= b ==> a * w <= b * w
  {
    if a <= b {
      assert b * w == a * w + (b - a) * w;
    }
  }

  /** on_scroll_up. */
  function ScrollUpHead(head: int): (r: int)
    ensures r >= 0
    ensures head > 0 ==> r == head - 1
    ensures head <= 0 ==> r == 0
  {
    if head - 1 > 0 then head - 1 else 0
  }

  /** on_scroll_down: one line further, but never past `len - h`. */
  function ScrollDownHead(head: int, len: nat, h: int): (r: int)
    ensures r <= len - h && r <= head + 1
    ensures r == head + 1 || r == len - h
  {
    if len - h < head + 1 then len - h else head + 1
  }

  /** The head is a valid top line of a full window. */
  predicate InBounds(head: int, len: nat, h: int) {
    0 <= head <= len - h
  }

  /** Scrolling keeps a valid head valid. */
  lemma ScrollingKeepsBounds(head: int, len: nat, h: int)
    requires InBounds(head, len, h)
    ensures InBounds(ScrollUpHead(head), len, h)
    ensures InBounds(ScrollDownHead(head, len, h), len, h)
  {
  }

  /** With fewer viewport lines than the window is high, scrolling down
      moves the head below zero (src/page.py:102). */
  lemma ScrollDownCanGoNegative(head: int, len: nat, h: int)
    requires len < h && head >= 0
    ensures ScrollDownHead(head, len, h) < 0
  {
  }

  /** ScrollablePage (src/page.py:62-129): logical lines, the viewport of
      wrapped lines, the window geometry and the scroll head. */
  class ScrollablePage {
    const border: bool
    var lines: seq<string>
    var outputHeight: int
    var windowDimensions: (int, int)
    var viewport: seq<string>
    var head: int

    /** The number of rows inside the border. */
    function TrueOutputHeight(): int
      reads this
    {
      outputHeight - if border then 2 else 0
    }

    /** The viewport holds the wrap of the logical lines at the current
        width. */
    ghost predicate Rewrapped()
      reads this
    {
      windowDimensions.1 > 0 && viewport == WrapAll(lines, windowDimensions.1)
    }

    /** The page starts with the lines of `text`, unwrapped, at the top. */
    constructor (border: bool, text: string)
      ensures this.border == border
      ensures lines == Split(text) && viewport == lines
      ensures outputHeight == 0 && windowDimensions == (0, 0) && head == 0
    {
      this.border := border;
      lines := Split(text);
      outputHeight := 0;
      windowDimensions := (0, 0);
      viewport := Split(text);
      head := 0;
    }

    /** update_viewport_lines: the wrap of every logical line, in order.
        textwrap raises for a width <= 0. */
    method UpdateViewportLines()
      requires windowDimensions.1 > 0
      modifies this
      ensures Rewrapped()
      ensures lines == old(lines) && head == old(head)
      ensures outputHeight == old(outputHeight) && windowDimensions == old(windowDimensions)
    {
      var acc: seq<string> := [];
      var i := 0;
      while i < |lines|
        invariant 0 <= i <= |lines|
        invariant acc == WrapAll(lines[..i], windowDimensions.1)
      {
        assert lines[..i + 1][..i] == lines[..i];
        acc := acc + Wrap(lines[i], windowDimensions.1);
        i := i + 1;
      }
      assert lines[..i] == lines;
      viewport := acc;
    }

    /** add_line: one more logical line, then a rewrap. */
    method AddLine(line: string)
      requires windowDimensions.1 > 0
      modifies this
      ensures lines == old(lines) + [line]
      ensures Rewrapped()
      ensures old(Rewrapped()) ==> viewport == old(viewport) + Wrap(line, windowDimensions.1)
      ensures head == old(head)
      ensures outputHeight == old(outputHeight) && windowDimensions == old(windowDimensions)
    {
      lines := lines + [line];
      UpdateViewportLines();
      assert lines[..|lines| - 1] == old(lines);
    }

    /** get_renderable: the window at the head, joined with newlines. */
    method GetRenderable() returns (r: string)
      ensures r == Join(Window(viewport, head, TrueOutputHeight()))
    {
      var h := TrueOutputHeight();
      var shown: seq<string> := [];
      var i := 0;
      while i < |viewport|
        invariant 0 <= i <= |viewport|
        invariant shown == Window(viewport[..i], head, h)
      {
        WindowStep(viewport, i, head, h);
        if i < head {
          i := i + 1;
          continue;
        }
        if i > head + h - 1 {
          WindowStop(viewport, i, head, h);
          break;
        }
        shown := shown + [viewport[i]];
        i := i + 1;
      }
      if i == |viewport| {
        assert viewport[..i] == viewport;
      }
      assert shown == Window(viewport, head, h);
      TrimIsNoOp(viewport, head, h);
      shown := SliceFrom(shown, -h);
      r := Join(shown);
    }

    method OnScrollUp()
      modifies this
      ensures head == ScrollUpHead(old(head))
      ensures lines == old(lines) && viewport == old(viewport)
      ensures outputHeight == old(outputHeight) && windowDimensions == old(windowDimensions)
    {
      head := if 0 > head - 1 then 0 else head - 1;
    }

    method OnScrollDown()
      modifies this
      ensures head == ScrollDownHead(old(head), |viewport|, TrueOutputHeight())
      ensures lines == old(lines) && viewport == old(viewport)
      ensures outputHeight == old(outputHeight) && windowDimensions == old(windowDimensions)
    {
      var bottom := |viewport| - TrueOutputHeight();
      head := if bottom < head + 1 then bottom else head + 1;
    }

    /** on_screen_update: record the output height; on a change of window
        dimensions, remap the head to the new width and rewrap. */
    method OnScreenUpdate(dims: (int, int), height: int)
      requires dims != windowDimensions ==> dims.1 > 0
      modifies this
      ensures outputHeight == height && lines == old(lines)
      ensures dims == old(windowDimensions) ==>
        head == old(head) && viewport == old(viewport) && windowDimensions == old(windowDimensions)
      ensures dims != old(windowDimensions) ==>
        && windowDimensions == dims
        && head == RemapHead(old(head), old(windowDimensions).1, dims.1)
        && Rewrapped()
    {
      outputHeight := height;
      if dims != windowDimensions {
        var oldDims := windowDimensions;
        var charIdxPrev := head * oldDims.1;
        if charIdxPrev != 0 {
          charIdxPrev := charIdxPrev + 1;
        }
        windowDimensions := dims;
        head := CeilDiv(charIdxPrev, windowDimensions.1);
        if head != 0 {
          head := head - 1;
        }
        UpdateViewportLines();
      }
    }
  }

  /** A rewrapped viewport holds exactly the text of the logical lines. */
  lemma RewrappedKeepsText(p: ScrollablePage)
    requires p.Rewrapped()
    ensures Flatten(p.viewport) == Flatten(p.lines)
  {
    WrapAllKeepsText(p.lines, p.windowDimensions.1);
  }

  /** AutoScrolledPage (src/page.py:131-148): follows the newest line until
      the user scrolls up, and again once they scroll back to the bottom. */
  class AutoScrolledPage {
    const page: ScrollablePage
    var updateScrollHead: bool

    /** The head that shows the newest full window. */
    function Bottom(): int
      reads page
    {
      |page.viewport| - page.TrueOutputHeight()
    }

    constructor (border: bool, text: string)
      ensures fresh(page)
      ensures page.border == border && page.lines == Split(text) && page.viewport == page.lines
      ensures page.outputHeight == 0 && page.windowDimensions == (0, 0) && page.head == 0
      ensures updateScrollHead
    {
      page := new ScrollablePage(border, text);
      updateScrollHead := true;
    }

    /** Scrolling up always stops following. */
    method OnScrollUp()
      modifies this, page
      ensures page.head == ScrollUpHead(old(page.head))
      ensures !updateScrollHead
      ensures page.lines == old(page.lines) && page.viewport == old(page.viewport)
      ensures page.outputHeight == old(page.outputHeight)
      ensures page.windowDimensions == old(page.windowDimensions)
    {
      page.OnScrollUp();
      updateScrollHead := false;
    }

    /** Scrolling down resumes following exactly when it reaches the
        bottom; otherwise the flag is kept. */
    method OnScrollDown()
      modifies this, page
      ensures page.head == ScrollDownHead(old(page.head), |page.viewport|, page.TrueOutputHeight())
      ensures updateScrollHead == (old(updateScrollHead) || page.head == Bottom())
      ensures page.lines == old(page.lines) && page.viewport == old(page.viewport)
      ensures page.outputHeight == old(page.outputHeight)
      ensures page.windowDimensions == old(page.windowDimensions)
    {
      page.OnScrollDown();
      if page.head == |page.viewport| - page.TrueOutputHeight() {
        updateScrollHead := true;
      }
    }

    /** add_line: while following, the head is pinned to the bottom. */
    method AddLine(line: string)
      requires page.windowDimensions.1 > 0
      modifies page
      ensures page.lines == old(page.lines) + [line]
      ensures page.Rewrapped()
      ensures old(page.Rewrapped()) ==>
        page.viewport == old(page.viewport) + Wrap(line, page.windowDimensions.1)
      ensures updateScrollHead ==> page.head == Bottom()
      ensures !updateScrollHead ==> page.head == old(page.head)
      ensures page.outputHeight == old(page.outputHeight)
      ensures page.windowDimensions == old(page.windowDimensions)
    {
      page.AddLine(line);
      if updateScrollHead {
        page.head := |page.viewport| - page.TrueOutputHeight();
      }
    }
    /** The loop of process_message that adds its lines one by one
        (src/page.py:192-193). */
    method AddLines(out: seq<string>)
      requires page.windowDimensions.1 > 0
      modifies page
      ensures page.lines == old(page.lines) + out
      ensures |out| == 0 ==> page.viewport == old(page.viewport) && page.head == old(page.head)
      ensures |out| > 0 ==> page.Rewrapped()
      ensures updateScrollHead && |out| > 0 ==> page.head == Bottom()
      ensures !updateScrollHead ==> page.head == old(page.head)
      ensures page.outputHeight == old(page.outputHeight)
      ensures page.windowDimensions == old(page.windowDimensions)
    {
      var j := 0;
      while j < |out|
        invariant 0 <= j <= |out|
        invariant page.windowDimensions == old(page.windowDimensions)
        invariant page.outputHeight == old(page.outputHeight)
        invariant page.lines == old(page.lines) + out[..j]
        invariant j == 0 ==> page.viewport == old(page.viewport) && page.head == old(page.head)
        invariant j > 0 ==> page.Rewrapped()
        invariant updateScrollHead && j > 0 ==> page.head == Bottom()
        invariant !updateScrollHead ==> page.head == old(page.head)
      {
        AddLine(out[j]);
        assert out[..j + 1] == out[..j] + [out[j]];
        j := j + 1;
      }
      assert out[..j] == out;
    }
  }

  /** A page that follows the newest line shows the newest full window
      whenever the viewport fills it. */
  lemma FollowingShowsNewest(a: AutoScrolledPage)
    requires a.updateScrollHead && a.page.head == a.Bottom()
    requires 0 < a.page.TrueOutputHeight() <= |a.page.viewport|
    ensures Window(a.page.viewport, a.page.head, a.page.TrueOutputHeight())
      == a.page.viewport[|a.page.viewport| - a.page.TrueOutputHeight()..]
  {
    PinnedWindowShowsNewest(a.page.viewport, a.page.TrueOutputHeight());
  }

  /** A page that follows the newest line always shows it, whatever the
      window height, as soon as there is a line. */
  lemma FollowingShowsNewestLine(a: AutoScrolledPage)
    requires a.page.head == a.Bottom()
    requires 0 < a.page.TrueOutputHeight() && |a.page.viewport| > 0
    ensures var w := Window(a.page.viewport, a.page.head, a.page.TrueOutputHeight());
      |w| > 0 && w[|w| - 1] == a.page.viewport[|a.page.viewport| - 1]
  {
  }

  /** The parts of a platform message the page reads. */
  datatype Message = Message(channelId: int, authorId: int, authorName: string, content: string)

  /** Messages by anyone but the signed-in user are shown in bold. */
  function AuthorTags(msg: Message, botUserId: int): seq<string> {
    if msg.authorId != botUserId then ["**"] else []
  }

  function AuthorLabel(msg: Message, botUserId: int): Text {
    if msg.authorId != botUserId then Text("**" + msg.authorName + "**") else Text(msg.authorName)
  }

  /** What "shown in bold" means: another user's body is enclosed in one
      `**` pair and the signed-in user's is left as it is; either way a
      plain body is displayed as itself. */
  lemma AuthorBodyBold(msg: Message, botUserId: int, body: string)
    ensures Enclose(AuthorTags(msg, botUserId), body) ==
      if msg.authorId != botUserId then "**" + body + "**" else body
    ensures |body| > 0 && MarkupFree(body) && (forall i :: 0 <= i < |body| ==> body[i] != '\n') ==>
      StripWrappers(Enclose(AuthorTags(msg, botUserId), body)) == body
  {
    var tags := AuthorTags(msg, botUserId);
    if msg.authorId != botUserId {
      assert Concat(tags) == "**" + Concat([]);
      assert Reverse(tags) == Reverse([]) + ["**"];
      assert Concat(Reverse(tags)) == "**" + Concat([]);
    }
    if |body| > 0 && MarkupFree(body) && (forall i :: 0 <= i < |body| ==> body[i] != '\n') {
      StripWrappersBold(body);
      StripWrappersMarkupFree(body);
    }
  }

  /** The author label displays the plain author name, in bold for
      another user, and is exactly as wide as the name. */
  lemma AuthorLabelShown(msg: Message, botUserId: int)
    requires |msg.authorName| > 0 && MarkupFree(msg.authorName)
    requires forall i :: 0 <= i < |msg.authorName| ==> msg.authorName[i] != '\n'
    ensures AuthorLabel(msg, botUserId).raw ==
      if msg.authorId != botUserId then "**" + msg.authorName + "**" else msg.authorName
    ensures AuthorLabel(msg, botUserId).Clean().raw == msg.authorName
    ensures AuthorLabel(msg, botUserId).Size() == |msg.authorName|
  {
    StripWrappersBold(msg.authorName);
    StripWrappersMarkupFree(msg.authorName);
  }

  /** The first line of a message, as process_message builds it: the
      clock, the padding, the author label, the separator and the body. */
  lemma FirstLineRaw(piece: string, clock: string, msg: Message, botUserId: int, lenMax: int)
    requires MarkupFree(clock)
    requires |msg.authorName| > 0 && MarkupFree(msg.authorName)
    requires forall i :: 0 <= i < |msg.authorName| ==> msg.authorName[i] != '\n'
    requires WithPrefix(Text(piece), Text(clock), AuthorLabel(msg, botUserId), lenMax, true,
                        AuthorTags(msg, botUserId)).Ok?
    ensures |clock| + |msg.authorName| <= lenMax - 3
    ensures WithPrefix(Text(piece), Text(clock), AuthorLabel(msg, botUserId), lenMax, true,
                       AuthorTags(msg, botUserId)).value.raw
            == (clock + Spaces(lenMax - 3 - |clock| - |msg.authorName|)) + AuthorLabel(msg, botUserId).raw
               + " | " + Enclose(AuthorTags(msg, botUserId), piece)
  {
    AuthorLabelShown(msg, botUserId);
  }

  /** The first line of a message, as process_message builds it, spans
      the prefix width, the three separator columns and the display width
      of the enclosed body: the author label's markup takes no column. */
  lemma FirstLineWidth(piece: string, clock: string, msg: Message, botUserId: int, lenMax: int)
    requires MarkupFree(clock)
    requires |msg.authorName| > 0 && MarkupFree(msg.authorName)
    requires forall i :: 0 <= i < |msg.authorName| ==> msg.authorName[i] != '\n'
    requires WithPrefix(Text(piece), Text(clock), AuthorLabel(msg, botUserId), lenMax, true,
                        AuthorTags(msg, botUserId)).Ok?
    ensures WithPrefix(Text(piece), Text(clock), AuthorLabel(msg, botUserId), lenMax, true,
                       AuthorTags(msg, botUserId)).value.Size()
            == lenMax - 3 + 3 + |StripWrappers(Enclose(AuthorTags(msg, botUserId), piece))|
  {
    var name := msg.authorName;
    FirstLineRaw(piece, clock, msg, botUserId, lenMax);
    var pad := Spaces(lenMax - 3 - |clock| - |name|);
    MarkupFreeAppend(clock, pad);
    FirstLineShape(WithPrefix(Text(piece), Text(clock), AuthorLabel(msg, botUserId), lenMax, true,
                              AuthorTags(msg, botUserId)).value,
                   clock + pad, name, msg.authorId != botUserId, Enclose(AuthorTags(msg, botUserId), piece));
  }

  /** A line made of a markup-free lead, a plain or bold name, the
      separator and a body is as wide as the lead, the name, three columns
      and the body's display width. */
  lemma FirstLineShape(w: Text, lead: string, name: string, bold: bool, body: string)
    requires MarkupFree(lead) && |name| > 0 && MarkupFree(name)
    requires forall i :: 0 <= i < |name| ==> name[i] != '\n'
    requires w.raw == lead + (if bold then "**" + name + "**" else name) + " | " + body
    ensures w.Size() == |lead| + |name| + 3 + |StripWrappers(body)|
  {
    if bold {
      assert w.raw == lead + "**" + name + "**" + " | " + body;
      FirstLineOther(lead, name, body);
    } else {
      FirstLineOwn(lead, name, body);
    }
  }

  lemma FirstLineOther(lead: string, name: string, body: string)
    requires MarkupFree(lead) && |name| > 0 && MarkupFree(name)
    requires forall i :: 0 <= i < |name| ==> name[i] != '\n'
    ensures |StripWrappers(lead + "**" + name + "**" + " | " + body)| == |lead| + |name| + 3 + |StripWrappers(body)|
  {
    var tail := " | " + body;
    assert lead + "**" + name + "**" + " | " + body == lead + ("**" + name + "**" + tail);
    StripWrappersPrefix(lead, "**" + name + "**" + tail);
    StripWrappersBoldThen(name, tail);
    assert MarkupFree(" | ");
    StripWrappersPrefix(" | ", body);
  }

  lemma FirstLineOwn(lead: string, name: string, body: string)
    requires MarkupFree(lead) && MarkupFree(name)
    ensures |StripWrappers(lead + name + " | " + body)| == |lead| + |name| + 3 + |StripWrappers(body)|
  {
    assert MarkupFree(" | ");
    MarkupFreeAppend(lead, name);
    MarkupFreeAppend(lead + name, " | ");
    StripWrappersPrefix(lead + name + " | ", body);
  }

  /** The wrap width of a message body: the window width less the prefix
      and eight columns. */
  function BodyWidth(windowWidth: int, prefixLen: int): int {
    windowWidth - prefixLen - 8
  }

  /** The wrapped pieces of a message body behind their prefixes: the
      clock and author on the first piece, blanks on the rest. ValueError,
      from lr_justified, when there is a piece and the prefix does not fit. */
  function PrefixAll(pieces: seq<string>, clock: Text, author: Text, prefixLen: int, tags: seq<string>)
    : (r: Result<seq<string>>)
    ensures r.Err? <==> pieces != [] && LrJustified(clock, author, prefixLen - 3).Err?
    ensures r.Err? ==> r.error == ValueError
    ensures r.Ok? ==> |r.value| == |pieces|
    decreases |pieces|
  {
    if pieces == [] then Ok([])
    else
      var init := PrefixAll(pieces[..|pieces| - 1], clock, author, prefixLen, tags);
      var line := WithPrefix(Text(pieces[|pieces| - 1]), clock, author, prefixLen, |pieces| == 1, tags);
      if init.Err? then init
      else if line.Err? then Err(line.error)
      else Ok(init.value + [line.value.raw])
  }

  /** A piece whose prefix does not fit fails the whole message. */
  lemma PrefixAllFails(pieces: seq<string>, clock: Text, author: Text, prefixLen: int, tags: seq<string>, i: int)
    requires 0 <= i < |pieces|
    requires WithPrefix(Text(pieces[i]), clock, author, prefixLen, i == 0, tags).Err?
    ensures PrefixAll(pieces, clock, author, prefixLen, tags) == Err(ValueError)
  {
  }

  /** One more piece appends its prefixed line. */
  lemma PrefixAllExtends(pieces: seq<string>, clock: Text, author: Text, prefixLen: int, tags: seq<string>,
                         i: int, out: seq<string>)
    requires 0 <= i < |pieces|
    requires PrefixAll(pieces[..i], clock, author, prefixLen, tags) == Ok(out)
    requires WithPrefix(Text(pieces[i]), clock, author, prefixLen, i == 0, tags).Ok?
    ensures PrefixAll(pieces[..i + 1], clock, author, prefixLen, tags)
      == Ok(out + [WithPrefix(Text(pieces[i]), clock, author, prefixLen, i == 0, tags).value.raw])
  {
    assert pieces[..i + 1][..i] == pieces[..i];
    assert pieces[..i + 1][i] == pieces[i];
  }

  /** Line `k` of the result is piece `k` behind its prefix, the first
      piece behind the clock and author. */
  lemma {:induction false} PrefixAllAt(pieces: seq<string>, clock: Text, author: Text, prefixLen: int,
                                       tags: seq<string>, k: int)
    requires PrefixAll(pieces, clock, author, prefixLen, tags).Ok?
    requires 0 <= k < |pieces|
    ensures WithPrefix(Text(pieces[k]), clock, author, prefixLen, k == 0, tags).Ok?
    ensures PrefixAll(pieces, clock, author, prefixLen, tags).value[k]
      == WithPrefix(Text(pieces[k]), clock, author, prefixLen, k == 0, tags).value.raw
    decreases |pieces|
  {
    var init := pieces[..|pieces| - 1];
    if k < |pieces| - 1 {
      PrefixAllAt(init, clock, author, prefixLen, tags, k);
      assert init[k] == pieces[k];
    }
  }

  /** The loop of process_message that puts each wrapped piece behind its
      prefix (src/page.py:185-190); the first failure is raised. */
  method PrefixPieces(pieces: seq<string>, clock: Text, author: Text, prefixLen: int, tags: seq<string>)
    returns (r: Result<seq<string>>)
    ensures r == PrefixAll(pieces, clock, author, prefixLen, tags)
  {
    var out: seq<string> := [];
    var i := 0;
    while i < |pieces|
      invariant 0 <= i <= |pieces|
      invariant PrefixAll(pieces[..i], clock, author, prefixLen, tags) == Ok(out)
    {
      var line := WithPrefix(Text(pieces[i]), clock, author, prefixLen, i == 0, tags);
      if line.Err? {
        PrefixAllFails(pieces, clock, author, prefixLen, tags, i);
        return Err(line.error);
      }
      PrefixAllExtends(pieces, clock, author, prefixLen, tags, i, out);
      out := out + [line.value.raw];
      i := i + 1;
    }
    assert pieces[..i] == pieces;
    r := Ok(out);
  }

  /** The output lines of one message: the body wrapped to BodyWidth and
      put behind its prefixes. ValueError when the wrap width is not
      positive (textwrap) or, for a non-empty body, when the prefix does not
      fit (lr_justified). */
  function Rendered(msg: Message, clock: Text, windowWidth: int, prefixLen: int, botUserId: int)
    : (r: Result<seq<string>>)
    ensures r.Err? ==> r.error == ValueError
    ensures r.Err? <==>
      || BodyWidth(windowWidth, prefixLen) <= 0
      || (msg.content != [] && LrJustified(clock, AuthorLabel(msg, botUserId), prefixLen - 3).Err?)
    ensures r.Ok? ==> |r.value| == |Wrap(msg.content, BodyWidth(windowWidth, prefixLen))|
  {
    var w := BodyWidth(windowWidth, prefixLen);
    if w <= 0 then Err(ValueError)
    else PrefixAll(Wrap(msg.content, w), clock, AuthorLabel(msg, botUserId), prefixLen, AuthorTags(msg, botUserId))
  }

  /** With a markup-free clock, every rendered line has its body behind a
      prefix of the same display width: the justified clock and author on
      the first line, blanks on the others. Put together, the bodies are
      the message content. */
  lemma RenderedLinesAligned(msg: Message, clock: Text, windowWidth: int, prefixLen: int, botUserId: int)
    requires MarkupFree(clock.raw)
    requires Rendered(msg, clock, windowWidth, prefixLen, botUserId).Ok?
    ensures var w := BodyWidth(windowWidth, prefixLen);
      var pieces := Wrap(msg.content, w);
      var tags := AuthorTags(msg, botUserId);
      var out := Rendered(msg, clock, windowWidth, prefixLen, botUserId).value;
      && Flatten(pieces) == msg.content
      && forall k :: 1 <= k < |out| ==> out[k] == Spaces(prefixLen - 3) + " | " + Enclose(tags, pieces[k])
  {
    var w := BodyWidth(windowWidth, prefixLen);
    WrapKeepsText(msg.content, w);
    var pieces := Wrap(msg.content, w);
    var author := AuthorLabel(msg, botUserId);
    var tags := AuthorTags(msg, botUserId);
    var out := Rendered(msg, clock, windowWidth, prefixLen, botUserId).value;
    forall k | 1 <= k < |out|
      ensures out[k] == Spaces(prefixLen - 3) + " | " + Enclose(tags, pieces[k])
    {
      PrefixAllAt(pieces, clock, author, prefixLen, tags, k);
      WithPrefixAligned(Text(pieces[k]), clock, author, prefixLen, tags);
    }
  }

  /** ChannelChatPage (src/page.py:150-193): a page for one channel that
      shows messages only once it has been opened. */
  class ChannelChatPage {
    const auto: AutoScrolledPage
    const channelId: int
    const botUserId: int
    const prefixLen: int
    var isOpen: bool

    constructor (channelId: int, botUserId: int, prefixLen: int, border: bool, text: string)
      ensures this.channelId == channelId && this.botUserId == botUserId
      ensures this.prefixLen == prefixLen
      ensures fresh(auto) && fresh(auto.page)
      ensures auto.page.lines == Split(text) && auto.page.head == 0 && auto.updateScrollHead
      ensures !isOpen
    {
      this.channelId := channelId;
      this.botUserId := botUserId;
      this.prefixLen := prefixLen;
      auto := new AutoScrolledPage(border, text);
      isOpen := false;
    }

    /** on_first_open: marks the page opened; a second call does nothing.
        (Fetching the history is asynchronous and not modelled.) */
    method OnFirstOpen()
      modifies this
      ensures isOpen
    {
      if isOpen {
        return;
      }
      isOpen := true;
    }

    /** process_message: nothing happens before the page is opened or for
        another channel's message. Otherwise the rendered lines are added
        one by one, or, when rendering fails, the error is raised before
        any line is added. */
    method ProcessMessage(msg: Message, clock: Text) returns (err: Option<Error>)
      requires prefixLen >= 0
      modifies auto.page
      ensures !isOpen || msg.channelId != channelId ==>
        err == None && unchanged(auto.page)
      ensures isOpen && msg.channelId == channelId ==>
        var out := Rendered(msg, clock, old(auto.page.windowDimensions.1), prefixLen, botUserId);
        && (out.Err? ==> err == Some(out.error) && unchanged(auto.page))
        && (out.Ok? ==>
          && err == None
          && auto.page.lines == old(auto.page.lines) + out.value
          && auto.page.outputHeight == old(auto.page.outputHeight)
          && auto.page.windowDimensions == old(auto.page.windowDimensions)
          && (|out.value| == 0 ==> auto.page.viewport == old(auto.page.viewport) && auto.page.head == old(auto.page.head))
          && (|out.value| > 0 ==> auto.page.Rewrapped())
          && (auto.updateScrollHead && |out.value| > 0 ==> auto.page.head == auto.Bottom())
          && (!auto.updateScrollHead ==> auto.page.head == old(auto.page.head)))
    {
      if !isOpen {
        return None;
      }
      if msg.channelId != channelId {
        return None;
      }
      var w := BodyWidth(auto.page.windowDimensions.1, prefixLen);
      if w <= 0 {
        return Some(ValueError);
      }
      var pieces := Wrap(msg.content, w);
      var out := PrefixPieces(pieces, clock, AuthorLabel(msg, botUserId), prefixLen, AuthorTags(msg, botUserId));
      if out.Err? {
        return Some(out.error);
      }
      auto.AddLines(out.value);
      return None;
    }
  }

  /** A page as the manager holds it. */
  datatype PageRef =
    | Scrollable(scrollable: ScrollablePage)
    | AutoScrolled(autoScrolled: AutoScrolledPage)
    | ChannelChat(chat: ChannelChatPage)

  /** PageManager (src/page.py:10-26): the pages, the channel pages by
      channel id, and the focused page. */
  class PageManager {
    var pages: seq<PageRef>
    var channelPages: map<int, ChannelChatPage>
    var focus: Option<PageRef>

    /** Every indexed channel page is a managed page of that channel. */
    ghost predicate Valid()
      reads this
    {
      forall id :: id in channelPages ==>
        channelPages[id].channelId == id && ChannelChat(channelPages[id]) in pages
    }

    constructor ()
      ensures Valid()
      ensures pages == [] && channelPages == map[] && focus == None
    {
      pages := [];
      channelPages := map[];
      focus := None;
    }

    /** set_focus. Tearing down the old page does nothing: no page type
        overrides the base teardown. */
    method SetFocus(page: PageRef, teardown: bool)
      modifies this
      ensures focus == Some(page)
      ensures pages == old(pages) && channelPages == old(channelPages)
    {
      focus := Some(page);
    }

    /** add_page: a channel page is also indexed by its channel id,
        replacing any earlier page of that channel. */
    method AddPage(page: PageRef)
      requires Valid()
      modifies this
      ensures Valid()
      ensures pages == old(pages) + [page] && focus == old(focus)
      ensures channelPages ==
        if page.ChannelChat? then old(channelPages)[page.chat.channelId := page.chat]
        else old(channelPages)
    {
      pages := pages + [page];
      if page.ChannelChat? {
        channelPages := channelPages[page.chat.channelId := page.chat];
      }
    }
  }
}
