/** Inline markup (src/text.py): the seven paired wrappers, their removal
    for width calculations, the markup-aware Text value, left/right
    justification and the chat-line prefix. */
module Markup {
  import opened Errors

  /** The wrappers of get_formatting_patterns, in the order strip_wrappers
      applies them: bold before dim, then code, underline and three colours.
      Each is used as both the opening and the closing delimiter. */
  const Wrappers: seq<string> := ["**", "*", "`", "_", "<g>", "<r>", "<y>"]

  /** The characters a wrapper can start with. */
  predicate IsMarkerChar(c: char) {
    c == '*' || c == '`' || c == '_' || c == '<'
  }

  /** Text in which no wrapper can start. */
  predicate MarkupFree(s: string) {
    forall i :: 0 <= i < |s| ==> !IsMarkerChar(s[i])
  }

  lemma MarkupFreeAppend(a: string, b: string)
    requires MarkupFree(a) && MarkupFree(b)
    ensures MarkupFree(a + b)
  {
    assert forall i :: |a| <= i < |a + b| ==> (a + b)[i] == b[i - |a|];
  }

  predicate AllSpaces(s: string) {
    forall i :: 0 <= i < |s| ==> s[i] == ' '
  }

  /** The shape every wrapper has: it starts with a marker character and
      holds no space and no newline. */
  predicate IsDelimiter(d: string) {
    |d| > 0 && IsMarkerChar(d[0]) && forall i :: 0 <= i < |d| ==> d[i] != ' ' && d[i] != '\n'
  }

  predicate AllDelimiters(ds: seq<string>) {
    ds == [] || (IsDelimiter(ds[0]) && AllDelimiters(ds[1..]))
  }

  lemma WrappersAreDelimiters()
    ensures AllDelimiters(Wrappers)
  {
    assert Wrappers[1..][1..][1..][1..][1..][1..][1..] == [];
  }

  /** Python's `' ' * n`: empty for n <= 0. */
  function Spaces(n: int): (s: string)
    ensures |s| == if n <= 0 then 0 else n
    ensures AllSpaces(s) && MarkupFree(s)
  {
    if n <= 0 then "" else Spaces(n - 1) + " "
  }

  predicate HasAt(s: string, k: nat, d: string) {
    k + |d| <= |s| && s[k..k + |d|] == d
  }

  /** The lazy group `(.+?)` of a match whose opening delimiter ends just
      before `r`: the least m >= k at which the closing delimiter starts, as
      long as no newline (which `.` does not match) comes first. */
  function InnerLength(r: string, close: string, k: nat): (m: Option<nat>)
    requires k >= 1
    ensures m.Some? ==> k <= m.value && m.value + |close| <= |r| && HasAt(r, m.value, close)
    decreases |r| + 1 - k
  {
    if k > |r| then None
    else if r[k - 1] == '\n' then None
    else if HasAt(r, k, close) then Some(k)
    else InnerLength(r, close, k + 1)
  }

  /** The match is the shortest one: the closing delimiter does not occur
      earlier, and the group holds no newline. */
  lemma {:induction false} InnerLengthLeast(r: string, close: string, k: nat)
    requires k >= 1 && InnerLength(r, close, k).Some?
    ensures forall j :: k <= j < InnerLength(r, close, k).value ==> !HasAt(r, j, close)
    ensures forall j :: k - 1 <= j < InnerLength(r, close, k).value ==> r[j] != '\n'
    decreases |r| + 1 - k
  {
    if !HasAt(r, k, close) {
      InnerLengthLeast(r, close, k + 1);
    }
  }

  /** The match is found whenever there is one: a closing delimiter at `j`
      after a newline-free group ends the search at `j` or earlier. */
  lemma {:induction false} InnerLengthComplete(r: string, close: string, k: nat, j: nat)
    requires 1 <= k <= j && HasAt(r, j, close)
    requires forall i :: k - 1 <= i < j ==> r[i] != '\n'
    ensures InnerLength(r, close, k).Some? && InnerLength(r, close, k).value <= j
    decreases j - k
  {
    if !HasAt(r, k, close) {
      InnerLengthComplete(r, close, k + 1, j);
    }
  }

  /** The inner length of a match of `D(.+?)D` that starts at s[0], if any. */
  function MatchAt(s: string, d: string): (m: Option<nat>)
    requires |d| > 0
    ensures m.Some? ==> m.value >= 1 && |d| + m.value + |d| <= |s|
  {
    if HasAt(s, 0, d) then InnerLength(s[|d|..], d, 1) else None
  }

  /** One pass of `re.sub(D(.+?)D, r'\1', s)`: scanning left to right, every
      match is replaced by its inner text and scanning resumes after it. */
  function SubPair(s: string, d: string): (t: string)
    requires |d| > 0
    decreases |s|, 1
  {
    if |s| == 0 then "" else SubPairFrom(s, d, MatchAt(s, d))
  }

  /** The rest of a pass once it is known whether a match starts at s[0]. */
  function SubPairFrom(s: string, d: string, m: Option<nat>): (t: string)
    requires |d| > 0 && |s| > 0
    requires m.Some? ==> |d| + m.value + |d| <= |s|
    decreases |s|, 0
  {
    match m
    case Some(k) => s[|d|..|d| + k] + SubPair(s[|d| + k + |d|..], d)
    case None => [s[0]] + SubPair(s[1..], d)
  }

  lemma SubPairMatched(s: string, d: string, m: nat)
    requires |d| > 0 && MatchAt(s, d) == Some(m)
    ensures SubPair(s, d) == s[|d|..|d| + m] + SubPair(s[|d| + m + |d|..], d)
  {
    assert |s| != 0;
  }

  lemma SubPairUnmatched(s: string, d: string)
    requires |d| > 0 && |s| > 0 && MatchAt(s, d) == None
    ensures SubPair(s, d) == [s[0]] + SubPair(s[1..], d)
  {
  }

  /** The passes for `ds`, each applied once to the result of the previous
      (an empty pattern, which no wrapper is, is skipped). */
  function StripWith(s: string, ds: seq<string>): string
    decreases |ds|
  {
    if ds == [] then s
    else if ds[0] == "" then StripWith(s, ds[1..])
    else StripWith(SubPair(s, ds[0]), ds[1..])
  }

  /** strip_wrappers: the seven passes in their fixed order. */
  function StripWrappers(s: string): string {
    WrappersAreDelimiters();
    StripWith(s, Wrappers)
  }

  lemma {:induction false} SubPairShrinks(s: string, d: string)
    requires |d| > 0
    ensures |SubPair(s, d)| <= |s|
    decreases |s|
  {
    if |s| > 0 {
      match MatchAt(s, d)
      case Some(m) =>
        SubPairShrinks(s[|d| + m + |d|..], d);
        SubPairMatched(s, d, m);
      case None =>
        SubPairShrinks(s[1..], d);
        SubPairUnmatched(s, d);
    }
  }

  lemma {:induction false} StripWithShrinks(s: string, ds: seq<string>)
    requires AllDelimiters(ds)
    ensures |StripWith(s, ds)| <= |s|
    decreases |ds|
  {
    if ds != [] {
      SubPairShrinks(s, ds[0]);
      StripWithShrinks(SubPair(s, ds[0]), ds[1..]);
    }
  }

  /** Removing wrappers never makes a text longer. */
  lemma StripWrappersShrinks(s: string)
    ensures |StripWrappers(s)| <= |s|
  {
    WrappersAreDelimiters();
    StripWithShrinks(s, Wrappers);
  }

  /** A markup-free prefix passes through one pass untouched. */
  lemma {:induction false} SubPairPrefix(x: string, e: string, d: string)
    requires IsDelimiter(d) && MarkupFree(x)
    ensures SubPair(x + e, d) == x + SubPair(e, d)
    decreases |x|
  {
    if |x| > 0 {
      var s := x + e;
      assert s[0] == x[0];
      assert !HasAt(s, 0, d);
      assert s[1..] == x[1..] + e;
      SubPairPrefix(x[1..], e, d);
    } else {
      assert x + e == e;
    }
  }

  /** Appending spaces cannot complete a closing delimiter. */
  lemma HasAtSpaces(r: string, y: string, k: nat, d: string)
    requires IsDelimiter(d) && AllSpaces(y) && k <= |r|
    ensures HasAt(r + y, k, d) == HasAt(r, k, d)
  {
    if k + |d| > |r| && |y| > 0 {
      assert (r + y)[|r|] == ' ';
      assert d[|r| - k] != ' ';
    }
    if HasAt(r, k, d) {
      assert (r + y)[k..k + |d|] == r[k..k + |d|];
    }
  }

  lemma {:induction false} InnerLengthInSpaces(r: string, y: string, d: string, k: nat)
    requires IsDelimiter(d) && AllSpaces(y) && k > |r|
    ensures InnerLength(r + y, d, k) == None
    decreases |r + y| + 1 - k
  {
    var s := r + y;
    if k <= |s| {
      assert s[k - 1] == y[k - 1 - |r|];
      if k < |s| {
        assert s[k] == y[k - |r|];
      }
      InnerLengthInSpaces(r, y, d, k + 1);
    }
  }

  lemma {:induction false} InnerLengthSpaces(r: string, y: string, d: string, k: nat)
    requires IsDelimiter(d) && AllSpaces(y) && k >= 1
    ensures InnerLength(r + y, d, k) == InnerLength(r, d, k)
    decreases |r| + 1 - k
  {
    if k > |r| {
      InnerLengthInSpaces(r, y, d, k);
    } else {
      assert (r + y)[k - 1] == r[k - 1];
      HasAtSpaces(r, y, k, d);
      if r[k - 1] != '\n' && !HasAt(r, k, d) {
        InnerLengthSpaces(r, y, d, k + 1);
      }
    }
  }

  /** Trailing spaces do not change whether a match starts at s[0], nor
      its length. */
  lemma MatchAtSpaces(e: string, y: string, d: string)
    requires IsDelimiter(d) && AllSpaces(y) && |e| > 0
    ensures MatchAt(e + y, d) == MatchAt(e, d)
  {
    HasAtSpaces(e, y, 0, d);
    if HasAt(e, 0, d) {
      assert (e + y)[|d|..] == e[|d|..] + y;
      InnerLengthSpaces(e[|d|..], y, d, 1);
    }
  }

  /** Trailing spaces pass through one pass untouched. */
  lemma {:induction false} SubPairSuffix(e: string, y: string, d: string)
    requires IsDelimiter(d) && AllSpaces(y)
    ensures SubPair(e + y, d) == SubPair(e, d) + y
    decreases |e|
  {
    if |e| == 0 {
      assert e + y == y;
      SubPairIdentity(y, d);
    } else {
      MatchAtSpaces(e, y, d);
      match MatchAt(e, d)
      case Some(m) =>
        var head, tail := e[|d|..|d| + m], e[|d| + m + |d|..];
        SubPairSuffix(tail, y, d);
        SubPairMatchedBeforeSpaces(e, y, d, m);
        SubPairMatched(e, d, m);
        SharedHead(SubPair(e + y, d), SubPair(e, d), head, SubPair(tail + y, d), SubPair(tail, d), y);
      case None =>
        SubPairSuffix(e[1..], y, d);
        SubPairUnmatchedBeforeSpaces(e, y, d);
        SubPairUnmatched(e, d);
        SharedHead(SubPair(e + y, d), SubPair(e, d), [e[0]], SubPair(e[1..] + y, d), SubPair(e[1..], d), y);
    }
  }

  lemma SubPairMatchedBeforeSpaces(e: string, y: string, d: string, m: nat)
    requires |d| > 0 && MatchAt(e + y, d) == Some(m) && |d| + m + |d| <= |e|
    ensures SubPair(e + y, d) == e[|d|..|d| + m] + SubPair(e[|d| + m + |d|..] + y, d)
  {
    SubPairMatched(e + y, d, m);
    assert (e + y)[|d|..|d| + m] == e[|d|..|d| + m];
    assert (e + y)[|d| + m + |d|..] == e[|d| + m + |d|..] + y;
  }

  lemma SubPairUnmatchedBeforeSpaces(e: string, y: string, d: string)
    requires |d| > 0 && |e| > 0 && MatchAt(e + y, d) == None
    ensures SubPair(e + y, d) == [e[0]] + SubPair(e[1..] + y, d)
  {
    SubPairUnmatched(e + y, d);
    assert (e + y)[0] == e[0];
    assert (e + y)[1..] == e[1..] + y;
  }

  /** Two texts with the same head, whose tails differ by a suffix, differ
      by that suffix. */
  lemma SharedHead(a: string, b: string, head: string, ta: string, tb: string, y: string)
    requires a == head + ta && b == head + tb && ta == tb + y
    ensures a == b + y
  {
  }

  lemma SubPairIdentity(s: string, d: string)
    requires IsDelimiter(d) && MarkupFree(s)
    ensures SubPair(s, d) == s
  {
    SubPairPrefix(s, "", d);
    assert s + "" == s;
  }

  /** No delimiter starts inside plain text. */
  lemma NoDelimiterInPlain(x: string, d: string, e: string)
    requires IsDelimiter(d) && MarkupFree(x)
    ensures forall m :: 0 <= m < |x| ==> !HasAt(x + e, m, d)
  {
    forall m | 0 <= m < |x|
      ensures !HasAt(x + e, m, d)
    {
      assert (x + e)[m] == x[m];
    }
  }

  /** A wrapped run of plain text is a match of exactly its length. */
  lemma MatchAtWrapped(d: string, x: string, e: string)
    requires IsDelimiter(d) && |x| > 0 && MarkupFree(x)
    requires forall i :: 0 <= i < |x| ==> x[i] != '\n'
    ensures MatchAt(d + x + d + e, d) == Some(|x|)
  {
    var s := d + x + d + e;
    var r := x + (d + e);
    assert s[..|d|] == d;
    assert s[|d|..] == r;
    assert r[|x|..|x| + |d|] == d;
    forall i | 0 <= i < |x|
      ensures r[i] != '\n'
    {
      assert r[i] == x[i];
    }
    InnerLengthComplete(r, d, 1, |x|);
    NoDelimiterInPlain(x, d, d + e);
  }

  /** A wrapped run of plain text is replaced by the text, and the pass
      goes on after the closing delimiter. */
  lemma SubPairRemoves(d: string, x: string, e: string)
    requires IsDelimiter(d) && |x| > 0 && MarkupFree(x)
    requires forall i :: 0 <= i < |x| ==> x[i] != '\n'
    ensures SubPair(d + x + d + e, d) == x + SubPair(e, d)
  {
    var s := d + x + d + e;
    MatchAtWrapped(d, x, e);
    SubPairMatched(s, d, |x|);
    assert s[|d|..|d| + |x|] == x;
    assert s[|d| + |x| + |d|..] == e;
  }

  lemma {:induction false} StripWithPrefix(x: string, e: string, ds: seq<string>)
    requires AllDelimiters(ds)
    requires MarkupFree(x)
    ensures StripWith(x + e, ds) == x + StripWith(e, ds)
    decreases |ds|
  {
    if ds != [] {
      SubPairPrefix(x, e, ds[0]);
      StripWithPrefix(x, SubPair(e, ds[0]), ds[1..]);
    }
  }

  lemma {:induction false} StripWithSuffix(e: string, y: string, ds: seq<string>)
    requires AllDelimiters(ds)
    requires AllSpaces(y)
    ensures StripWith(e + y, ds) == StripWith(e, ds) + y
    decreases |ds|
  {
    if ds != [] {
      SubPairSuffix(e, y, ds[0]);
      StripWithSuffix(SubPair(e, ds[0]), y, ds[1..]);
    }
  }

  /** Text with no marker character comes back unchanged. */
  lemma StripWrappersMarkupFree(s: string)
    ensures MarkupFree(s) ==> StripWrappers(s) == s
  {
    if MarkupFree(s) {
      WrappersAreDelimiters();
      StripWithPrefix(s, "", Wrappers);
      assert s + "" == s;
      assert StripWith("", Wrappers) == "" by { StripWithShrinks("", Wrappers); }
    }
  }

  /** Markup-free text in front of a line is kept verbatim, and the rest is
      stripped as if it stood alone. */
  lemma StripWrappersPrefix(x: string, e: string)
    requires MarkupFree(x)
    ensures StripWrappers(x + e) == x + StripWrappers(e)
  {
    WrappersAreDelimiters();
    StripWithPrefix(x, e, Wrappers);
  }

  /** Trailing spaces are kept verbatim and cannot close a wrapper. */
  lemma StripWrappersSuffix(e: string, b: int)
    ensures StripWrappers(e + Spaces(b)) == StripWrappers(e) + Spaces(b)
  {
    WrappersAreDelimiters();
    StripWithSuffix(e, Spaces(b), Wrappers);
  }

  /** Padding a fragment with spaces on both sides adds exactly that many
      columns to its display width. */
  lemma StripWrappersPadded(a: int, e: string, b: int)
    ensures StripWrappers(Spaces(a) + e + Spaces(b)) == Spaces(a) + StripWrappers(e) + Spaces(b)
  {
    var x, y := Spaces(a), Spaces(b);
    StripWrappersPrefix(x, e + y);
    StripWrappersSuffix(e, b);
    AppendAssoc(x, e, y);
    AppendAssoc(x, StripWrappers(e), y);
  }

  /** Bold plain text in front of a line is shown as the text alone, and
      the rest is stripped as if it stood alone. */
  lemma StripWrappersBoldThen(x: string, e: string)
    requires |x| > 0 && MarkupFree(x)
    requires forall i :: 0 <= i < |x| ==> x[i] != '\n'
    ensures StripWrappers("**" + x + "**" + e) == x + StripWrappers(e)
  {
    WrappersAreDelimiters();
    var rest := Wrappers[1..];
    assert Wrappers[0] == "**" && AllDelimiters(rest);
    SubPairRemoves("**", x, e);
    StripWithPrefix(x, SubPair(e, "**"), rest);
  }

  /** Bold plain text is shown as the text alone. */
  lemma StripWrappersBold(x: string)
    requires |x| > 0 && MarkupFree(x)
    requires forall i :: 0 <= i < |x| ==> x[i] != '\n'
    ensures StripWrappers("**" + x + "**") == x
  {
    StripWrappersBoldThen(x, "");
    assert "**" + x + "**" + "" == "**" + x + "**";
    StripWrappersMarkupFree("");
    assert x + "" == x;
  }

  lemma AppendAssoc(x: string, e: string, y: string)
    ensures x + e + y == x + (e + y)
  {
  }

  /** Text (src/text.py:79-103): a string carrying markup, with its raw and
      its display (markup-stripped) size. */
  datatype Text = Text(raw: string) {

    function RawSize(): nat {
      |raw|
    }

    /** `clean`: the text with the wrappers removed. */
    function Clean(): (c: Text)
      ensures |c.raw| <= |raw|
      ensures MarkupFree(raw) ==> c == this
    {
      StripWrappersShrinks(raw);
      StripWrappersMarkupFree(raw);
      Text(StripWrappers(raw))
    }

    /** `size`: the display width, never more than the raw size, and equal
        to it when there is no markup. */
    function Size(): (n: nat)
      ensures n <= RawSize()
      ensures MarkupFree(raw) ==> n == RawSize()
    {
      |Clean().raw|
    }

    /** `__add__`: the plain concatenation of the two raw strings. */
    function Add(other: string): (t: Text)
      ensures t.RawSize() == RawSize() + |other|
      ensures t.raw[..|raw|] == raw && t.raw[|raw|..] == other
    {
      Text(raw + other)
    }
  }

  /** lr_justified (src/text.py:7-12): `left`, then spaces, then `right`,
      spanning `n` display columns; ValueError when the two do not fit. */
  function LrJustified(left: Text, right: Text, n: int): (r: Result<Text>)
    ensures r.Err? <==> left.Size() + right.Size() > n
    ensures r.Err? ==> r.error == ValueError
    ensures r.Ok? ==> r.value.raw == left.raw + Spaces(n - left.Size() - right.Size()) + right.raw
  {
    if left.Size() + right.Size() > n then Err(ValueError)
    else
      var middle := Spaces(n - left.Size() - right.Size());
      var r := left.Add(middle).Add(right.raw);
      assert r.raw == left.raw + middle + right.raw;
      Ok(r)
  }

  /** With a markup-free left part (a clock time), the justified text spans
      exactly `n` display columns, whatever markup the right part holds. */
  lemma LrJustifiedDisplayWidth(left: Text, right: Text, n: int)
    requires MarkupFree(left.raw)
    requires LrJustified(left, right, n).Ok?
    ensures LrJustified(left, right, n).value.Size() == n
  {
    var pad := n - left.Size() - right.Size();
    var r := LrJustified(left, right, n).value;
    assert r.raw == (left.raw + Spaces(pad)) + right.raw;
    StripWrappersPrefix(left.raw + Spaces(pad), right.raw);
  }

  /** With no markup at all, the raw length is exactly `n`. */
  lemma LrJustifiedRawWidth(left: Text, right: Text, n: int)
    requires MarkupFree(left.raw) && MarkupFree(right.raw)
    requires LrJustified(left, right, n).Ok?
    ensures LrJustified(left, right, n).value.RawSize() == n
  {
  }

  function Concat(ts: seq<string>): string {
    if ts == [] then "" else ts[0] + Concat(ts[1..])
  }

  function Reverse<T>(ts: seq<T>): (r: seq<T>)
    ensures |r| == |ts|
  {
    if ts == [] then [] else Reverse(ts[1..]) + [ts[0]]
  }

  /** The formatting tags opened in order before the body and closed in
      reverse order after it. */
  function Enclose(tags: seq<string>, body: string): string {
    Concat(tags) + body + Concat(Reverse(tags))
  }

  lemma {:induction false} ConcatAppend(a: seq<string>, b: seq<string>)
    ensures Concat(a + b) == Concat(a) + Concat(b)
    decreases |a|
  {
    if a == [] {
      assert a + b == b;
    } else {
      assert (a + b)[1..] == a[1..] + b;
      ConcatAppend(a[1..], b);
    }
  }

  /** The tags nest: the first tag is the outermost pair. */
  lemma EncloseNests(t: string, tags: seq<string>, body: string)
    ensures Enclose([t] + tags, body) == t + Enclose(tags, body) + t
  {
    var ts := [t] + tags;
    assert ts[0] == t && ts[1..] == tags;
    var c, r := Concat(tags), Concat(Reverse(tags));
    assert Concat(ts) == t + c;
    assert Reverse(ts) == Reverse(tags) + [t];
    ConcatAppend(Reverse(tags), [t]);
    assert Concat([t]) == t + Concat([]);
    assert Concat(Reverse(ts)) == r + t;
    Regroup(t, c, body, r);
  }

  lemma Regroup(t: string, c: string, body: string, r: string)
    ensures (t + c) + body + (r + t) == t + (c + body + r) + t
  {
  }

  /** with_prefix (src/text.py:14-27): the `created_at`/author prefix
      justified to `lenMax - 3` columns (spaces of the same display width on
      continuation lines), the " | " separator, and the body enclosed in the
      formatting tags. */
  function WithPrefix(content: Text, createdAt: Text, author: Text, lenMax: int,
                      isFirstLine: bool, tags: seq<string>): (r: Result<Text>)
    ensures r.Err? <==> LrJustified(createdAt, author, lenMax - 3).Err?
    ensures r.Err? ==> r.error == ValueError
    ensures r.Ok? ==>
      var justified := LrJustified(createdAt, author, lenMax - 3).value;
      var prefix := if isFirstLine then justified.raw else Spaces(justified.Size());
      r.value.raw == prefix + " | " + Enclose(tags, content.raw)
  {
    match LrJustified(createdAt, author, lenMax - 3)
    case Err(e) => Err(e)
    case Ok(justified) =>
      var prefix := if isFirstLine then justified.raw else Spaces(|justified.Clean().raw|);
      Ok(Text(prefix + " | " + Enclose(tags, content.raw)))
  }

  /** Continuation lines line up under the body: with a markup-free clock
      text, the first line's prefix spans `lenMax - 3` display columns and
      the other lines carry exactly that many spaces in its place. */
  lemma WithPrefixAligned(content: Text, createdAt: Text, author: Text, lenMax: int,
                          tags: seq<string>)
    requires MarkupFree(createdAt.raw)
    requires LrJustified(createdAt, author, lenMax - 3).Ok?
    ensures var justified := LrJustified(createdAt, author, lenMax - 3).value;
            && justified.Size() == lenMax - 3
            && WithPrefix(content, createdAt, author, lenMax, true, tags)
               == Ok(Text(justified.raw + " | " + Enclose(tags, content.raw)))
            && WithPrefix(content, createdAt, author, lenMax, false, tags)
               == Ok(Text(Spaces(lenMax - 3) + " | " + Enclose(tags, content.raw)))
  {
    LrJustifiedDisplayWidth(createdAt, author, lenMax - 3);
  }

  lemma LeadMarkupFree(n: int)
    ensures MarkupFree(Spaces(n) + " | ")
  {
    var lead := Spaces(n) + " | ";
    assert forall i :: 0 <= i < |lead| ==> lead[i] == ' ' || lead[i] == '|';
  }

  lemma ContinuationLineRaw(content: Text, createdAt: Text, author: Text, lenMax: int, tags: seq<string>)
    requires MarkupFree(createdAt.raw)
    requires WithPrefix(content, createdAt, author, lenMax, false, tags).Ok?
    ensures lenMax - 3 >= 0
    ensures WithPrefix(content, createdAt, author, lenMax, false, tags).value.raw
            == Spaces(lenMax - 3) + " | " + Enclose(tags, content.raw)
  {
    WithPrefixAligned(content, createdAt, author, lenMax, tags);
  }

  /** The display width of a continuation line is the prefix width, the
      three separator columns and the display width of the enclosed body. */
  lemma ContinuationLineWidth(content: Text, createdAt: Text, author: Text, lenMax: int,
                              tags: seq<string>)
    requires MarkupFree(createdAt.raw)
    requires WithPrefix(content, createdAt, author, lenMax, false, tags).Ok?
    ensures WithPrefix(content, createdAt, author, lenMax, false, tags).value.Size()
            == lenMax - 3 + 3 + |StripWrappers(Enclose(tags, content.raw))|
  {
    ContinuationLineRaw(content, createdAt, author, lenMax, tags);
    LeadMarkupFree(lenMax - 3);
    StripWrappersPrefix(Spaces(lenMax - 3) + " | ", Enclose(tags, content.raw));
  }
}
