/** The helpers of src/utils.py. The clock and date formatting there depend
    on the local time zone and are not part of this model. */
module TextUtils {
  import opened Errors
  import opened Markup

  /** lr_justified (src/utils.py:11-16), the Text-returning copy of the one
      in src/text.py: ValueError when the two parts are wider than `n`,
      otherwise `left`, a non-negative run of spaces, and `right`. */
  function LrJustified(left: Text, right: Text, n: int): (r: Result<Text>)
    ensures r.Err? <==> left.Size() + right.Size() > n
    ensures r.Err? ==> r.error == ValueError
    ensures r.Ok? ==>
      && |r.value.raw| >= |left.raw| + |right.raw|
      && r.value.raw[..|left.raw|] == left.raw
      && r.value.raw[|r.value.raw| - |right.raw|..] == right.raw
      && r.value.raw[|left.raw|..|r.value.raw| - |right.raw|] == Spaces(n - left.Size() - right.Size())
  {
    if left.Size() + right.Size() > n then Err(ValueError)
    else
      var middle := Spaces(n - left.Size() - right.Size());
      var joined := left.raw + middle + right.raw;
      assert joined[..|left.raw|] == left.raw;
      assert joined[|left.raw|..|joined| - |right.raw|] == middle;
      assert joined[|joined| - |right.raw|..] == right.raw;
      Ok(Text(joined))
  }

  /** Both copies of lr_justified compute the same thing. */
  lemma SameAsMarkup(left: Text, right: Text, n: int)
    ensures LrJustified(left, right, n) == Markup.LrJustified(left, right, n)
  {
    var r := LrJustified(left, right, n);
    if r.Ok? {
      var s := r.value.raw;
      assert s == s[..|left.raw|] + s[|left.raw|..|s| - |right.raw|] + s[|s| - |right.raw|..];
    }
  }

  /** With no markup in either part, the result is exactly `n` characters. */
  lemma RawWidth(left: Text, right: Text, n: int)
    requires MarkupFree(left.raw) && MarkupFree(right.raw)
    requires LrJustified(left, right, n).Ok?
    ensures |LrJustified(left, right, n).value.raw| == n
  {
    var r := LrJustified(left, right, n).value.raw;
    assert r == r[..|left.raw|] + r[|left.raw|..|r| - |right.raw|] + r[|r| - |right.raw|..];
  }
}
