/**
 * Fenced code blocks, as `re.findall` finds them with the DOTALL flag:
 *
 *  - "```(?:cpp|json)?\s*(.*?)```", the pattern of `extract_code_block` in optm_generation/optmgen.py and
 *    optm_generation_old/optmgen.py: an opening fence, an optional `cpp` or `json` tag, whitespace, then
 *    the shortest content up to the next fence;
 *  - "```cpp\s*(.*?)\s*```", the pattern of optm_generation_old/k4post.py: as above with a mandatory
 *    `cpp` tag, and the whitespace before the closing fence left out of the content.
 *
 * `findall` scans from the left; after a match it resumes behind the closing fence. The functions below
 * follow that scan directly: the first opening at or after the scan position, the first closing fence
 * after the content starts, and no further match once an opening has no closing fence.
 */
module CodeBlock {
  import opened Wrappers
  import opened Text

  const Fence: string := "```"
  const CppFence: string := "```cpp"

  /** Where `\s*` starting at `p` stops. */
  function SkipSpace(s: string, p: nat): (q: nat)
    requires p <= |s|
    ensures p <= q <= |s| && (q < |s| ==> !IsSpace(s[q]))
    ensures forall k :: p <= k < q ==> IsSpace(s[k])
    decreases |s| - p
  {
    if p < |s| && IsSpace(s[p]) then SkipSpace(s, p + 1) else p
  }

  /** Where `(?:cpp|json)?` after the opening fence at `i` stops. */
  function TagEnd(s: string, i: nat): (p: nat)
    requires At(s, i, Fence)
    ensures i + 3 <= p <= |s|
    ensures forall k :: i + 3 <= k < p ==> s[k] != '`'
  {
    var p := i + 3;
    if At(s, p, "cpp") then
      assert forall k :: p <= k < p + 3 ==> s[k] == "cpp"[k - p];
      p + 3
    else if At(s, p, "json") then
      assert forall k :: p <= k < p + 4 ==> s[k] == "json"[k - p];
      p + 4
    else p
  }

  /** Where the content of the block opened by the fence at `i` starts. */
  function ContentStart(s: string, i: nat): (q: nat)
    requires At(s, i, Fence)
    ensures i + 3 <= q <= |s|
    ensures forall k :: i + 3 <= k < q ==> !At(s, k, Fence)
  {
    var p := TagEnd(s, i);
    var q := SkipSpace(s, p);
    forall k | i + 3 <= k < q ensures !At(s, k, Fence) {
      if k >= p {
        assert IsSpace(s[k]);
      }
      NotAt(s, k, Fence);
    }
    q
  }

  /** `findall` of "```(?:cpp|json)?\s*(.*?)```" on `s`, scanning from `from`. */
  function FencedBlocks(s: string, from: nat): (r: seq<string>)
    ensures forall k :: 0 <= k < |r| ==> !Contains(r[k], Fence)
    decreases |s| - from
  {
    match Find(s, Fence, from)
    case None => []
    case Some(i) =>
      var q := ContentStart(s, i);
      match Find(s, Fence, q)
      case None => []
      case Some(c) =>
        NoneBefore(s, q, c, Fence);
        [s[q..c]] + FencedBlocks(s, c + 3)
  }

  /** Two fences at or after `from` that do not overlap: the least a match needs. */
  predicate HasFencedPair(s: string, from: nat) {
    exists i, j :: from <= i && i + 3 <= j <= |s| && At(s, i, Fence) && At(s, j, Fence)
  }

  /** A string cannot occur where its first character does not. */
  lemma NotAt(s: string, k: nat, pat: string)
    requires |pat| > 0 && k < |s| && s[k] != pat[0]
    ensures !At(s, k, pat)
  {
  }

  /** Text up to the first occurrence of `pat` at or after `q` does not contain `pat`. */
  lemma NoneBefore(s: string, q: nat, c: nat, pat: string)
    requires q <= c <= |s| && |pat| > 0
    requires forall j :: q <= j < c ==> !At(s, j, pat)
    ensures !Contains(s[q..c], pat)
  {
    if Contains(s[q..c], pat) {
      var j :| 0 <= j <= |s[q..c]| && At(s[q..c], j, pat);
      AtSlice(s, q, c, j, pat);
      assert false;
    }
  }

  /** There is a block exactly when there is a pair of non-overlapping fences. */
  lemma FencedBlocksExist(s: string, from: nat)
    ensures FencedBlocks(s, from) != [] <==> HasFencedPair(s, from)
  {
    match Find(s, Fence, from)
    case None =>
    case Some(i) =>
      var q := ContentStart(s, i);
      match Find(s, Fence, q)
      case None =>
        forall i0, j0 | from <= i0 && i0 + 3 <= j0 <= |s| && At(s, i0, Fence) ensures !At(s, j0, Fence) {
          assert i <= i0;
        }
      case Some(c) =>
        assert from <= i && i + 3 <= c && At(s, i, Fence) && At(s, c, Fence);
  }

  /** `extract_code_block`: the content of the last block, stripped, or the whole text stripped when there is none. */
  function ExtractCodeBlock(text: string): string {
    var blocks := FencedBlocks(text, 0);
    if blocks != [] then Strip(blocks[|blocks| - 1]) else Strip(text)
  }

  /** Without a pair of fences the text comes back stripped. */
  lemma ExtractWithoutFences(text: string)
    requires !HasFencedPair(text, 0)
    ensures ExtractCodeBlock(text) == Strip(text)
  {
    FencedBlocksExist(text, 0);
  }

  /** With a pair of fences the result is the last block's content, stripped, and holds no fence. */
  lemma ExtractWithFences(text: string)
    requires HasFencedPair(text, 0)
    ensures var blocks := FencedBlocks(text, 0);
      blocks != [] && ExtractCodeBlock(text) == Strip(blocks[|blocks| - 1])
      && !Contains(ExtractCodeBlock(text), Fence)
  {
    var blocks := FencedBlocks(text, 0);
    assert blocks != [] by { FencedBlocksExist(text, 0); }
    var last := blocks[|blocks| - 1];
    assert !Contains(Strip(last), Fence) by {
      assert !Contains(last, Fence);
      StripKeepsAbsence(last, Fence);
    }
    assert ExtractCodeBlock(text) == Strip(last);
  }

  /** Neither end of the result is whitespace. */
  lemma ExtractTight(text: string)
    ensures Tight(ExtractCodeBlock(text))
  {
    var blocks := FencedBlocks(text, 0);
    if blocks != [] {
      StripTight(blocks[|blocks| - 1]);
    } else {
      StripTight(text);
    }
  }

  /** A pair of fences in the stripped text is a pair of fences in the text. */
  lemma StripKeepsNoPair(text: string)
    requires !HasFencedPair(text, 0)
    ensures !HasFencedPair(Strip(text), 0)
  {
    StripShape(text);
    var a := StripStart(text);
    var r := Strip(text);
    if HasFencedPair(r, 0) {
      var i, j :| 0 <= i && i + 3 <= j && At(r, i, Fence) && At(r, j, Fence);
      AtSlice(text, a, a + |r|, i, Fence);
      AtSlice(text, a, a + |r|, j, Fence);
      assert false;
    }
  }

  /** `extract_code_block(extract_code_block(t)) == extract_code_block(t)`. */
  lemma ExtractIdempotent(text: string)
    ensures ExtractCodeBlock(ExtractCodeBlock(text)) == ExtractCodeBlock(text)
  {
    var r := ExtractCodeBlock(text);
    ExtractTight(text);
    if HasFencedPair(text, 0) {
      ExtractWithFences(text);
      assert forall i :: 0 <= i <= |r| ==> !At(r, i, Fence);
    } else {
      ExtractWithoutFences(text);
      StripKeepsNoPair(text);
    }
    ExtractWithoutFences(r);
    TightStrip(r);
  }

  /** Where the content of the block opened by the `cpp` fence at `i` starts: after the whitespace behind the tag. */
  function CppStart(s: string, i: nat): (q: nat)
    requires At(s, i, CppFence)
    ensures i + 6 <= q <= |s|
    ensures forall k :: i + 6 <= k < q ==> IsSpace(s[k])
  {
    SkipSpace(s, i + 6)
  }

  /** `findall` of "```cpp\s*(.*?)\s*```" on `s`, scanning from `from`. */
  function CppBlocks(s: string, from: nat): (r: seq<string>)
    ensures forall k :: 0 <= k < |r| ==> !Contains(r[k], Fence)
    decreases |s| - from
  {
    match Find(s, CppFence, from)
    case None => []
    case Some(i) =>
      var q := CppStart(s, i);
      match Find(s, Fence, q)
      case None => []
      case Some(c) =>
        NoneBefore(s, q, c, Fence);
        TrimEndKeepsAbsence(s[q..c], Fence);
        [TrimEnd(s[q..c])] + CppBlocks(s, c + 3)
  }

  /** An opening `cpp` fence at `i` and a fence behind it: the least a `cpp` match needs. */
  predicate HasCppPair(s: string, from: nat) {
    exists i, j :: from <= i && i + 6 <= j <= |s| && At(s, i, CppFence) && At(s, j, Fence)
  }

  /** A prefix of a string without `pat` is without `pat`. */
  lemma PrefixKeepsAbsence(x: string, n: nat, pat: string)
    requires n <= |x| && !Contains(x, pat)
    ensures !Contains(x[..n], pat)
  {
    if Contains(x[..n], pat) {
      var j :| 0 <= j <= n && At(x[..n], j, pat);
      assert x[..n] == x[0..n];
      AtSlice(x, 0, n, j, pat);
      assert false;
    }
  }

  lemma TrimEndKeepsAbsence(x: string, pat: string)
    requires !Contains(x, pat)
    ensures !Contains(TrimEnd(x), pat)
  {
    PrefixKeepsAbsence(x, |TrimEnd(x)|, pat);
  }

  /** There is a `cpp` block exactly when an opening `cpp` fence has a fence behind it. */
  lemma CppBlocksExist(s: string, from: nat)
    ensures CppBlocks(s, from) != [] <==> HasCppPair(s, from)
  {
    match Find(s, CppFence, from)
    case None =>
    case Some(i) =>
      var q := CppStart(s, i);
      assert At(s, i, Fence) by {
        assert s[i..i + 3] == s[i..i + 6][..3];
      }
      match Find(s, Fence, q)
      case None =>
        forall i0, j0 | from <= i0 && i0 + 6 <= j0 <= |s| && At(s, i0, CppFence) ensures !At(s, j0, Fence) {
          assert i <= i0;
          if j0 < q {
            assert IsSpace(s[j0]);
            NotAt(s, j0, Fence);
          }
        }
      case Some(c) =>
        assert from <= i && i + 6 <= c && At(s, i, CppFence) && At(s, c, Fence);
  }
}
