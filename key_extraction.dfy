/**
 * The key scan of `refreshApiKey`: the regular expression
 * `/"INNERTUBE_API_KEY":"(.*?)",/im` applied once to the page text and its
 * first capture group read out.
 *
 * Regular-expression semantics modelled here (ECMAScript, no `u` flag):
 *  - the engine tries start positions left to right and reports the first one
 *    at which the whole pattern matches;
 *  - with `i`, two characters match when their canonical upper-case forms agree;
 *    without `u` a non-ASCII character never canonicalises to an ASCII one, and
 *    every letter of the literal is ASCII, so the comparison is an ASCII case fold;
 *  - `.` matches every character except the line terminators LF, CR, U+2028 and
 *    U+2029 (`m` only changes `^` and `$`, which the pattern does not use);
 *  - the lazy `(.*?)` tries the shortest capture first, so the capture ends at
 *    the first `",` after the literal, provided no line terminator comes before it.
 */
module KeyExtraction {
  import opened Wrappers

  /** The literal that precedes the key on the page. */
  const KeyPrefix: string := "\"INNERTUBE_API_KEY\":\""
  /** The literal that closes the key. */
  const KeySuffix: string := "\","

  /** The characters that `.` refuses to match. */
  predicate IsLineTerminator(c: char) {
    c == '\n' || c == '\r' || c == '\U{2028}' || c == '\U{2029}'
  }

  function UpperAscii(c: char): char {
    if 'a' <= c <= 'z' then (c as int - 32) as char else c
  }

  /** Character comparison under the `i` flag. */
  predicate SameIgnoringCase(c: char, d: char) {
    UpperAscii(c) == UpperAscii(d)
  }

  /** The literal `"INNERTUBE_API_KEY":"` occurs at position `i` of `s`, up to case. */
  predicate PrefixAt(s: string, i: nat) {
    i + |KeyPrefix| <= |s| &&
    forall k :: 0 <= k < |KeyPrefix| ==> SameIgnoringCase(s[i + k], KeyPrefix[k])
  }

  /** The closing `",` occurs at position `j` of `s`. */
  predicate SuffixAt(s: string, j: nat) {
    j + |KeySuffix| <= |s| && s[j] == KeySuffix[0] && s[j + 1] == KeySuffix[1]
  }

  /**
   * With the literal found at `i`, the capture may end at `j`: `",` follows and
   * `.` accepts every character between the literal and `j`.
   */
  predicate CaptureEnd(s: string, i: nat, j: nat) {
    i + |KeyPrefix| <= j && SuffixAt(s, j) &&
    forall k :: i + |KeyPrefix| <= k < j ==> !IsLineTerminator(s[k])
  }

  /** The whole pattern matches when the engine starts at position `i`. */
  ghost predicate MatchAt(s: string, i: nat) {
    PrefixAt(s, i) && exists j: nat :: CaptureEnd(s, i, j)
  }

  /** `(i, j)` is the match the engine reports: the leftmost start, then the shortest capture. */
  ghost predicate IsFirstMatch(s: string, i: nat, j: nat) {
    PrefixAt(s, i) && CaptureEnd(s, i, j) &&
    (forall i': nat :: i' < i ==> !MatchAt(s, i')) &&
    (forall j': nat :: j' < j ==> !CaptureEnd(s, i, j'))
  }

  /** The lazy `(.*?)",` for the literal at `i`, having already extended the capture up to `j`. */
  function ScanCapture(s: string, i: nat, j: nat): (r: Option<nat>)
    requires i + |KeyPrefix| <= j <= |s|
    requires forall k :: i + |KeyPrefix| <= k < j ==> !IsLineTerminator(s[k]) && !SuffixAt(s, k)
    ensures r.Some? ==> CaptureEnd(s, i, r.value)
    ensures r.Some? ==> forall k: nat :: k < r.value ==> !CaptureEnd(s, i, k)
    ensures r.None? ==> forall k: nat :: !CaptureEnd(s, i, k)
    decreases |s| - j
  {
    if j + |KeySuffix| > |s| then None
    else if SuffixAt(s, j) then Some(j)
    else if IsLineTerminator(s[j]) then None
    else ScanCapture(s, i, j + 1)
  }

  /** The engine's search over start positions, from `i` on. */
  function FindMatch(s: string, i: nat): (r: Option<(nat, nat)>)
    requires forall i': nat :: i' < i ==> !MatchAt(s, i')
    ensures r.Some? ==> IsFirstMatch(s, r.value.0, r.value.1)
    ensures r.None? ==> forall i': nat :: !MatchAt(s, i')
    decreases |s| - i
  {
    if i + |KeyPrefix| > |s| then None
    else if PrefixAt(s, i) then
      match ScanCapture(s, i, i + |KeyPrefix|)
      case Some(j) => Some((i, j))
      case None => FindMatch(s, i + 1)
    else FindMatch(s, i + 1)
  }

  /** The engine reports at most one match. */
  lemma FirstMatchUnique(s: string, i: nat, j: nat, i2: nat, j2: nat)
    requires IsFirstMatch(s, i, j) && IsFirstMatch(s, i2, j2)
    ensures i == i2 && j == j2
  {
    assert MatchAt(s, i);
    assert MatchAt(s, i2);
  }

  /**
   * `page.match(/"INNERTUBE_API_KEY":"(.*?)",/im)` followed by `[1]`: the first
   * capture group, or None where `match` returns null.
   */
  function ExtractKey(page: string): (key: Option<string>)
    ensures key.None? <==> forall i: nat :: !MatchAt(page, i)
    ensures forall i: nat, j: nat :: IsFirstMatch(page, i, j) ==> key == Some(page[i + |KeyPrefix|..j])
    ensures key.Some? ==> exists i: nat, j: nat :: IsFirstMatch(page, i, j) && key.value == page[i + |KeyPrefix|..j]
    ensures key.Some? ==> forall k :: 0 <= k < |key.value| ==> !IsLineTerminator(key.value[k])
    ensures key.Some? ==> forall k :: 0 <= k < |key.value| ==> !SuffixAt(key.value, k)
  {
    match FindMatch(page, 0)
    case None =>
      assert forall i: nat, j: nat :: !IsFirstMatch(page, i, j) by {
        forall i: nat, j: nat | IsFirstMatch(page, i, j) ensures false {
          assert MatchAt(page, i);
        }
      }
      None
    case Some((i, j)) =>
      var from := i + |KeyPrefix|;
      var key := page[from..j];
      assert MatchAt(page, i);
      assert forall k :: 0 <= k < |key| ==> !SuffixAt(key, k) by {
        forall k | 0 <= k < |key| ensures !SuffixAt(key, k) {
          assert !CaptureEnd(page, i, from + k);
        }
      }
      assert forall i2: nat, j2: nat :: IsFirstMatch(page, i2, j2) ==> i2 == i && j2 == j by {
        forall i2: nat, j2: nat | IsFirstMatch(page, i2, j2) ensures i2 == i && j2 == j {
          FirstMatchUnique(page, i, j, i2, j2);
        }
      }
      Some(key)
  }

  /**
   * Text in which no match starts, then any case variant of the literal, then a
   * key that `.` accepts and that holds no `",`, then `",`: the key comes back
   * exactly, whatever follows.
   */
  lemma ExtractEmbedded(pre: string, marker: string, key: string, rest: string)
    requires |marker| == |KeyPrefix|
    requires forall k :: 0 <= k < |KeyPrefix| ==> SameIgnoringCase(marker[k], KeyPrefix[k])
    requires forall k :: 0 <= k < |key| ==> !IsLineTerminator(key[k])
    requires forall k :: 0 <= k < |key| ==> !SuffixAt(key, k)
    requires forall i: nat :: i < |pre| ==> !MatchAt(pre + marker + key + KeySuffix + rest, i)
    ensures ExtractKey(pre + marker + key + KeySuffix + rest) == Some(key)
  {
    var s := pre + marker + key + KeySuffix + rest;
    var start := |pre|;
    var from := start + |KeyPrefix|;
    var end := from + |key|;
    assert PrefixAt(s, start) by {
      forall k | 0 <= k < |KeyPrefix| ensures SameIgnoringCase(s[start + k], KeyPrefix[k]) {
        assert s[start + k] == marker[k];
      }
    }
    assert s[end] == '"' && s[end + 1] == ',';
    forall k | from <= k < end ensures s[k] == key[k - from] {}
    assert CaptureEnd(s, start, end);
    forall j': nat | from <= j' < end ensures !SuffixAt(s, j') {
      if j' + 1 < end {
        assert !SuffixAt(key, j' - from);
        assert s[j'] == key[j' - from] && s[j' + 1] == key[j' - from + 1];
      } else {
        assert s[j' + 1] == '"';
      }
    }
    assert IsFirstMatch(s, start, end);
    assert s[from..end] == key;
  }
}
