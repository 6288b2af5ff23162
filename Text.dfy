/**
 * The parts of Python's `str` and `re` behaviour that the chat engines rely on:
 * `str.lower`, `str.strip`, the classes `\s` and `\w`, `needle in text`, and
 * `text.split("|", 1)`.
 *
 * Unicode is covered for the scripts the bots talk in: `\w` knows the letters
 * and digits of ASCII, Latin-1 and the Cyrillic block U+0400-U+052F;
 * lower-casing knows ASCII, Latin-1 and the basic Cyrillic capitals
 * U+0400-U+042F; `\s` is Python's full set of whitespace characters.
 */
module Text {

  // ---------------------------------------------------------------------------
  // Character classes
  // ---------------------------------------------------------------------------

  /** `c.isspace()`, which is also what `\s` matches in a `str` pattern. */
  predicate IsSpace(c: char) {
    c == ' ' || ('\t' <= c <= '\r') || ('\U{1c}' <= c <= '\U{1f}')
    || c == '\U{85}' || c == '\U{a0}' || c == '\U{1680}'
    || ('\U{2000}' <= c <= '\U{200a}') || c == '\U{2028}' || c == '\U{2029}'
    || c == '\U{202f}' || c == '\U{205f}' || c == '\U{3000}'
  }

  /** `\w`: letters and digits of ASCII, Latin-1 and Cyrillic, and the underscore. */
  predicate IsWordChar(c: char) {
    ('a' <= c <= 'z') || ('A' <= c <= 'Z') || ('0' <= c <= '9') || c == '_'
    || c == '\U{aa}' || c == '\U{b2}' || c == '\U{b3}' || c == '\U{b5}'
    || c == '\U{b9}' || c == '\U{ba}' || ('\U{bc}' <= c <= '\U{be}')
    || ('\U{c0}' <= c <= '\U{ff}' && c != '\U{d7}' && c != '\U{f7}')
    || ('\U{400}' <= c <= '\U{481}') || ('\U{48a}' <= c <= '\U{52f}')
  }

  /** The lower-case form of one character, as `str.lower` maps it. */
  function LowerChar(c: char): (l: char)
    ensures IsSpace(l) == IsSpace(c)
  {
    if 'A' <= c <= 'Z' then (c as int + 32) as char
    else if '\U{c0}' <= c <= '\U{de}' && c != '\U{d7}' then (c as int + 32) as char
    else if '\U{410}' <= c <= '\U{42f}' then (c as int + 32) as char
    else if '\U{400}' <= c <= '\U{40f}' then (c as int + 80) as char
    else c
  }

  /** A character that lower-casing leaves alone. */
  predicate IsLowerChar(c: char) {
    LowerChar(c) == c
  }

  lemma LowerCharIsLower(c: char)
    ensures IsLowerChar(LowerChar(c))
  {
  }

  /** `s.lower()`. */
  function Lower(s: string): (r: string)
    ensures |r| == |s|
    ensures forall i :: 0 <= i < |s| ==> r[i] == LowerChar(s[i])
  {
    seq(|s|, i requires 0 <= i < |s| => LowerChar(s[i]))
  }

  /** Every character of `s` is already lower case. */
  predicate IsLower(s: string) {
    forall i :: 0 <= i < |s| ==> IsLowerChar(s[i])
  }

  /** Lower-casing gives lower-case text and keeps whether each end is whitespace. */
  lemma LowerShape(s: string)
    ensures IsLower(Lower(s))
    ensures s != [] ==> IsSpace(Lower(s)[0]) == IsSpace(s[0]) && IsSpace(Lower(s)[|s| - 1]) == IsSpace(s[|s| - 1])
  {
    forall i | 0 <= i < |s| ensures IsLowerChar(Lower(s)[i]) {
      LowerCharIsLower(s[i]);
    }
  }

  // ---------------------------------------------------------------------------
  // Whitespace: strip and the `\s+` -> " " rewrite
  // ---------------------------------------------------------------------------

  /** Every character of `s` is whitespace. */
  predicate SpaceOnly(s: string) {
    forall i :: 0 <= i < |s| ==> IsSpace(s[i])
  }

  /** `s.lstrip()`: a tail of `s` that starts with no whitespace (see `TrimStartDropsSpace`
      for what is dropped). */
  function TrimStart(s: string): (r: string)
    ensures |r| <= |s| && r == s[|s| - |r|..]
    ensures r != [] ==> !IsSpace(r[0])
    decreases |s|
  {
    if |s| > 0 && IsSpace(s[0]) then TrimStart(s[1..]) else s
  }

  /** What `lstrip` drops is all whitespace. */
  lemma {:induction false} TrimStartDropsSpace(s: string)
    ensures SpaceOnly(s[..|s| - |TrimStart(s)|])
    decreases |s|
  {
    if |s| > 0 && IsSpace(s[0]) {
      TrimStartDropsSpace(s[1..]);
      var k := |s| - |TrimStart(s)|;
      assert s[..k] == [s[0]] + s[1..][..k - 1];
    }
  }

  /** `s.rstrip()`: a head of `s` that ends with no whitespace (see `TrimEndDropsSpace` for
      what is dropped). */
  function TrimEnd(s: string): (r: string)
    ensures |r| <= |s| && r == s[..|r|]
    ensures r != [] ==> !IsSpace(r[|r| - 1])
    decreases |s|
  {
    if |s| > 0 && IsSpace(s[|s| - 1]) then TrimEnd(s[..|s| - 1]) else s
  }

  /** What `rstrip` drops is all whitespace. */
  lemma {:induction false} TrimEndDropsSpace(s: string)
    ensures SpaceOnly(s[|TrimEnd(s)|..])
    decreases |s|
  {
    if |s| > 0 && IsSpace(s[|s| - 1]) {
      TrimEndDropsSpace(s[..|s| - 1]);
      var k := |TrimEnd(s)|;
      assert s[k..] == s[..|s| - 1][k..] + [s[|s| - 1]];
    }
  }

  /** `s` is whitespace up to position `k`, then the text `r`, then whitespace to its end. */
  predicate PaddedAt(s: string, r: string, k: int) {
    && 0 <= k <= |s| - |r|
    && SpaceOnly(s[..k])
    && s[k..k + |r|] == r
    && SpaceOnly(s[k + |r|..])
  }

  /** `s.strip()`: `s` is the result with whitespace on either side, and the result has
      whitespace at neither end (so nothing more could be dropped). */
  function Strip(s: string): (r: string)
    ensures exists k :: PaddedAt(s, r, k)
    ensures r != [] ==> !IsSpace(r[0]) && !IsSpace(r[|r| - 1])
  {
    var t := TrimStart(s);
    var r := TrimEnd(t);
    TrimStartDropsSpace(s);
    TrimEndDropsSpace(t);
    StripPieces(s, t, r);
    assert r != [] ==> r[0] == t[0];
    r
  }

  /** Where the two trims cut `s`: when `t` is `s` without some leading whitespace and `r` is
      `t` without some trailing whitespace, `s` is whitespace, then `r`, then whitespace. */
  lemma StripPieces(s: string, t: string, r: string)
    requires |t| <= |s| && t == s[|s| - |t|..] && SpaceOnly(s[..|s| - |t|])
    requires |r| <= |t| && r == t[..|r|] && SpaceOnly(t[|r|..])
    ensures PaddedAt(s, r, |s| - |t|)
  {
    var k := |s| - |t|;
    assert s[k..k + |r|] == t[..|r|];
    assert s[k + |r|..] == t[|r|..];
  }

  /** `re.sub(r'\s+', ' ', s)`: every maximal run of whitespace becomes one blank. */
  function CollapseSpaces(s: string): string
    decreases |s|
  {
    if s == [] then []
    else if IsSpace(s[0]) then [' '] + CollapseSpaces(TrimStart(s[1..]))
    else [s[0]] + CollapseSpaces(s[1..])
  }

  /** No two whitespace characters stand side by side, and the only whitespace is the blank. */
  predicate SingleSpaced(s: string) {
    && (forall i :: 0 <= i < |s| && IsSpace(s[i]) ==> s[i] == ' ')
    && (forall i :: 0 < i < |s| ==> !(IsSpace(s[i - 1]) && IsSpace(s[i])))
  }

  /** Text without leading or trailing whitespace is its own strip. */
  lemma StripKeepsStripped(s: string)
    requires s != [] && !IsSpace(s[0]) && !IsSpace(s[|s| - 1])
    ensures Strip(s) == s
  {
  }

  /** Lower-case text is its own lower-case form. */
  lemma LowerKeepsLower(s: string)
    requires IsLower(s)
    ensures Lower(s) == s
  {
  }

  /** Text that is already single-spaced is left alone by the run rewrite (so the
      first step of the normaliser is idempotent). */
  lemma {:induction false} CollapseSpacesKeepsSingleSpaced(s: string)
    requires SingleSpaced(s)
    ensures CollapseSpaces(s) == s
    decreases |s|
  {
    if s != [] {
      var t := s[1..];
      assert SingleSpaced(t) by {
        forall i | 0 <= i < |t| ensures t[i] == s[i + 1] { }
      }
      CollapseSpacesKeepsSingleSpaced(t);
      if IsSpace(s[0]) {
        assert TrimStart(t) == t by {
          if t != [] { assert !(IsSpace(s[0]) && IsSpace(s[1])) && t[0] == s[1]; }
        }
        calc {
          CollapseSpaces(s);
          [' '] + CollapseSpaces(TrimStart(t));
          [' '] + t;
          { assert s[0] == ' '; }
          s;
        }
      } else {
        calc {
          CollapseSpaces(s);
          [s[0]] + CollapseSpaces(t);
          [s[0]] + t;
          s;
        }
      }
    }
  }

  /** Putting a character in front of single-spaced text keeps it single-spaced unless that
      makes two whitespace characters meet or brings in whitespace other than the blank. */
  lemma ConsSingleSpaced(c: char, rt: string)
    requires SingleSpaced(rt)
    requires IsSpace(c) ==> c == ' ' && (rt != [] ==> !IsSpace(rt[0]))
    ensures SingleSpaced([c] + rt)
  {
    var r := [c] + rt;
    forall i | 0 < i < |r| ensures !(IsSpace(r[i - 1]) && IsSpace(r[i])) {
      if i > 1 { assert r[i - 1] == rt[i - 2] && r[i] == rt[i - 1]; }
    }
    forall i | 0 <= i < |r| && IsSpace(r[i]) ensures r[i] == ' ' {
      if i > 0 { assert r[i] == rt[i - 1]; }
    }
  }

  /** The run rewrite leaves no run of two whitespace characters, and keeps the first
      and last characters' whitespace-ness, so a stripped text stays stripped. */
  lemma {:induction false} CollapseSpacesShape(s: string)
    ensures var r := CollapseSpaces(s);
      && SingleSpaced(r)
      && (r == [] <==> s == [])
      && (r != [] ==> (IsSpace(r[0]) <==> IsSpace(s[0])))
      && (r != [] && !IsSpace(s[|s| - 1]) ==> r[|r| - 1] == s[|s| - 1])
    decreases |s|
  {
    if s == [] {
    } else if IsSpace(s[0]) {
      var t := TrimStart(s[1..]);
      CollapseSpacesShape(t);
      var rt := CollapseSpaces(t);
      assert [' '] + rt == CollapseSpaces(s);
      assert rt != [] ==> !IsSpace(rt[0]);
      ConsSingleSpaced(' ', rt);
      if !IsSpace(s[|s| - 1]) {
        assert s[1..] != [] && s[1..][|s[1..]| - 1] == s[|s| - 1];
        assert t != [] by { TrimStartDropsSpace(s[1..]); }
      }
    } else {
      var t := s[1..];
      CollapseSpacesShape(t);
      var rt := CollapseSpaces(t);
      assert [s[0]] + rt == CollapseSpaces(s);
      ConsSingleSpaced(s[0], rt);
    }
  }

  /** The run rewrite never turns a lower-case character into another one. */
  lemma {:induction false} CollapseSpacesKeepsLower(s: string)
    requires IsLower(s)
    ensures IsLower(CollapseSpaces(s))
    decreases |s|
  {
    if s == [] {
    } else if IsSpace(s[0]) {
      var t := TrimStart(s[1..]);
      LowerSuffix(s, |s| - |t|);
      CollapseSpacesKeepsLower(t);
    } else {
      LowerSuffix(s, 1);
      CollapseSpacesKeepsLower(s[1..]);
    }
  }

  /** Any tail of lower-case text is lower-case. */
  lemma LowerSuffix(s: string, k: int)
    requires IsLower(s) && 0 <= k <= |s|
    ensures IsLower(s[k..])
  {
    forall i | 0 <= i < |s| - k ensures IsLowerChar(s[k..][i]) { assert s[k..][i] == s[k + i]; }
  }

  /** The text with every whitespace character removed. */
  function NonSpace(s: string): string
    decreases |s|
  {
    if s == [] then [] else (if IsSpace(s[0]) then [] else [s[0]]) + NonSpace(s[1..])
  }

  /** Removing leading whitespace leaves the non-space characters as they were. */
  lemma {:induction false} NonSpaceOfTrimStart(s: string)
    ensures NonSpace(TrimStart(s)) == NonSpace(s)
    decreases |s|
  {
    if |s| > 0 && IsSpace(s[0]) {
      NonSpaceOfTrimStart(s[1..]);
    }
  }

  /** The run rewrite only replaces whitespace: the non-space characters are all kept, in
      their order, and nothing else is added. */
  lemma {:induction false} CollapseSpacesKeepsText(s: string)
    ensures NonSpace(CollapseSpaces(s)) == NonSpace(s)
    decreases |s|
  {
    if s == [] {
    } else if IsSpace(s[0]) {
      var t := TrimStart(s[1..]);
      CollapseSpacesKeepsText(t);
      NonSpaceOfTrimStart(s[1..]);
      assert ([' '] + CollapseSpaces(t))[1..] == CollapseSpaces(t);
    } else {
      CollapseSpacesKeepsText(s[1..]);
      assert ([s[0]] + CollapseSpaces(s[1..]))[1..] == CollapseSpaces(s[1..]);
    }
  }

  // ---------------------------------------------------------------------------
  // Filtering characters: `re.sub(r'[^\w\s\?\!\.\,\-]', '', s)`
  // ---------------------------------------------------------------------------

  /** The characters the normaliser keeps: word characters, whitespace and `? ! . , -`. */
  predicate IsEssential(c: char) {
    IsWordChar(c) || IsSpace(c) || c in "?!.,-"
  }

  /** Drops every character that is not essential, keeping the others in order. */
  function KeepEssential(s: string): string
    decreases |s|
  {
    if s == [] then []
    else (if IsEssential(s[0]) then [s[0]] else []) + KeepEssential(s[1..])
  }

  /** The filter looks at one character at a time. */
  lemma KeepEssentialCons(c: char, s: string)
    ensures KeepEssential([c] + s) == (if IsEssential(c) then [c] else []) + KeepEssential(s)
  {
    assert ([c] + s)[1..] == s;
  }

  /** The filter keeps exactly the essential characters: nothing else survives, every
      essential character does, and text made of essential characters is unchanged. */
  lemma {:induction false} KeepEssentialSpec(s: string)
    ensures var r := KeepEssential(s);
      && |r| <= |s|
      && (forall i :: 0 <= i < |r| ==> IsEssential(r[i]))
      && (forall j :: 0 <= j < |s| && IsEssential(s[j]) ==> s[j] in r)
      && (forall c :: c in r ==> c in s)
      && ((forall i :: 0 <= i < |s| ==> IsEssential(s[i])) ==> r == s)
    decreases |s|
  {
    if s != [] {
      KeepEssentialSpec(s[1..]);
      assert forall j :: 1 <= j < |s| ==> s[j] == s[1..][j - 1];
    }
  }

  // ---------------------------------------------------------------------------
  // Substrings
  // ---------------------------------------------------------------------------

  /** `needle in text`. */
  function Contains(text: string, needle: string): bool
    decreases |text|
  {
    |needle| <= |text| && (text[..|needle|] == needle || Contains(text[1..], needle))
  }

  /** `needle` occurs in `text` starting at position `i`. */
  predicate OccursAt(text: string, needle: string, i: int) {
    0 <= i <= |text| - |needle| && text[i..i + |needle|] == needle
  }

  /** `needle in text` holds exactly when `needle` occurs at some position of `text`. */
  lemma {:induction false} ContainsIffOccurs(text: string, needle: string)
    ensures Contains(text, needle) <==> exists i :: OccursAt(text, needle, i)
    decreases |text|
  {
    if |needle| > |text| {
    } else if text[..|needle|] == needle {
      assert OccursAt(text, needle, 0);
    } else {
      ContainsIffOccurs(text[1..], needle);
      if Contains(text[1..], needle) {
        var i :| OccursAt(text[1..], needle, i);
        assert text[i + 1..i + 1 + |needle|] == text[1..][i..i + |needle|];
        assert OccursAt(text, needle, i + 1);
      }
      if i :| OccursAt(text, needle, i) {
        assert i != 0;
        assert text[1..][i - 1..i - 1 + |needle|] == text[i..i + |needle|];
        assert OccursAt(text[1..], needle, i - 1);
      }
    }
  }

  /** An occurrence uses only characters of the text, so a needle with a character the
      text lacks does not occur in it. */
  lemma {:induction false} ContainsUsesTextChars(text: string, needle: string)
    requires Contains(text, needle)
    ensures forall c :: c in needle ==> c in text
    decreases |text|
  {
    if text[..|needle|] == needle {
      forall c | c in needle ensures c in text {
        var j :| 0 <= j < |needle| && needle[j] == c;
        assert text[j] == c;
      }
    } else {
      ContainsUsesTextChars(text[1..], needle);
    }
  }

  /** A needle whose first character the text lacks does not occur in it. */
  lemma ContainsNeedsFirstChar(text: string, needle: string)
    requires needle != [] && needle[0] !in text
    ensures !Contains(text, needle)
  {
    if Contains(text, needle) {
      ContainsUsesTextChars(text, needle);
    }
  }

  /** A needle occurs in the text it starts. */
  lemma ContainsPrefix(text: string, needle: string)
    requires |needle| <= |text| && text[..|needle|] == needle
    ensures Contains(text, needle)
  {
  }

  /** Some word of `words` occurs in `text` (`any(w in text for w in words)`). */
  predicate AnyIn(words: seq<string>, text: string) {
    exists i :: 0 <= i < |words| && Contains(text, words[i])
  }

  // ---------------------------------------------------------------------------
  // `text.split("|", 1)`
  // ---------------------------------------------------------------------------

  /** Position of the first `c` in `s`. */
  function IndexOf(s: string, c: char): (k: nat)
    requires c in s
    ensures k < |s| && s[k] == c && c !in s[..k]
  {
    if s[0] == c then 0 else
      assert c in s[1..] by { var j :| 0 <= j < |s| && s[j] == c; assert s[1..][j - 1] == c; }
      var k := IndexOf(s[1..], c) + 1;
      assert s[..k] == [s[0]] + s[1..][..k - 1];
      k
  }

  /** `s.split(sep, 1)` for an `s` that holds `sep`: the text before the first `sep` and
      the text after it. */
  function SplitFirst(s: string, sep: char): (parts: (string, string))
    requires sep in s
    ensures parts.0 + [sep] + parts.1 == s
    ensures sep !in parts.0
  {
    var k := IndexOf(s, sep);
    assert s[..k] + [sep] + s[k + 1..] == s;
    (s[..k], s[k + 1..])
  }

  /** The split is the only way to cut `s` at a `sep` with no `sep` before the cut. */
  lemma SplitFirstUnique(s: string, sep: char, head: string, tail: string)
    requires head + [sep] + tail == s && sep !in head
    ensures sep in s && SplitFirst(s, sep) == (head, tail)
  {
    assert s[|head|] == sep;
    var k := IndexOf(s, sep);
    assert s[..k] == head;
    assert s[k + 1..] == tail;
  }
}
