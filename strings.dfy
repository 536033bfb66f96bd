/**
 * Text helpers shared by the models: prefixes and substrings
 * (`startsWith`, `contains`, `strstr`) and splitting on one separator
 * character (`String.split`), and C strings (their NUL terminator, `strchr`).
 */
module Strings {
  import opened Wrappers

  predicate StartsWith(s: string, p: string) {
    |p| <= |s| && s[..|p|] == p
  }

  predicate OccursAt(s: string, t: string, i: int) {
    0 <= i && i + |t| <= |s| && s[i..i + |t|] == t
  }

  /** `String.contains`. */
  predicate Contains(s: string, t: string) {
    exists i :: 0 <= i <= |s| - |t| && OccursAt(s, t, i)
  }

  lemma ContainsSuffix(p: string, t: string)
    ensures Contains(p + t, t)
  {
    assert OccursAt(p + t, t, |p|);
  }

  /** A text without one of the characters of `t` does not contain `t`. */
  lemma MissingCharNotContained(s: string, t: string, k: int)
    requires 0 <= k < |t| && t[k] !in s
    ensures !Contains(s, t)
  {
    forall i | 0 <= i <= |s| - |t|
      ensures !OccursAt(s, t, i)
    {
      assert s[i..i + |t|][k] == s[i + k];
      assert s[i + k] in s;
    }
  }

  lemma NotStartsWith(s: string, p: string, k: int)
    requires 0 <= k < |p| && (k >= |s| || s[k] != p[k])
    ensures !StartsWith(s, p)
  {
    if |p| <= |s| {
      assert s[..|p|][k] == s[k];
    }
  }

  /** Where `t` occurs, every prefix of `t` occurs too. */
  lemma ContainsPrefix(s: string, t: string, p: string)
    requires Contains(s, t) && StartsWith(t, p)
    ensures Contains(s, p)
  {
    var i :| 0 <= i <= |s| - |t| && OccursAt(s, t, i);
    assert s[i..i + |p|] == s[i..i + |t|][..|p|];
    assert OccursAt(s, p, i);
  }

  lemma AppendAssoc<T>(a: seq<T>, b: seq<T>, c: seq<T>)
    ensures a + b + c == a + (b + c)
  {
  }

  /** A text that occurs in the tail of `s` occurs in `s`. */
  lemma ContainsInTail(s: string, t: string)
    requires s != [] && Contains(s[1..], t)
    ensures Contains(s, t)
  {
    var i :| 0 <= i <= |s[1..]| - |t| && OccursAt(s[1..], t, i);
    assert s[i + 1..i + 1 + |t|] == s[1..][i..i + |t|];
    assert OccursAt(s, t, i + 1);
  }

  /**
   * `String.replaceAll` with a pattern that matches only itself and a
   * replacement free of `$` and `\`: every occurrence of `pat`, found from the
   * left and not overlapping, is replaced by `rep`.
   */
  function ReplaceAll(s: string, pat: string, rep: string): string
    requires |pat| > 0
    decreases |s|
  {
    if s == [] then []
    else if StartsWith(s, pat) then rep + ReplaceAll(s[|pat|..], pat, rep)
    else [s[0]] + ReplaceAll(s[1..], pat, rep)
  }

  /** A text without the pattern is left as it is. */
  lemma {:induction false} ReplaceAbsent(s: string, pat: string, rep: string)
    requires |pat| > 0 && !Contains(s, pat)
    ensures ReplaceAll(s, pat, rep) == s
    decreases |s|
  {
    if s != [] {
      assert !StartsWith(s, pat) by {
        if StartsWith(s, pat) { assert OccursAt(s, pat, 0); }
      }
      assert !Contains(s[1..], pat) by {
        if Contains(s[1..], pat) { ContainsInTail(s, pat); }
      }
      ReplaceAbsent(s[1..], pat, rep);
      assert s == [s[0]] + s[1..];
    }
  }

  /** Replacing the pattern by itself changes nothing: only occurrences are rewritten. */
  lemma {:induction false} ReplaceBySelf(s: string, pat: string)
    requires |pat| > 0
    ensures ReplaceAll(s, pat, pat) == s
    decreases |s|
  {
    if s == [] {
    } else if StartsWith(s, pat) {
      ReplaceBySelf(s[|pat|..], pat);
      assert s == pat + s[|pat|..];
    } else {
      ReplaceBySelf(s[1..], pat);
      assert s == [s[0]] + s[1..];
    }
  }

  /** A leading occurrence becomes the replacement, and the rest is rewritten on its own. */
  lemma ReplaceLeading(pat: string, rest: string, rep: string)
    requires |pat| > 0
    ensures ReplaceAll(pat + rest, pat, rep) == rep + ReplaceAll(rest, pat, rep)
  {
    assert (pat + rest)[..|pat|] == pat;
    assert (pat + rest)[|pat|..] == rest;
  }

  /**
   * `String.split` on a one-character separator. Java also drops trailing
   * empty pieces; no empty piece changes what the parsers here compute, so
   * they are kept.
   */
  function Split(s: string, sep: char): (r: seq<string>)
    ensures |r| >= 1
    ensures forall n :: 0 <= n < |r| ==> sep !in r[n]
    ensures sep !in s ==> r == [s]
  {
    if s == [] then [[]]
    else
      var rest := Split(s[1..], sep);
      assert s == [s[0]] + s[1..];
      if s[0] == sep then [[]] + rest
      else
        assert forall n :: 1 <= n < |rest| ==> rest[n] == ([[s[0]] + rest[0]] + rest[1..])[n];
        [[s[0]] + rest[0]] + rest[1..]
  }

  /** A separator followed by a separator-free tail adds that tail as the last piece. */
  lemma {:induction false} SplitSnoc(a: string, sep: char, b: string)
    requires sep !in b
    ensures Split(a + [sep] + b, sep) == Split(a, sep) + [b]
  {
    if a == [] {
      assert a + [sep] + b == [sep] + b;
      assert ([sep] + b)[1..] == b;
    } else {
      assert (a + [sep] + b)[1..] == a[1..] + [sep] + b;
      SplitSnoc(a[1..], sep, b);
    }
  }

  /** The words separated by single `sep` characters (a `StringBuilder` run). */
  function Join(words: seq<string>, sep: char): string {
    if |words| == 0 then []
    else if |words| == 1 then words[0]
    else Join(words[..|words| - 1], sep) + [sep] + words[|words| - 1]
  }

  /** Joining one more word appends a separator (when there were words already) and the word. */
  lemma JoinSnoc(words: seq<string>, w: string, sep: char)
    ensures Join(words + [w], sep) == if |words| == 0 then w else Join(words, sep) + [sep] + w
  {
    assert (words + [w])[..|words|] == words;
  }

  /** Splitting a join of separator-free words gives the words back. */
  lemma {:induction false} SplitJoin(words: seq<string>, sep: char)
    requires |words| >= 1
    requires forall n :: 0 <= n < |words| ==> sep !in words[n]
    ensures Split(Join(words, sep), sep) == words
  {
    if |words| > 1 {
      var init := words[..|words| - 1];
      SplitJoin(init, sep);
      SplitSnoc(Join(init, sep), sep, words[|words| - 1]);
      assert init + [words[|words| - 1]] == words;
    }
  }

  // ------------------------------------------------------------ lines

  /** The characters at which `BufferedReader.readLine` ends a line. */
  predicate IsLineEnd(c: char) { c == '\n' || c == '\r' }

  /** A text holding no line-end character. */
  predicate IsLine(s: string) { forall c :: c in s ==> !IsLineEnd(c) }

  /**
   * `BufferedReader.readLine` called until it returns null, with `cur` the
   * part of the current line already read. A line ends at "\n", at "\r" or
   * at "\r\n"; the text after the last line end is one more line when it is
   * not empty.
   */
  function ReadLinesFrom(s: string, cur: string): (r: seq<string>)
    ensures IsLine(cur) ==> forall k :: 0 <= k < |r| ==> IsLine(r[k])
    ensures r == [] <==> s == [] && cur == []
    decreases |s|
  {
    if s == [] then (if cur == [] then [] else [cur])
    else if s[0] == '\n' then [cur] + ReadLinesFrom(s[1..], [])
    else if s[0] == '\r' then [cur] + ReadLinesFrom(if |s| > 1 && s[1] == '\n' then s[2..] else s[1..], [])
    else ReadLinesFrom(s[1..], cur + [s[0]])
  }

  /** The lines `BufferedReader.readLine` returns for a whole text. */
  function ReadLines(s: string): (r: seq<string>)
    ensures forall k :: 0 <= k < |r| ==> IsLine(r[k])
    ensures s == [] <==> r == []
  {
    ReadLinesFrom(s, [])
  }

  /** The lines written one after another, each followed by `end`. */
  function Terminated(lines: seq<string>, end: string): (r: string)
    ensures '\n' !in end && (forall k :: 0 <= k < |lines| ==> '\n' !in lines[k]) ==> '\n' !in r
  {
    if lines == [] then [] else lines[0] + end + Terminated(lines[1..], end)
  }

  /** Reading over a text with no line end adds that text to the current line. */
  lemma {:induction false} ReadLinesFromLine(l: string, t: string, cur: string)
    requires IsLine(l)
    ensures ReadLinesFrom(l + t, cur) == ReadLinesFrom(t, cur + l)
    decreases |l|
  {
    if l == [] {
      assert l + t == t && cur + l == cur;
    } else {
      assert (l + t)[0] == l[0] && (l + t)[1..] == l[1..] + t;
      assert l[0] in l && !IsLineEnd(l[0]);
      assert IsLine(l[1..]) by {
        forall c | c in l[1..] ensures !IsLineEnd(c) { assert c in l; }
      }
      ReadLinesFromLine(l[1..], t, cur + [l[0]]);
      assert cur + [l[0]] + l[1..] == cur + l;
    }
  }

  /** Whichever of the three line ends is written, `readLine` gives the lines back. */
  lemma {:induction false} ReadLinesTerminated(lines: seq<string>, end: string)
    requires end == "\n" || end == "\r" || end == "\r\n"
    requires forall k :: 0 <= k < |lines| ==> IsLine(lines[k])
    ensures ReadLines(Terminated(lines, end)) == lines
  {
    if lines != [] {
      var rest := Terminated(lines[1..], end);
      assert Terminated(lines, end) == lines[0] + (end + rest);
      ReadLinesFromLine(lines[0], end + rest, []);
      assert [] + lines[0] == lines[0];
      ReadLinesTerminated(lines[1..], end);
      if end == "\r" {
        assert forall k :: 0 <= k < |lines[1..]| ==> '\n' !in lines[1..][k] by {
          forall k | 0 <= k < |lines[1..]| ensures '\n' !in lines[1..][k] {
            assert IsLine(lines[k + 1]);
          }
        }
        assert '\n' !in rest;
        assert rest != [] ==> rest[0] in rest;
        assert (end + rest)[1..] == rest;
      } else if end == "\n" {
        assert (end + rest)[1..] == rest;
      } else {
        assert (end + rest)[2..] == rest;
      }
      assert lines == [lines[0]] + lines[1..];
    }
  }

  // ------------------------------------------------------------ C strings

  /** The length of the C string held in `s`: up to its first NUL. */
  function CLength(s: string): (n: nat)
    ensures n <= |s|
  {
    if s == [] || s[0] == '\0' then 0 else 1 + CLength(s[1..])
  }

  /** The C string ends at the first NUL, or at the end of the buffer. */
  lemma {:induction false} CLengthIsFirstNul(s: string)
    ensures CLength(s) == |s| || s[CLength(s)] == '\0'
    ensures forall k :: 0 <= k < CLength(s) ==> s[k] != '\0'
  {
    if s != [] && s[0] != '\0' {
      CLengthIsFirstNul(s[1..]);
    }
  }

  function CStr(s: string): string {
    s[..CLength(s)]
  }

  /** The index of the first `c` in `s`, if any (`strchr`). */
  function FindChar(s: string, c: char): (r: Option<nat>)
    ensures r.Some? ==> r.value < |s|
  {
    if s == [] then None
    else if s[0] == c then Some(0)
    else
      var rest := FindChar(s[1..], c);
      if rest.Some? then Some(rest.value + 1) else None
  }

  /** The first `c` after a stretch without one is found where it stands. */
  lemma {:induction false} FindCharAfter(prefix: string, c: char, rest: string)
    requires c !in prefix
    ensures FindChar(prefix + [c] + rest, c) == Some(|prefix|)
  {
    if prefix != [] {
      assert (prefix + [c] + rest)[1..] == prefix[1..] + [c] + rest;
      FindCharAfter(prefix[1..], c, rest);
    }
  }

  /** A text cut at its first `c` has one prefix and one remainder. */
  lemma SeparatorSplitsUniquely(p: string, c: char, r: string, p': string, r': string)
    requires c !in p && c !in p' && p + [c] + r == p' + [c] + r'
    ensures p == p' && r == r'
  {
    FindCharAfter(p, c, r);
    FindCharAfter(p', c, r');
    var t := p + [c] + r;
    assert p == t[..|p|] && r == t[|p| + 1..];
    assert p' == t[..|p'|] && r' == t[|p'| + 1..];
  }

  /** A string without NUL is its own C string. */
  lemma {:induction false} CLengthOfNulFree(s: string)
    requires '\0' !in s
    ensures CLength(s) == |s|
  {
    if s != [] {
      assert '\0' !in s[1..] by { assert forall k :: 0 <= k < |s| - 1 ==> s[1..][k] == s[k + 1]; }
      CLengthOfNulFree(s[1..]);
    }
  }

  /** `FindChar` finds the first occurrence, and none only when there is none. */
  lemma {:induction false} FindCharIsFirst(s: string, c: char)
    ensures FindChar(s, c).Some? ==> s[FindChar(s, c).value] == c && c !in s[..FindChar(s, c).value]
    ensures FindChar(s, c).None? ==> c !in s
  {
    if s != [] && s[0] != c {
      FindCharIsFirst(s[1..], c);
      assert s == [s[0]] + s[1..];
      var rest := FindChar(s[1..], c);
      if rest.Some? {
        assert s[..rest.value + 1] == [s[0]] + s[1..][..rest.value];
      }
    }
  }

  // ------------------------------------------------------------ sequences

  /** The first index at which `x` occurs. */
  function IndexOf<T(==)>(list: seq<T>, x: T): (r: Option<nat>)
    ensures r.Some? ==> r.value < |list| && list[r.value] == x
    ensures r.Some? ==> forall k :: 0 <= k < r.value ==> list[k] != x
    ensures r.None? ==> x !in list
  {
    if list == [] then None
    else if list[0] == x then Some(0)
    else
      var rest := IndexOf(list[1..], x);
      assert list == [list[0]] + list[1..];
      if rest.Some? then Some(rest.value + 1) else None
  }

  /** An index holding `x` with no `x` before it is the one `IndexOf` finds. */
  lemma IndexOfFirst<T>(list: seq<T>, x: T, i: nat)
    requires i < |list| && list[i] == x
    requires forall k :: 0 <= k < i ==> list[k] != x
    ensures IndexOf(list, x) == Some(i)
  {
  }
}
