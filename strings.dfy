/**
 * The handful of Python `str` operations the web-app manager relies on:
 * `strip()`, `in`, `startswith`, `endswith`, `replace`, `lower()` on a URL
 * scheme, and `filter(str.isalpha, ...)`.  Strings are `seq<char>`.
 */
module Strings {

  /** Characters for which Python's `str.isspace()` holds. */
  predicate IsSpace(c: char)
  {
    c == ' ' || ('\t' <= c <= '\r') || ('\U{1C}' <= c <= '\U{1F}')
    || c == '\U{85}' || c == '\U{A0}' || c == '\U{1680}'
    || ('\U{2000}' <= c <= '\U{200A}') || c == '\U{2028}' || c == '\U{2029}'
    || c == '\U{202F}' || c == '\U{205F}' || c == '\U{3000}'
  }

  /** ASCII letters; the letter classes of other scripts are not modelled. */
  predicate IsAlpha(c: char)
  {
    'a' <= c <= 'z' || 'A' <= c <= 'Z'
  }

  predicate IsDigit(c: char)
  {
    '0' <= c <= '9'
  }

  /** Neither end of `s` is white space. */
  predicate Trimmed(s: string)
  {
    s == [] || (!IsSpace(s[0]) && !IsSpace(s[|s| - 1]))
  }

  /** Number of leading white-space characters. */
  function Lead(s: string): (i: nat)
    ensures i <= |s|
    ensures forall k :: 0 <= k < i ==> IsSpace(s[k])
    ensures i < |s| ==> !IsSpace(s[i])
  {
    if s == [] || !IsSpace(s[0]) then 0 else 1 + Lead(s[1..])
  }

  /** Length of `s` once its trailing white space is cut off. */
  function Trail(s: string): (j: nat)
    ensures j <= |s|
    ensures forall k :: j <= k < |s| ==> IsSpace(s[k])
    ensures 0 < j ==> !IsSpace(s[j - 1])
  {
    if s == [] || !IsSpace(s[|s| - 1]) then |s| else Trail(s[..|s| - 1])
  }

  /** Python's `s.strip()`. */
  function Strip(s: string): (r: string)
    ensures Trimmed(r)
    ensures r == [] <==> forall k :: 0 <= k < |s| ==> IsSpace(s[k])
    ensures Trimmed(s) ==> r == s
  {
    var t := s[Lead(s)..];
    t[..Trail(t)]
  }

  predicate StartsWith(s: string, p: string)
  {
    |p| <= |s| && s[..|p|] == p
  }

  predicate EndsWith(s: string, p: string)
  {
    |p| <= |s| && s[|s| - |p|..] == p
  }

  /** `t` sits in `s` at index `i`. */
  predicate Occurs(s: string, t: string, i: int)
  {
    0 <= i <= |s| - |t| && s[i..i + |t|] == t
  }

  /** Python's `t in s` on strings. */
  predicate Contains(s: string, t: string)
  {
    exists i | 0 <= i <= |s| - |t| :: Occurs(s, t, i)
  }

  /** Python's `s.replace(pat, rep)`: every non-overlapping occurrence, left to right. */
  function Replace(s: string, pat: string, rep: string): string
    requires pat != []
    decreases |s|
  {
    if |s| < |pat| then s
    else if s[..|pat|] == pat then rep + Replace(s[|pat|..], pat, rep)
    else [s[0]] + Replace(s[1..], pat, rep)
  }

  /** The strings of `segs` with `c` between each two. */
  function Joined(segs: seq<string>, c: char): string
  {
    if segs == [] then []
    else if |segs| == 1 then segs[0]
    else segs[0] + [c] + Joined(segs[1..], c)
  }

  /** `"".join(filter(str.isalpha, s))`. */
  function Letters(s: string): (r: string)
    ensures forall k :: 0 <= k < |r| ==> IsAlpha(r[k])
    ensures |r| <= |s|
    ensures (forall k :: 0 <= k < |s| ==> IsAlpha(s[k])) ==> r == s
  {
    if s == [] then []
    else (if IsAlpha(s[0]) then [s[0]] else []) + Letters(s[1..])
  }

  function LowerChar(c: char): char
  {
    if 'A' <= c <= 'Z' then (c as int + 32) as char else c
  }

  /** `s.lower()` for the ASCII characters a URL scheme is made of. */
  function LowerAscii(s: string): (r: string)
    ensures |r| == |s|
    ensures forall k :: 0 <= k < |s| ==> r[k] == LowerChar(s[k])
  {
    seq(|s|, k requires 0 <= k < |s| => LowerChar(s[k]))
  }

  // ---------------------------------------------------------------------
  // Facts about the operations above.
  // ---------------------------------------------------------------------

  /** `s.strip()` is `s` with its leading and trailing white space cut off, and nothing else. */
  lemma StripSlice(s: string) returns (i: nat)
    ensures i + |Strip(s)| <= |s| && Strip(s) == s[i..i + |Strip(s)|]
    ensures forall k :: 0 <= k < i ==> IsSpace(s[k])
    ensures forall k :: i + |Strip(s)| <= k < |s| ==> IsSpace(s[k])
  {
    i := Lead(s);
    var t := s[i..];
    var j := Trail(t);
    assert Strip(s) == t[..j] == s[i..i + j];
    forall k | i + j <= k < |s| ensures IsSpace(s[k]) {
      assert s[k] == t[k - i];
    }
  }

  /** `filter(str.isalpha, …)` keeps the letters in their order: it works piece by piece and character by character. */
  lemma {:induction false} LettersInOrder(a: string, b: string, c: char)
    ensures Letters(a + b) == Letters(a) + Letters(b)
    ensures Letters([c]) == if IsAlpha(c) then [c] else []
    decreases |a|
  {
    if a == [] {
      assert a + b == b;
    } else {
      assert (a + b)[0] == a[0] && (a + b)[1..] == a[1..] + b;
      LettersInOrder(a[1..], b, c);
    }
  }

  /** An index at which `t` occurs in `s`. */
  lemma Where(s: string, t: string) returns (i: nat)
    requires Contains(s, t)
    ensures i + |t| <= |s| && s[i..i + |t|] == t
  {
    i :| 0 <= i <= |s| - |t| && Occurs(s, t, i);
  }

  lemma StripIdempotent(s: string)
    ensures Strip(Strip(s)) == Strip(s)
  {
  }

  /** Whatever occurs in a slice occurs in the whole string. */
  lemma ContainsSlice(s: string, t: string, i: nat, j: nat)
    requires i <= j <= |s|
    requires Contains(s[i..j], t)
    ensures Contains(s, t)
  {
    var k := Where(s[i..j], t);
    assert forall m :: 0 <= m < |t| ==> t[m] == s[i..j][k + m] == s[i + k + m];
    assert Occurs(s, t, i + k);
  }

  /** Whatever occurs in the stripped text occurs in the original text. */
  lemma ContainsStrip(s: string, t: string)
    requires Contains(Strip(s), t)
    ensures Contains(s, t)
  {
    var u := s[Lead(s)..];
    ContainsSlice(u, t, 0, Trail(u));
    assert s[Lead(s)..|s|] == u;
    ContainsSlice(s, t, Lead(s), |s|);
  }

  lemma ContainsPrefix(s: string, t: string)
    requires StartsWith(s, t)
    ensures Contains(s, t)
  {
    assert Occurs(s, t, 0);
  }

  /** A needle holding a character the text lacks never occurs in it. */
  lemma AbsentChar(s: string, t: string, c: char)
    requires c in t && c !in s
    ensures !Contains(s, t)
  {
    var m :| 0 <= m < |t| && t[m] == c;
    forall i | 0 <= i <= |s| - |t|
      ensures !Occurs(s, t, i)
    {
      assert s[i..i + |t|][m] == s[i + m];
    }
  }

  /**
   * For a line `k c w` in which the separator `c` occurs exactly once, a
   * needle `t c u` occurs in it exactly when `k` ends with `t` and `w` starts
   * with `u`: the needle's separator can only sit on the line's one.
   */
  lemma KeyedContains(k: string, w: string, c: char, t: string, u: string)
    requires c !in k && c !in w && c !in t && c !in u
    ensures Contains(k + [c] + w, t + [c] + u) <==> EndsWith(k, t) && StartsWith(w, u)
  {
    if Contains(k + [c] + w, t + [c] + u) {
      KeyedFound(k, w, c, t, u);
    }
    if EndsWith(k, t) && StartsWith(w, u) {
      KeyedPlaced(k, w, c, t, u);
    }
  }

  /** In `k c w` with `c` in neither part, `c` sits at `|k|` and nowhere else. */
  lemma SeparatorAt(k: string, w: string, c: char, p: nat)
    requires c !in k && c !in w && p < |k| + 1 + |w|
    ensures (k + [c] + w)[p] == c <==> p == |k|
  {
    var line := k + [c] + w;
    if p < |k| {
      assert line[p] == k[p];
    } else if p > |k| {
      assert line[p] == w[p - |k| - 1];
    }
  }

  lemma KeyedFound(k: string, w: string, c: char, t: string, u: string)
    requires c !in k && c !in w && c !in t && c !in u
    requires Contains(k + [c] + w, t + [c] + u)
    ensures EndsWith(k, t) && StartsWith(w, u)
  {
    var line, needle := k + [c] + w, t + [c] + u;
    var i := Where(line, needle);
    var piece := line[i..i + |needle|];
    assert piece[|t|] == c;
    SeparatorAt(k, w, c, i + |t|);
    assert piece[..|t|] == t && piece[|t| + 1..] == u;
    assert line[..|k|] == k && line[|k| + 1..] == w;
    assert k[i..] == piece[..|t|];
    assert w[..|u|] == piece[|t| + 1..];
  }

  lemma KeyedPlaced(k: string, w: string, c: char, t: string, u: string)
    requires EndsWith(k, t) && StartsWith(w, u)
    ensures Contains(k + [c] + w, t + [c] + u)
  {
    var line, needle := k + [c] + w, t + [c] + u;
    var i := |k| - |t|;
    assert line[i..i + |needle|] == k[i..] + [c] + w[..|u|];
    assert Occurs(line, needle, i);
  }

  /** A needle ending in `c` cannot run into a tail that has no `c`. */
  lemma ContainsDropTail(a: string, b: string, t: string, c: char)
    requires c !in t && c !in b
    requires Contains(a + b, t + [c])
    ensures Contains(a, t + [c])
  {
    var s, n := a + b, t + [c];
    var i := Where(s, n);
    assert s[i + |t|] == c by { assert s[i..i + |n|][|t|] == n[|t|]; }
    assert forall m :: 0 <= m < |n| ==> n[m] == s[i + m] == a[i + m];
    assert Occurs(a, n, i);
  }

  /**
   * A needle ending in `c` found in `a + b`, where `b` has no `c` within its
   * first `|t|` characters, lies wholly inside `a` or wholly inside `b`.
   */
  lemma ContainsSplit(a: string, b: string, t: string, c: char)
    requires c !in t
    requires forall m :: 0 <= m < |b| && m < |t| ==> b[m] != c
    requires Contains(a + b, t + [c])
    ensures Contains(a, t + [c]) || Contains(b, t + [c])
  {
    var s, n := a + b, t + [c];
    var i := Where(s, n);
    assert s[i + |t|] == c by { assert s[i..i + |n|][|t|] == n[|t|]; }
    if i + |t| < |a| {
      assert forall m :: 0 <= m < |n| ==> n[m] == s[i + m] == a[i + m];
      assert Occurs(a, n, i);
    } else {
      assert s[i + |t|] == b[i + |t| - |a|];
      assert i >= |a|;
      assert forall m :: 0 <= m < |n| ==> n[m] == s[i + m] == b[i - |a| + m];
      assert Occurs(b, n, i - |a|);
    }
  }

  /** Replacing a string that does not occur changes nothing. */
  lemma {:induction false} ReplaceAbsent(s: string, pat: string, rep: string)
    requires pat != [] && !Contains(s, pat)
    ensures Replace(s, pat, rep) == s
    decreases |s|
  {
    if |s| >= |pat| {
      assert !Occurs(s, pat, 0);
      if Contains(s[1..], pat) {
        assert s[1..|s|] == s[1..];
        ContainsSlice(s, pat, 1, |s|);
      }
      ReplaceAbsent(s[1..], pat, rep);
    }
  }

  /** Replacing skips a prefix that never holds the first character of `pat`. */
  lemma {:induction false} ReplaceSkip(x: string, y: string, pat: string, rep: string)
    requires pat != [] && pat[0] !in x
    ensures Replace(x + y, pat, rep) == x + Replace(y, pat, rep)
    decreases |x|
  {
    var s := x + y;
    if x == [] {
      assert s == y;
    } else if |s| >= |pat| {
      assert s[..|pat|] != pat by { assert s[..|pat|][0] == x[0]; }
      assert s[1..] == x[1..] + y;
      ReplaceSkip(x[1..], y, pat, rep);
      assert Replace(s, pat, rep) == [x[0]] + (x[1..] + Replace(y, pat, rep));
    } else {
      assert Replace(y, pat, rep) == y;
    }
  }

  lemma ReplaceLeading(y: string, pat: string, rep: string)
    requires pat != []
    ensures Replace(pat + y, pat, rep) == rep + Replace(y, pat, rep)
  {
    assert (pat + y)[..|pat|] == pat;
    assert (pat + y)[|pat|..] == y;
  }

  /** `s.replace(c, "")` leaves no `c` behind. */
  lemma {:induction false} ReplaceDeletes(s: string, c: char)
    ensures c !in Replace(s, [c], [])
    decreases |s|
  {
    if |s| >= 1 {
      ReplaceDeletes(s[1..], c);
    }
  }

  /** A string's suffix is decided by its own tail once that tail is long enough. */
  lemma EndsWithTail(x: string, y: string, t: string)
    requires |t| <= |y|
    ensures EndsWith(x + y, t) <==> EndsWith(y, t)
  {
    assert (x + y)[|x + y| - |t|..] == y[|y| - |t|..];
  }

  /** Neither of two strings ends with the other, so appending `y` cannot make `t` a suffix. */
  lemma NotEndsWith(x: string, y: string, t: string)
    requires !EndsWith(y, t) && !EndsWith(t, y)
    ensures !EndsWith(x + y, t)
  {
    if |t| <= |y| {
      EndsWithTail(x, y, t);
    }
  }

  /** A string contains every prefix of a needle it contains. */
  lemma ContainsLonger(s: string, p: string, q: string)
    requires Contains(s, p + q)
    ensures Contains(s, p)
  {
    var i := Where(s, p + q);
    assert s[i..i + |p|] == (p + q)[..|p|] == p;
    assert Occurs(s, p, i);
  }

  /** Python's `strip()` takes off the line break after a line without surrounding white space. */
  lemma StripNewline(s: string)
    requires Trimmed(s)
    ensures Strip(s + "\n") == s
  {
    var t := s + "\n";
    if s == [] {
      assert Lead(t) == 1;
    } else {
      assert Lead(t) == 0;
      assert t[..|t| - 1] == s;
      assert Trail(t) == |s|;
      assert t[..|s|] == s;
    }
  }

  /**
   * In segments joined by `c`, a needle `t c` can only sit at the end of a
   * segment: when no segment but the last ends with `t`, it does not occur.
   */
  lemma {:induction false} JoinedLacks(segs: seq<string>, c: char, t: string)
    requires c !in t
    requires forall i :: 0 <= i < |segs| ==> c !in segs[i]
    requires forall i :: 0 <= i < |segs| - 1 ==> !EndsWith(segs[i], t)
    ensures !Contains(Joined(segs, c), t + [c])
    decreases |segs|
  {
    var s, n := Joined(segs, c), t + [c];
    if |segs| <= 1 {
      AbsentChar(s, n, c);
    } else {
      var head, rest := segs[0], Joined(segs[1..], c);
      assert s == head + [c] + rest;
      JoinedLacks(segs[1..], c, t);
      forall i | 0 <= i <= |s| - |n|
        ensures !Occurs(s, n, i)
      {
        JoinAvoids(head, rest, c, t, i);
      }
    }
  }

  /** One position of `head c rest` where `t c` cannot start, `head` not ending in `t` and `rest` lacking `t c`. */
  lemma JoinAvoids(head: string, rest: string, c: char, t: string, i: nat)
    requires c !in t && c !in head && !EndsWith(head, t) && !Contains(rest, t + [c])
    requires i + |t| + 1 <= |head| + 1 + |rest|
    ensures !Occurs(head + [c] + rest, t + [c], i)
  {
    var s, n := head + [c] + rest, t + [c];
    var piece := s[i..i + |n|];
    var p := i + |t|;
    if p < |head| {
      assert piece[|t|] == head[p] && head[p] in head && n[|t|] == c;
    } else if p == |head| {
      assert piece[..|t|] == head[i..] && n[..|t|] == t;
    } else if i <= |head| {
      assert piece[|head| - i] == c;
      assert n[|head| - i] == t[|head| - i];
    } else {
      var j := i - |head| - 1;
      assert !Occurs(rest, n, j);
      assert piece == rest[j..j + |n|];
    }
  }

  /** The text of `lines` written one after the other. */
  function Concat(lines: seq<string>): string
  {
    if lines == [] then [] else lines[0] + Concat(lines[1..])
  }

  /** One line of a text file: ends with its line break and holds no other. */
  predicate IsLine(line: string)
  {
    line != [] && line[|line| - 1] == '\n' && '\n' !in line[..|line| - 1]
  }

  /** The first position of `c` in `s`. */
  function IndexOf(s: string, c: char): (i: nat)
    requires c in s
    ensures i < |s| && s[i] == c && c !in s[..i]
  {
    if s[0] == c then 0 else 1 + IndexOf(s[1..], c)
  }

  /** Iterating over a text file: each line with its line break; the last may lack one. */
  function Lines(s: string): (lines: seq<string>)
    ensures Concat(lines) == s
    ensures forall k :: 0 <= k < |lines| - 1 ==> IsLine(lines[k])
    decreases |s|
  {
    if s == [] then []
    else if '\n' !in s then
      [s]
    else
      var i := IndexOf(s, '\n');
      assert s[..i + 1][..i] == s[..i];
      var rest := Lines(s[i + 1..]);
      assert ([s[..i + 1]] + rest)[1..] == rest;
      assert s[..i + 1] + s[i + 1..] == s;
      [s[..i + 1]] + rest
  }

  /** No line is empty, and a line break can only end a line, the last one included. */
  lemma {:induction false} LinesShape(s: string)
    ensures forall k :: 0 <= k < |Lines(s)| ==> Lines(s)[k] != [] && '\n' !in Lines(s)[k][..|Lines(s)[k]| - 1]
    decreases |s|
  {
    if s != [] {
      if '\n' !in s {
        assert '\n' !in s[..|s| - 1];
      } else {
        var i := IndexOf(s, '\n');
        LinesShape(s[i + 1..]);
        assert Lines(s) == [s[..i + 1]] + Lines(s[i + 1..]);
        assert s[..i + 1][..i] == s[..i];
      }
    }
  }

  /** Reading back what was written line by line gives the same lines. */
  lemma {:induction false} LinesConcat(lines: seq<string>)
    requires forall k :: 0 <= k < |lines| ==> IsLine(lines[k])
    ensures Lines(Concat(lines)) == lines
  {
    if lines != [] {
      var x := lines[0];
      var rest := lines[1..];
      LinesConcat(rest);
      var s := Concat(lines);
      assert s == x + Concat(rest);
      assert s[|x| - 1] == '\n';
      assert s[..|x| - 1] == x[..|x| - 1];
      assert '\n' in s;
      var i := IndexOf(s, '\n');
      assert i == |x| - 1;
      assert s[..i + 1] == x;
      assert s[i + 1..] == Concat(rest);
    }
  }
}
