/**
 * The Python `str` operations the advisory engine relies on, over strings as
 * sequences of characters: substring search (`in`, `split(sep, 1)`),
 * `replace` and ASCII `title`.
 */
module PyStrings {
  import opened Wrappers

  /** `pat` occurs in `s` starting at index `i`. */
  predicate OccursAt(s: string, pat: string, i: nat)
  {
    i + |pat| <= |s| && s[i..i + |pat|] == pat
  }

  lemma OccursAtShift(s: string, pat: string, j: nat)
    requires |s| > 0
    ensures OccursAt(s[1..], pat, j) <==> OccursAt(s, pat, j + 1)
  {
    if j + 1 + |pat| <= |s| {
      assert s[1..][j..j + |pat|] == s[j + 1..j + 1 + |pat|];
    }
  }

  /**
   * The index of the first occurrence of `pat` in `s`, the position at which
   * `s.split(pat, 1)` cuts and that `pat in s` finds; None when there is none.
   */
  function FindFirst(s: string, pat: string): (r: Option<nat>)
    requires |pat| > 0
    ensures r.Some? ==> OccursAt(s, pat, r.value)
    ensures r.Some? ==> forall j :: 0 <= j < r.value ==> !OccursAt(s, pat, j)
    ensures r.None? ==> forall j :: 0 <= j <= |s| ==> !OccursAt(s, pat, j)
    decreases |s|
  {
    if |s| < |pat| then None
    else if s[..|pat|] == pat then Some(0)
    else
      var rest := FindFirst(s[1..], pat);
      assert !OccursAt(s, pat, 0);
      assert forall j :: 1 <= j <= |s| && OccursAt(s, pat, j) ==> OccursAt(s[1..], pat, j - 1) by {
        forall j | 1 <= j <= |s| && OccursAt(s, pat, j) ensures OccursAt(s[1..], pat, j - 1) {
          OccursAtShift(s, pat, j - 1);
        }
      }
      match rest
      case None => None
      case Some(i) =>
        OccursAtShift(s, pat, i);
        Some(i + 1)
  }

  /** A pattern whose first character is absent from `s` does not occur in it. */
  lemma AbsentFirstChar(s: string, pat: string)
    requires |pat| > 0 && pat[0] !in s
    ensures FindFirst(s, pat).None?
  {
    forall j | 0 <= j <= |s| ensures !OccursAt(s, pat, j) {
      if j < |s| && j + |pat| <= |s| {
        assert s[j..j + |pat|][0] == s[j];
      }
    }
  }

  /** Python's `pat in s`. */
  predicate Contains(s: string, pat: string)
    requires |pat| > 0
  {
    FindFirst(s, pat).Some?
  }

  /**
   * Python's `s.replace(pat, rep)`: the occurrences of `pat` are found from
   * left to right without overlapping, and each is replaced by `rep`.
   */
  function Replace(s: string, pat: string, rep: string): (r: string)
    requires |pat| > 0
    ensures forall c :: c in r ==> c in s || c in rep
    decreases |s|
  {
    if |s| < |pat| then s
    else if s[..|pat|] == pat then
      var tail := Replace(s[|pat|..], pat, rep);
      assert forall c :: c in s[|pat|..] ==> c in s;
      rep + tail
    else
      var tail := Replace(s[1..], pat, rep);
      assert forall c :: c in s[1..] ==> c in s;
      [s[0]] + tail
  }

  /**
   * Python's `s.split(pat)`: the pieces between the occurrences of `pat`,
   * found from left to right without overlapping. No piece contains `pat`.
   */
  function Split(s: string, pat: string): (parts: seq<string>)
    requires |pat| > 0
    ensures |parts| > 0
    ensures forall k :: 0 <= k < |parts| ==> FindFirst(parts[k], pat).None?
    decreases |s|
  {
    match FindFirst(s, pat)
    case None => [s]
    case Some(i) =>
      var head := s[..i];
      assert FindFirst(head, pat).None? by {
        forall j | 0 <= j <= |head| ensures !OccursAt(head, pat, j) {
          if j + |pat| <= |head| {
            assert head[j..j + |pat|] == s[j..j + |pat|];
            assert j < i;
            assert !OccursAt(s, pat, j);
          }
        }
      }
      [head] + Split(s[i + |pat|..], pat)
  }

  /** Python's `sep.join(parts)`. */
  function Join(parts: seq<string>, sep: string): string
    requires |parts| > 0
  {
    if |parts| == 1 then parts[0] else parts[0] + sep + Join(parts[1..], sep)
  }

  /** Joining the pieces of a split with the pattern gives back the string. */
  lemma {:induction false} SplitJoinRoundTrip(s: string, pat: string)
    requires |pat| > 0
    ensures Join(Split(s, pat), pat) == s
    decreases |s|
  {
    match FindFirst(s, pat)
    case None =>
    case Some(i) =>
      var rest := s[i + |pat|..];
      var parts := Split(s, pat);
      assert parts == [s[..i]] + Split(rest, pat);
      assert parts[1..] == Split(rest, pat);
      assert Join(parts, pat) == s[..i] + pat + Join(Split(rest, pat), pat);
      SplitJoinRoundTrip(rest, pat);
      assert s[i..i + |pat|] == pat;
      assert s == s[..i] + s[i..i + |pat|] + rest;
  }

  /** A string that does not start with `pat` keeps its first character under `replace`. */
  lemma ReplaceKeepsHead(s: string, pat: string, rep: string)
    requires |pat| > 0 && |s| > 0 && !OccursAt(s, pat, 0)
    ensures Replace(s, pat, rep) == [s[0]] + Replace(s[1..], pat, rep)
  {
    if |s| < |pat| {
      assert s == [s[0]] + s[1..];
    } else {
      assert s[..|pat|] != pat;
    }
  }

  /** Text before the first occurrence of `pat` passes through `replace` unchanged. */
  lemma {:induction false} ReplaceSkipsTo(s: string, pat: string, rep: string, i: nat)
    requires |pat| > 0 && i <= |s|
    requires forall j :: 0 <= j < i ==> !OccursAt(s, pat, j)
    ensures Replace(s, pat, rep) == s[..i] + Replace(s[i..], pat, rep)
    decreases i
  {
    if i > 0 {
      var t := s[1..];
      ReplaceKeepsHead(s, pat, rep);
      forall j | 0 <= j < i - 1 ensures !OccursAt(t, pat, j) {
        OccursAtShift(s, pat, j);
      }
      ReplaceSkipsTo(t, pat, rep, i - 1);
      var rest := Replace(s[i..], pat, rep);
      assert t[i - 1..] == s[i..];
      assert Replace(t, pat, rep) == t[..i - 1] + rest;
      assert s[..i] == [s[0]] + t[..i - 1];
      assert [s[0]] + (t[..i - 1] + rest) == s[..i] + rest;
    } else {
      assert s[..0] + s[0..] == s;
    }
  }

  /** A string that starts with `pat` has it replaced there. */
  lemma ReplaceLeading(y: string, pat: string, rep: string)
    requires |pat| > 0
    ensures Replace(pat + y, pat, rep) == rep + Replace(y, pat, rep)
  {
    var s := pat + y;
    assert s[..|pat|] == pat && s[|pat|..] == y;
  }

  /** After a prefix without the pattern's first character, the occurrence that follows is replaced. */
  lemma ReplaceAfterPrefix(x: string, y: string, pat: string, rep: string)
    requires |pat| > 0 && pat[0] !in x
    ensures Replace(x + (pat + y), pat, rep) == x + (rep + Replace(y, pat, rep))
  {
    ReplaceKeepsPrefix(x, pat + y, pat, rep);
    ReplaceLeading(y, pat, rep);
  }

  /** At an occurrence with none before it, `replace` writes `rep` and carries on after it. */
  lemma ReplaceAtOccurrence(s: string, pat: string, rep: string, i: nat)
    requires |pat| > 0 && OccursAt(s, pat, i)
    requires forall j :: 0 <= j < i ==> !OccursAt(s, pat, j)
    ensures Replace(s, pat, rep) == s[..i] + rep + Replace(s[i + |pat|..], pat, rep)
  {
    var rest := s[i + |pat|..];
    assert s[i..] == pat + rest by {
      assert s[i..i + |pat|] == pat;
      assert s[i..] == s[i..i + |pat|] + rest;
    }
    ReplaceLeading(rest, pat, rep);
    var x := Replace(rest, pat, rep);
    assert Replace(s[i..], pat, rep) == rep + x;
    ReplaceSkipsTo(s, pat, rep, i);
    assert s[..i] + (rep + x) == s[..i] + rep + x;
  }

  /** `replace` puts `rep` at the first occurrence of `pat` and carries on after it. */
  lemma ReplaceAtFirst(s: string, pat: string, rep: string, i: nat)
    requires |pat| > 0 && FindFirst(s, pat) == Some(i)
    ensures Replace(s, pat, rep) == s[..i] + rep + Replace(s[i + |pat|..], pat, rep)
  {
    ReplaceAtOccurrence(s, pat, rep, i);
  }

  /** An identity Python's `replace` satisfies: `s.replace(pat, rep) == rep.join(s.split(pat))`. */
  lemma {:induction false} ReplaceIsJoinOfSplit(s: string, pat: string, rep: string)
    requires |pat| > 0
    ensures Replace(s, pat, rep) == Join(Split(s, pat), rep)
    decreases |s|
  {
    match FindFirst(s, pat)
    case None =>
      ReplaceAbsent(s, pat, rep);
    case Some(i) =>
      var rest := s[i + |pat|..];
      ReplaceAtFirst(s, pat, rep, i);
      ReplaceIsJoinOfSplit(rest, pat, rep);
      assert Split(s, pat)[1..] == Split(rest, pat);
  }

  /** A string in which `pat` does not occur is left as it is by `replace`. */
  lemma {:induction false} ReplaceAbsent(s: string, pat: string, rep: string)
    requires |pat| > 0
    requires FindFirst(s, pat).None?
    ensures Replace(s, pat, rep) == s
    decreases |s|
  {
    if |s| >= |pat| {
      assert !OccursAt(s, pat, 0);
      assert FindFirst(s[1..], pat).None? by {
        forall j | 0 <= j <= |s[1..]| ensures !OccursAt(s[1..], pat, j) {
          OccursAtShift(s, pat, j);
        }
      }
      ReplaceAbsent(s[1..], pat, rep);
      assert s == [s[0]] + s[1..];
    }
  }

  /** A prefix without the pattern's first character passes through `replace` untouched. */
  lemma {:induction false} ReplaceKeepsPrefix(x: string, y: string, pat: string, rep: string)
    requires |pat| > 0 && pat[0] !in x
    ensures Replace(x + y, pat, rep) == x + Replace(y, pat, rep)
    decreases |x|
  {
    if |x| > 0 {
      var s := x + y;
      if |s| >= |pat| {
        assert s[..|pat|][0] == x[0];
      }
      assert s[1..] == x[1..] + y;
      ReplaceKeepsPrefix(x[1..], y, pat, rep);
    } else {
      assert x + y == y;
    }
  }

  /** Replacing a single character maps the string character by character. */
  lemma {:induction false} ReplaceCharPointwise(s: string, a: char, b: char)
    ensures |Replace(s, [a], [b])| == |s|
    ensures forall k :: 0 <= k < |s| ==> Replace(s, [a], [b])[k] == if s[k] == a then b else s[k]
    decreases |s|
  {
    if |s| > 0 {
      ReplaceCharPointwise(s[1..], a, b);
      assert s[..1] == [s[0]];
      var r := Replace(s, [a], [b]);
      var t := Replace(s[1..], [a], [b]);
      assert r == (if s[0] == a then [b] else [s[0]]) + t;
    }
  }

  /** Removing a single character (`replace(c, "")`) leaves none of it behind. */
  lemma {:induction false} RemoveCharGone(s: string, a: char)
    ensures a !in Replace(s, [a], "")
    decreases |s|
  {
    if |s| > 0 {
      RemoveCharGone(s[1..], a);
      assert s[..1] == [s[0]];
    }
  }

  /** Removing a single character distributes over concatenation. */
  lemma {:induction false} RemoveCharConcat(x: string, y: string, a: char)
    ensures Replace(x + y, [a], "") == Replace(x, [a], "") + Replace(y, [a], "")
    decreases |x|
  {
    if |x| == 0 {
      assert x + y == y;
    } else {
      RemoveCharConcat(x[1..], y, a);
      assert (x + y)[1..] == x[1..] + y;
      assert (x + y)[..1] == [x[0]] && x[..1] == [x[0]];
    }
  }

  predicate IsUpper(c: char) { 'A' <= c <= 'Z' }
  predicate IsLower(c: char) { 'a' <= c <= 'z' }

  /** An ASCII letter: the characters `title` treats as cased in this model. */
  predicate IsLetter(c: char) { IsUpper(c) || IsLower(c) }

  function ToUpper(c: char): (u: char)
    ensures IsLetter(c) ==> IsUpper(u)
    ensures !IsLetter(c) ==> u == c
  {
    if IsLower(c) then (c as int - 32) as char else c
  }

  function ToLower(c: char): (l: char)
    ensures IsLetter(c) ==> IsLower(l)
    ensures !IsLetter(c) ==> l == c
  {
    if IsUpper(c) then (c as int + 32) as char else c
  }

  /** A letter starts a word when it is first or follows a non-letter. */
  predicate StartsWord(s: string, k: nat, prevLetter: bool)
    requires k < |s|
  {
    if k == 0 then !prevLetter else !IsLetter(s[k - 1])
  }

  /**
   * Python's `str.title()` on ASCII, scanning from a state in which the
   * character before `s` was a letter (`prevLetter`) or not: every letter that
   * starts a word is upper-cased, every other letter lower-cased, and every
   * other character kept.
   */
  function TitleFrom(s: string, prevLetter: bool): (r: string)
    ensures |r| == |s|
    ensures forall k :: 0 <= k < |s| ==>
      r[k] == if !IsLetter(s[k]) then s[k]
              else if StartsWord(s, k, prevLetter) then ToUpper(s[k])
              else ToLower(s[k])
    decreases |s|
  {
    if s == [] then []
    else
      var c := if !IsLetter(s[0]) then s[0] else if prevLetter then ToLower(s[0]) else ToUpper(s[0]);
      var tail := TitleFrom(s[1..], IsLetter(s[0]));
      assert forall k :: 1 <= k < |s| ==> StartsWord(s[1..], k - 1, IsLetter(s[0])) == StartsWord(s, k, prevLetter);
      [c] + tail
  }

  /** Python's `str.title()` over ASCII. */
  function Title(s: string): (r: string)
    ensures |r| == |s|
  {
    TitleFrom(s, false)
  }

  /** `title` never adds or removes a given non-letter such as `_`. */
  lemma TitleKeepsNonLetter(s: string, c: char)
    requires !IsLetter(c)
    ensures c in Title(s) <==> c in s
  {
    var r := Title(s);
    if c in r {
      var k :| 0 <= k < |r| && r[k] == c;
      assert s[k] == c;
    }
    if c in s {
      var k :| 0 <= k < |s| && s[k] == c;
      assert r[k] == c;
    }
  }

  /** Title-casing a title-cased string changes nothing. */
  lemma TitleIdempotent(s: string)
    ensures Title(Title(s)) == Title(s)
  {
    var t := Title(s);
    var tt := Title(t);
    forall k | 0 <= k < |s| ensures tt[k] == t[k] {
      assert IsLetter(t[k]) <==> IsLetter(s[k]);
      if k > 0 {
        assert IsLetter(t[k - 1]) <==> IsLetter(s[k - 1]);
      }
    }
  }
}
