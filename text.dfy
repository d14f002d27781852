/** The three Python string operations the action relies on: `sep.join(parts)`,
    `s.split(sep)` with an explicit one-character separator, and `s.lower()`. */
module Text {

  /** Python's `sep.join(parts)`: the parts with one separator between neighbours. */
  function Join(parts: seq<string>, sep: char): string
  {
    if |parts| == 0 then ""
    else if |parts| == 1 then parts[0]
    else parts[0] + [sep] + Join(parts[1..], sep)
  }

  /** Number of occurrences of `c` in `s`. */
  function Count(s: string, c: char): nat
  {
    if s == [] then 0 else (if s[0] == c then 1 else 0) + Count(s[1..], c)
  }

  /** Python's `s.split(sep)`: the pieces between separators, empty ones kept,
      so that `"".split(",") == [""]` and `"a,,b".split(",") == ["a", "", "b"]`. */
  function Split(s: string, sep: char): (pieces: seq<string>)
    ensures |pieces| == Count(s, sep) + 1
    ensures forall i :: 0 <= i < |pieces| ==> sep !in pieces[i]
    ensures Join(pieces, sep) == s
  {
    if s == [] then [""]
    else
      var rest := Split(s[1..], sep);
      if s[0] == sep then
        assert ([""] + rest)[1..] == rest;
        [""] + rest
      else
        var pieces := [[s[0]] + rest[0]] + rest[1..];
        assert pieces[1..] == rest[1..];
        assert |rest| > 1 ==> Join(rest, sep) == rest[0] + [sep] + Join(rest[1..], sep);
        pieces
  }

  /** Splitting a text whose first `a` holds no separator glues `a` onto the first piece. */
  lemma {:induction false} SplitPrepend(a: string, t: string, sep: char)
    requires sep !in a
    ensures Split(a + t, sep) == [a + Split(t, sep)[0]] + Split(t, sep)[1..]
  {
    if a != [] {
      assert (a + t)[1..] == a[1..] + t;
      SplitPrepend(a[1..], t, sep);
      assert [a[0]] + (a[1..] + Split(t, sep)[0]) == a + Split(t, sep)[0];
    } else {
      var pieces := Split(t, sep);
      assert a + t == t && a + pieces[0] == pieces[0];
      assert pieces == [pieces[0]] + pieces[1..];
    }
  }

  /** Splitting undoes joining, when no part holds the separator. */
  lemma {:induction false} SplitJoin(parts: seq<string>, sep: char)
    requires |parts| >= 1
    requires forall i :: 0 <= i < |parts| ==> sep !in parts[i]
    ensures Split(Join(parts, sep), sep) == parts
  {
    if |parts| == 1 {
      SplitPrepend(parts[0], "", sep);
      assert parts[0] + "" == parts[0];
    } else {
      var rest := parts[1..];
      SplitJoin(rest, sep);
      var tail := [sep] + Join(rest, sep);
      assert parts[0] + [sep] + Join(rest, sep) == parts[0] + tail;
      SplitPrepend(parts[0], tail, sep);
      assert tail[1..] == Join(rest, sep);
      assert Split(tail, sep) == [""] + rest;
      assert parts[0] + "" == parts[0];
      assert parts == [parts[0]] + rest;
    }
  }

  /** A character of any part is a character of the joined text. */
  lemma {:induction false} JoinKeepsChars(parts: seq<string>, sep: char, i: nat, c: char)
    requires i < |parts| && c in parts[i]
    ensures c in Join(parts, sep)
  {
    if |parts| > 1 {
      if i > 0 {
        JoinKeepsChars(parts[1..], sep, i - 1, c);
      }
      assert Join(parts, sep) == parts[0] + ([sep] + Join(parts[1..], sep));
    }
  }

  /** A character missing from `s` is missing from every piece of `Split(s, sep)`. */
  lemma SplitPiecesAvoid(s: string, sep: char, c: char)
    requires c !in s
    ensures forall i :: 0 <= i < |Split(s, sep)| ==> c !in Split(s, sep)[i]
  {
    var pieces := Split(s, sep);
    forall i | 0 <= i < |pieces| ensures c !in pieces[i] {
      if c in pieces[i] {
        JoinKeepsChars(pieces, sep, i, c);
      }
    }
  }

  /** A part that holds the separator joins to the same text as its two halves
      given as separate parts: joining cannot tell the two apart. */
  lemma {:induction false} JoinMerges(p: seq<string>, a: string, b: string, q: seq<string>, sep: char)
    ensures Join(p + [a + [sep] + b] + q, sep) == Join(p + [a, b] + q, sep)
  {
    if p == [] {
      assert p + [a + [sep] + b] + q == [a + [sep] + b] + q;
      assert p + [a, b] + q == [a, b] + q;
      assert ([a, b] + q)[1..] == [b] + q;
      if q != [] {
        assert ([a + [sep] + b] + q)[1..] == q;
        assert ([b] + q)[1..] == q;
      }
    } else {
      JoinMerges(p[1..], a, b, q, sep);
      assert (p + [a + [sep] + b] + q)[1..] == p[1..] + [a + [sep] + b] + q;
      assert (p + [a, b] + q)[1..] == p[1..] + [a, b] + q;
    }
  }

  /** Python's `str.lower()` on one character, for the ASCII letters. */
  function LowerChar(c: char): char
  {
    if 'A' <= c <= 'Z' then (c as int + 32) as char else c
  }

  /** Python's `s.lower()`, ASCII letters only. */
  function Lower(s: string): string
  {
    seq(|s|, i requires 0 <= i < |s| => LowerChar(s[i]))
  }

  /** `w` spelled in lower-case ASCII letters only. */
  predicate LowerWord(w: string)
  {
    forall i :: 0 <= i < |w| ==> 'a' <= w[i] <= 'z'
  }

  /** `s` spells the lower-case word `w` letter by letter, each letter either as
      written in `w` or as its upper-case form. */
  predicate EqualsIgnoringCase(s: string, w: string)
  {
    |s| == |w| && forall i :: 0 <= i < |s| ==> s[i] == w[i] || s[i] as int == w[i] as int - 32
  }

  /** Comparing `s.lower()` with a lower-case word is a comparison that ignores
      case, letter by letter: `Lower(s) == "true"` holds exactly for the sixteen
      spellings `true`, `TRUE`, `True`, `tRuE`, .... */
  lemma LowerMatchesIgnoringCase(s: string, w: string)
    requires LowerWord(w)
    ensures Lower(s) == w <==> EqualsIgnoringCase(s, w)
  {
    if Lower(s) == w {
      forall i | 0 <= i < |s| ensures s[i] == w[i] || s[i] as int == w[i] as int - 32 {
        assert LowerChar(s[i]) == w[i];
      }
    }
    if EqualsIgnoringCase(s, w) {
      forall i | 0 <= i < |s| ensures Lower(s)[i] == w[i] {
        assert LowerChar(s[i]) == w[i];
      }
    }
  }
}
