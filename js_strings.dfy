/**
 * The JavaScript string operations the deployment utilities rely on:
 * `String.prototype.split` with a one-character separator,
 * `Array.prototype.join` / `toString` (which joins with ","), and
 * `replace(/\s+/g, "")`, which deletes every whitespace character.
 */
module JsStrings {

  /** The characters matched by `\s` in an ECMAScript regular expression. */
  predicate IsWhitespace(c: char) {
    || c == '\t' || c == '\n' || c == '\U{000B}' || c == '\U{000C}' || c == '\r'
    || c == ' ' || c == '\U{00A0}' || c == '\U{1680}'
    || ('\U{2000}' <= c <= '\U{200A}')
    || c == '\U{2028}' || c == '\U{2029}' || c == '\U{202F}' || c == '\U{205F}'
    || c == '\U{3000}' || c == '\U{FEFF}'
  }

  predicate WhitespaceFree(s: string) {
    forall i :: 0 <= i < |s| ==> !IsWhitespace(s[i])
  }

  /** `s.replace(/\s+/g, "")`: the characters of `s` that are not whitespace, in order. */
  function RemoveWhitespace(s: string): (r: string)
    ensures WhitespaceFree(r)
    ensures |r| <= |s|
    ensures WhitespaceFree(s) ==> r == s
  {
    if s == [] then []
    else if IsWhitespace(s[0]) then RemoveWhitespace(s[1..])
    else [s[0]] + RemoveWhitespace(s[1..])
  }

  /**
   * Removing whitespace works character by character: the kept characters of
   * `a + b` are those of `a` followed by those of `b`. With RemoveWhitespaceCons
   * this fixes the result for every string.
   */
  lemma {:induction false} RemoveWhitespaceAppend(a: string, b: string)
    ensures RemoveWhitespace(a + b) == RemoveWhitespace(a) + RemoveWhitespace(b)
  {
    if a != [] {
      var kept := if IsWhitespace(a[0]) then [] else [a[0]];
      calc {
        RemoveWhitespace(a + b);
        { assert a + b == [a[0]] + (a[1..] + b); }
        RemoveWhitespace([a[0]] + (a[1..] + b));
        { RemoveWhitespaceCons(a[0], a[1..] + b); }
        kept + RemoveWhitespace(a[1..] + b);
        { RemoveWhitespaceAppend(a[1..], b); }
        kept + (RemoveWhitespace(a[1..]) + RemoveWhitespace(b));
        (kept + RemoveWhitespace(a[1..])) + RemoveWhitespace(b);
        { assert [a[0]] + a[1..] == a; RemoveWhitespaceCons(a[0], a[1..]); }
        RemoveWhitespace(a) + RemoveWhitespace(b);
      }
    } else {
      assert a + b == b;
    }
  }

  /**
   * The first character is dropped if it is whitespace and kept otherwise; with
   * `t == ""` this gives the one-character strings.
   */
  lemma RemoveWhitespaceCons(c: char, t: string)
    ensures RemoveWhitespace([c] + t) == (if IsWhitespace(c) then [] else [c]) + RemoveWhitespace(t)
  {
    assert ([c] + t)[0] == c && ([c] + t)[1..] == t;
  }

  /**
   * `s.split(sep)` for a one-character separator: the maximal separator-free
   * pieces of `s`, so there is always at least one piece and `"".split(sep)`
   * is `[""]`.
   */
  function Split(s: string, sep: char): (parts: seq<string>)
    ensures |parts| >= 1
    ensures forall k :: 0 <= k < |parts| ==> sep !in parts[k]
    ensures parts[0] <= s
    ensures |parts[0]| < |s| ==> s[|parts[0]|] == sep
    ensures |parts| == 1 <==> sep !in s
    decreases |s|
  {
    if s == [] then [""]
    else
      var rest := Split(s[1..], sep);
      if s[0] == sep then [""] + rest
      else [[s[0]] + rest[0]] + rest[1..]
  }

  /** `parts.join(sep)`; with `sep == ','` this is also `parts.toString()`. */
  function Join(parts: seq<string>, sep: char): (s: string)
    ensures |parts| == 0 ==> s == ""
    ensures |parts| >= 1 ==> parts[0] <= s
    ensures |parts| >= 2 ==> |parts[0]| < |s| && s[|parts[0]|] == sep
  {
    if |parts| == 0 then ""
    else if |parts| == 1 then parts[0]
    else parts[0] + [sep] + Join(parts[1..], sep)
  }

  /** A string without the separator splits into itself alone. */
  lemma {:induction false} SplitSeparatorFree(s: string, sep: char)
    requires sep !in s
    ensures Split(s, sep) == [s]
  {
    if s != [] {
      SplitSeparatorFree(s[1..], sep);
      assert [s[0]] + s[1..] == s;
    }
  }

  /** Splitting looks at one character at a time: a separator starts a new piece, any other character extends the first one. */
  lemma SplitCons(c: char, t: string, sep: char)
    ensures Split([c] + t, sep) ==
      if c == sep then [""] + Split(t, sep) else [[c] + Split(t, sep)[0]] + Split(t, sep)[1..]
  {
    assert ([c] + t)[0] == c && ([c] + t)[1..] == t;
  }

  /** Splitting stops at the first separator and resumes after it. */
  lemma {:induction false} SplitAtSeparator(a: string, sep: char, b: string)
    requires sep !in a
    ensures Split(a + [sep] + b, sep) == [a] + Split(b, sep)
  {
    if a == [] {
      assert a + [sep] + b == [sep] + b;
      SplitCons(sep, b, sep);
    } else {
      var t := a[1..] + [sep] + b;
      calc {
        Split(a + [sep] + b, sep);
        { assert a + [sep] + b == [a[0]] + t; }
        Split([a[0]] + t, sep);
        { SplitCons(a[0], t, sep); }
        [[a[0]] + Split(t, sep)[0]] + Split(t, sep)[1..];
        { SplitAtSeparator(a[1..], sep, b); }
        [[a[0]] + a[1..]] + Split(b, sep);
        { assert [a[0]] + a[1..] == a; }
        [a] + Split(b, sep);
      }
    }
  }

  /** Two or more parts join as the first part, the separator and the join of the rest. */
  lemma JoinCons(parts: seq<string>, sep: char)
    requires |parts| >= 2
    ensures Join(parts, sep) == parts[0] + [sep] + Join(parts[1..], sep)
  {
  }

  /** Joining separator-free pieces and splitting the result gives the pieces back. */
  lemma {:induction false} SplitJoin(parts: seq<string>, sep: char)
    requires |parts| >= 1
    requires forall k :: 0 <= k < |parts| ==> sep !in parts[k]
    ensures Split(Join(parts, sep), sep) == parts
  {
    if |parts| == 1 {
      SplitSeparatorFree(parts[0], sep);
    } else {
      SplitJoin(parts[1..], sep);
      JoinCons(parts, sep);
      SplitAtSeparator(parts[0], sep, Join(parts[1..], sep));
      assert [parts[0]] + parts[1..] == parts;
    }
  }

  /** An empty first part puts the separator in front of the join of the rest. */
  lemma JoinAfterEmpty(rest: seq<string>, sep: char)
    requires |rest| >= 1
    ensures Join([""] + rest, sep) == [sep] + Join(rest, sep)
  {
    var parts := [""] + rest;
    assert parts[0] == "" && parts[1..] == rest;
    JoinCons(parts, sep);
  }

  /** Prefixing a character to the first part prefixes it to the join. */
  lemma JoinExtendFirst(c: char, rest: seq<string>, sep: char)
    requires |rest| >= 1
    ensures Join([[c] + rest[0]] + rest[1..], sep) == [c] + Join(rest, sep)
  {
    var parts := [[c] + rest[0]] + rest[1..];
    if |rest| >= 2 {
      assert parts[0] == [c] + rest[0] && parts[1..] == rest[1..];
      JoinCons(parts, sep);
      JoinCons(rest, sep);
    }
  }

  /** Splitting and re-joining on the same separator gives back the original string. */
  lemma {:induction false} JoinSplit(s: string, sep: char)
    ensures Join(Split(s, sep), sep) == s
    decreases |s|
  {
    if s != [] {
      JoinSplit(s[1..], sep);
      assert s == [s[0]] + s[1..];
      SplitCons(s[0], s[1..], sep);
      if s[0] == sep {
        JoinAfterEmpty(Split(s[1..], sep), sep);
      } else {
        JoinExtendFirst(s[0], Split(s[1..], sep), sep);
      }
    }
  }

  /** Joining whitespace-free pieces on a non-whitespace separator leaves no whitespace. */
  lemma {:induction false} JoinWhitespaceFree(parts: seq<string>, sep: char)
    requires !IsWhitespace(sep)
    requires forall k :: 0 <= k < |parts| ==> WhitespaceFree(parts[k])
    ensures WhitespaceFree(Join(parts, sep))
  {
    if |parts| > 1 {
      JoinWhitespaceFree(parts[1..], sep);
      var tail := Join(parts[1..], sep);
      var s := parts[0] + [sep] + tail;
      forall i | 0 <= i < |s| ensures !IsWhitespace(s[i]) {
        if i < |parts[0]| {
          assert s[i] == parts[0][i];
        } else if i == |parts[0]| {
          assert s[i] == sep;
        } else {
          assert s[i] == tail[i - |parts[0]| - 1];
        }
      }
    }
  }
}
