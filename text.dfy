/**
 * The registration request carries its scopes as one string: the scope list
 * joined with a single space (ECMAScript's `Array.prototype.join`).  A platform
 * reads it back as a space-separated list, as section 2 of RFC 7591 defines the
 * `scope` member.  `Join` and `Split` model the two directions; the lemmas show
 * that they are inverse to each other.
 */
module Text {

  /** `xs.join([sep])`: the elements with one `sep` between neighbours; "" for no elements. */
  function Join(xs: seq<string>, sep: char): (joined: string)
    ensures sep in joined <==> |xs| > 1 || exists i :: 0 <= i < |xs| && sep in xs[i]
  {
    if |xs| == 0 then ""
    else if |xs| == 1 then xs[0]
    else xs[0] + [sep] + Join(xs[1..], sep)
  }

  /**
   * `s.split(sep)` for a one-character separator: the pieces between the
   * occurrences of `sep`, so "" splits into [""] and n separators give n + 1 pieces.
   * Joining the pieces gives `s` back, and no piece contains the separator.
   */
  function Split(s: string, sep: char): (parts: seq<string>)
    ensures |parts| > 0
    ensures Join(parts, sep) == s
    ensures forall i :: 0 <= i < |parts| ==> sep !in parts[i]
  {
    if |s| == 0 then [""]
    else
      var rest := Split(s[1..], sep);
      if s[0] == sep then
        JoinCons("", rest, sep);
        [""] + rest
      else
        JoinCons(rest[0], rest[1..], sep);
        JoinCons([s[0]] + rest[0], rest[1..], sep);
        assert [rest[0]] + rest[1..] == rest;
        [[s[0]] + rest[0]] + rest[1..]
  }

  /** Joining `[a] + xs` puts `a` in front of the joined rest, separated when the rest is non-empty. */
  lemma JoinCons(a: string, xs: seq<string>, sep: char)
    ensures Join([a] + xs, sep) == if |xs| == 0 then a else a + [sep] + Join(xs, sep)
  {
  }

  /** A string without the separator is one piece. */
  lemma SplitWithoutSeparator(a: string, sep: char)
    requires sep !in a
    ensures Split(a, sep) == [a]
  {
  }

  /** A separator-free prefix followed by the separator is split off as the first piece. */
  lemma {:induction false} SplitAfterPiece(a: string, b: string, sep: char)
    requires sep !in a
    ensures Split(a + [sep] + b, sep) == [a] + Split(b, sep)
  {
    if |a| == 0 {
      assert a + [sep] + b == [sep] + b;
      assert ([sep] + b)[1..] == b;
    } else {
      var s := a + [sep] + b;
      assert s[0] == a[0] && s[1..] == a[1..] + [sep] + b;
      assert sep !in a[1..];
      SplitAfterPiece(a[1..], b, sep);
      assert [a[0]] + a[1..] == a;
    }
  }

  /** Splitting a join of separator-free pieces gives the pieces back. */
  lemma {:induction false} SplitJoin(xs: seq<string>, sep: char)
    requires |xs| > 0
    requires forall i :: 0 <= i < |xs| ==> sep !in xs[i]
    ensures Split(Join(xs, sep), sep) == xs
  {
    if |xs| == 1 {
      SplitWithoutSeparator(xs[0], sep);
    } else {
      SplitAfterPiece(xs[0], Join(xs[1..], sep), sep);
      SplitJoin(xs[1..], sep);
      assert [xs[0]] + xs[1..] == xs;
    }
  }
}
