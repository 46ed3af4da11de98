/**
 * `Array.prototype.join` and `String.prototype.split` on strings, with the
 * two round trips that relate them.
 */
module Text {

  /** `xs.join(sep)`: the pieces in order, with `sep` between neighbours. */
  function Join(xs: seq<string>, sep: string): string
    decreases |xs|
  {
    if |xs| == 0 then ""
    else if |xs| == 1 then xs[0]
    else xs[0] + sep + Join(xs[1..], sep)
  }

  /**
   * `s.split(sep)` for a non-empty separator: scanning from the left, every
   * occurrence of `sep` ends one piece and starts the next. There is always at
   * least one piece (`"".split(sep)` is `[""]`).
   */
  function Split(s: string, sep: string): (pieces: seq<string>)
    requires |sep| > 0
    ensures |pieces| >= 1
    decreases |s|
  {
    if sep <= s then [""] + Split(s[|sep|..], sep)
    else if s == [] then [""]
    else
      var rest := Split(s[1..], sep);
      [[s[0]] + rest[0]] + rest[1..]
  }

  /** No piece of `xs` contains the character `c`. */
  predicate FreeOf(xs: seq<string>, c: char)
  {
    forall i :: 0 <= i < |xs| ==> c !in xs[i]
  }

  /** Joining prepends a prefix of the first piece to the whole result. */
  lemma JoinConsHead(a: string, b: string, rest: seq<string>, sep: string)
    ensures Join([a + b] + rest, sep) == a + Join([b] + rest, sep)
  {
  }

  /** Splitting and joining back with the same separator gives the string back. */
  lemma {:induction false} JoinSplit(s: string, sep: string)
    requires |sep| > 0
    ensures Join(Split(s, sep), sep) == s
    decreases |s|
  {
    if sep <= s {
      var rest := Split(s[|sep|..], sep);
      JoinSplit(s[|sep|..], sep);
      assert ([""] + rest)[1..] == rest;
      assert s == sep + s[|sep|..];
    } else if s == [] {
    } else {
      var rest := Split(s[1..], sep);
      JoinSplit(s[1..], sep);
      JoinConsHead([s[0]], rest[0], rest[1..], sep);
      assert [rest[0]] + rest[1..] == rest;
      assert s == [s[0]] + s[1..];
    }
  }

  /**
   * A leading stretch that holds no copy of the separator's first character
   * is glued onto the first piece of what follows it.
   */
  lemma {:induction false} SplitGlue(a: string, t: string, sep: string)
    requires |sep| > 0 && sep[0] !in a
    ensures Split(a + t, sep) == [a + Split(t, sep)[0]] + Split(t, sep)[1..]
    decreases |a|
  {
    if a == [] {
      assert a + t == t;
      assert a + Split(t, sep)[0] == Split(t, sep)[0];
      assert [Split(t, sep)[0]] + Split(t, sep)[1..] == Split(t, sep);
    } else {
      var s := a + t;
      assert s[0] == a[0] && a[0] != sep[0];
      assert !(sep <= s);
      assert s[1..] == a[1..] + t;
      SplitGlue(a[1..], t, sep);
      assert [s[0]] + (a[1..] + Split(t, sep)[0]) == a + Split(t, sep)[0];
    }
  }

  /** Joining and splitting back returns the pieces, when no piece holds `sep[0]`. */
  lemma {:induction false} SplitJoin(xs: seq<string>, sep: string)
    requires |sep| > 0 && |xs| > 0 && FreeOf(xs, sep[0])
    ensures Split(Join(xs, sep), sep) == xs
    decreases |xs|
  {
    if |xs| == 1 {
      SplitGlue(xs[0], "", sep);
      assert xs[0] + "" == xs[0];
    } else {
      var t := Join(xs[1..], sep);
      assert FreeOf(xs[1..], sep[0]) by {
        forall i | 0 <= i < |xs[1..]| ensures sep[0] !in xs[1..][i] {
          assert xs[1..][i] == xs[i + 1];
        }
      }
      SplitJoin(xs[1..], sep);
      assert sep[0] !in xs[0] by { assert FreeOf(xs, sep[0]); }
      SplitGlue(xs[0], sep + t, sep);
      assert (sep + t)[|sep|..] == t;
      assert sep <= sep + t;
      assert Split(sep + t, sep) == [""] + Split(t, sep);
      assert Join(xs, sep) == xs[0] + (sep + t);
      assert xs[0] + "" == xs[0];
      assert xs == [xs[0]] + xs[1..];
    }
  }

  /**
   * The first piece of a split is a prefix of the string, holds no occurrence
   * of the separator, and is either the whole string or followed by `sep`.
   */
  lemma {:induction false} SplitHead(s: string, sep: string)
    requires |sep| > 0
    ensures Split(s, sep)[0] <= s
    ensures forall i :: 0 <= i < |Split(s, sep)[0]| ==> !(sep <= s[i..])
    ensures Split(s, sep)[0] == s || sep <= s[|Split(s, sep)[0]|..]
    decreases |s|
  {
    if sep <= s {
    } else if s == [] {
    } else {
      SplitHead(s[1..], sep);
      var p := Split(s, sep)[0];
      var q := Split(s[1..], sep)[0];
      assert p == [s[0]] + q;
      forall i | 0 <= i < |p| ensures !(sep <= s[i..]) {
        if i > 0 {
          assert s[i..] == s[1..][i - 1..];
        }
      }
      assert s[|p|..] == s[1..][|q|..];
    }
  }

  /** The empty string is exactly the join of no pieces or of one empty piece. */
  lemma JoinEmpty(xs: seq<string>, sep: string)
    requires |sep| > 0
    ensures Join(xs, sep) == "" <==> xs == [] || xs == [""]
  {
  }
}
