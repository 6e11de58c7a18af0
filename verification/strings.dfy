/** `str::split` on a single character, as `CartridgeContext::filename` uses it. */
module Strings {

  /** The pieces joined back together with the separator between each two. */
  function Join(parts: seq<string>, sep: char): string
    requires |parts| >= 1
  {
    if |parts| == 1 then parts[0] else parts[0] + [sep] + Join(parts[1..], sep)
  }

  /**
   * `s.split(sep)`: the maximal runs of `s` between separators, in order. An
   * empty string, or a separator at either end, yields an empty piece, so
   * there is always at least one piece and joining them gives `s` back.
   */
  function Split(s: string, sep: char): (parts: seq<string>)
    ensures |parts| >= 1
    ensures forall i :: 0 <= i < |parts| ==> sep !in parts[i]
    ensures Join(parts, sep) == s
    ensures |parts| == 1 <==> sep !in s
  {
    if |s| == 0 then
      [""]
    else
      var rest := Split(s[1..], sep);
      if s[0] == sep then
        assert s == [] + [sep] + Join(rest, sep);
        [""] + rest
      else
        var parts := [[s[0]] + rest[0]] + rest[1..];
        assert parts[1..] == rest[1..];
        parts
  }

  /** Splitting a separator-free piece, a separator and more text yields that piece first. */
  lemma {:induction false} SplitAfterPiece(piece: string, sep: char, t: string)
    requires sep !in piece
    ensures Split(piece + [sep] + t, sep) == [piece] + Split(t, sep)
  {
    var s := piece + [sep] + t;
    if |piece| == 0 {
      assert s[0] == sep && s[1..] == t;
      assert Split(s, sep) == [""] + Split(t, sep);
    } else {
      assert s[0] == piece[0] != sep;
      assert s[1..] == piece[1..] + [sep] + t;
      SplitAfterPiece(piece[1..], sep, t);
      var rest := Split(s[1..], sep);
      assert rest == [piece[1..]] + Split(t, sep);
      assert Split(s, sep) == [[s[0]] + rest[0]] + rest[1..];
      assert rest[1..] == Split(t, sep);
      assert [piece[0]] + piece[1..] == piece;
    }
  }

  /**
   * Joining separator-free pieces and splitting the result gives the pieces
   * back, so `Split` and `Join` are inverse to each other.
   */
  lemma {:induction false} SplitJoin(parts: seq<string>, sep: char)
    requires |parts| >= 1
    requires forall i :: 0 <= i < |parts| ==> sep !in parts[i]
    ensures Split(Join(parts, sep), sep) == parts
  {
    if |parts| == 1 {
      var pieces := Split(parts[0], sep);
      assert |pieces| == 1;
    } else {
      SplitJoin(parts[1..], sep);
      SplitAfterPiece(parts[0], sep, Join(parts[1..], sep));
      assert [parts[0]] + parts[1..] == parts;
    }
  }

  /** The last piece of a join follows the last separator, or is the whole string. */
  lemma {:induction false} JoinEndsWithLast(parts: seq<string>, sep: char)
    requires |parts| >= 1
    ensures var s, last := Join(parts, sep), parts[|parts| - 1];
      |last| <= |s| && s[|s| - |last|..] == last
      && (|parts| > 1 ==> |last| < |s| && s[|s| - |last| - 1] == sep)
      && (|parts| == 1 ==> s == last)
  {
    if |parts| > 1 {
      JoinEndsWithLast(parts[1..], sep);
      var tail := Join(parts[1..], sep);
      assert Join(parts, sep) == (parts[0] + [sep]) + tail;
      if |parts| == 2 {
        assert tail == parts[1];
      }
    }
  }

  /**
   * The last piece of `s.split(sep)`: the text after the last separator, or
   * all of `s` when it has none. It never contains the separator.
   */
  function LastPiece(s: string, sep: char): (piece: string)
    ensures sep !in piece
    ensures |piece| <= |s| && s[|s| - |piece|..] == piece
    ensures sep in s ==> |piece| < |s| && s[|s| - |piece| - 1] == sep
    ensures sep !in s ==> piece == s
  {
    var parts := Split(s, sep);
    JoinEndsWithLast(parts, sep);
    parts[|parts| - 1]
  }
}
