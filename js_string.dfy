/**
 * The few pieces of JavaScript string semantics that the middleware relies on:
 * truthiness of a possibly undefined string, `String.prototype.startsWith`, the
 * `||` operator on such values, and `String.prototype.split(" ")` with indexing
 * into its result.
 */
module JsString {
  import opened Wrappers

  /** A string that may be `undefined`, as a header or cookie value read in JavaScript. */
  type JsStr = Option<string>

  /** JavaScript truthiness: `undefined` and the empty string are falsy, every other string is truthy. */
  predicate Truthy(v: JsStr) {
    v.Some? && v.value != ""
  }

  /** `a || b`: the left operand when it is truthy, otherwise the right operand, whatever it is. */
  function Or(a: JsStr, b: JsStr): (r: JsStr)
    ensures Truthy(a) ==> r == a
    ensures !Truthy(a) ==> r == b
    ensures Truthy(r) <==> Truthy(a) || Truthy(b)
    ensures r == a || r == b
  {
    if Truthy(a) then a else b
  }

  /** `(a || b) || c` and `a || (b || c)` are the same value, so a chain of `||` reads left to right. */
  lemma OrAssociative(a: JsStr, b: JsStr, c: JsStr)
    ensures Or(Or(a, b), c) == Or(a, Or(b, c))
  {
  }

  /** `s.startsWith(prefix)`: a case-sensitive prefix test. */
  predicate StartsWith(s: string, prefix: string) {
    prefix <= s
  }

  /**
   * `s.split(" ")`: the pieces of `s` between single spaces, in order. There is
   * always at least one piece; two adjacent spaces, or a leading or trailing
   * space, give an empty piece.
   */
  function Split(s: string): (pieces: seq<string>)
    ensures |pieces| >= 1
    decreases |s|
  {
    if s == [] then [""]
    else
      var rest := Split(s[1..]);
      if s[0] == ' ' then [""] + rest
      else [[s[0]] + rest[0]] + rest[1..]
  }

  /** `pieces.join(" ")`: the inverse of `Split`. */
  function Join(pieces: seq<string>): string
    requires |pieces| >= 1
  {
    if |pieces| == 1 then pieces[0]
    else pieces[0] + " " + Join(pieces[1..])
  }

  /** `pieces[i]` in JavaScript: `undefined` past the end of the array. */
  function Piece(pieces: seq<string>, i: nat): (r: JsStr)
    ensures r.Some? <==> i < |pieces|
    ensures r.Some? ==> r.value == pieces[i]
  {
    if i < |pieces| then Some(pieces[i]) else None
  }

  predicate NoSpace(s: string) {
    ' ' !in s
  }

  /** Joining the pieces again with single spaces gives back the original string. */
  lemma {:induction false} JoinSplit(s: string)
    ensures Join(Split(s)) == s
    decreases |s|
  {
    if s != [] {
      var rest := Split(s[1..]);
      JoinSplit(s[1..]);
      if s[0] == ' ' {
        assert ([""] + rest)[1..] == rest;
      } else if |rest| > 1 {
        var pieces := [[s[0]] + rest[0]] + rest[1..];
        assert pieces[1..] == rest[1..];
        assert Join(rest) == rest[0] + " " + Join(rest[1..]);
        assert s == [s[0]] + s[1..];
      } else {
        assert s == [s[0]] + s[1..];
      }
    }
  }

  /** No piece that `Split` returns contains a space. */
  lemma {:induction false} SplitPiecesHaveNoSpace(s: string)
    ensures forall i :: 0 <= i < |Split(s)| ==> NoSpace(Split(s)[i])
    decreases |s|
  {
    if s != [] {
      SplitPiecesHaveNoSpace(s[1..]);
      var rest := Split(s[1..]);
      if s[0] != ' ' {
        assert NoSpace(rest[0]);
        assert NoSpace([s[0]] + rest[0]);
      }
    }
  }

  /** A string without a space is a single piece. */
  lemma {:induction false} SplitNoSpace(a: string)
    requires NoSpace(a)
    ensures Split(a) == [a]
    decreases |a|
  {
    if a != [] {
      SplitNoSpace(a[1..]);
      assert [a[0]] + a[1..] == a;
    }
  }

  /** Everything before the first space is the first piece; the rest is split on its own. */
  lemma {:induction false} SplitAtFirstSpace(a: string, b: string)
    requires NoSpace(a)
    ensures Split(a + " " + b) == [a] + Split(b)
    decreases |a|
  {
    var s := a + " " + b;
    if a == [] {
      assert s[1..] == b;
    } else {
      assert s[1..] == a[1..] + " " + b;
      SplitAtFirstSpace(a[1..], b);
      assert [a[0]] + a[1..] == a;
    }
  }

  /** Splitting pieces that hold no space after joining them gives back the same pieces. */
  lemma {:induction false} SplitJoin(pieces: seq<string>)
    requires |pieces| >= 1
    requires forall i :: 0 <= i < |pieces| ==> NoSpace(pieces[i])
    ensures Split(Join(pieces)) == pieces
    decreases |pieces|
  {
    if |pieces| == 1 {
      SplitNoSpace(pieces[0]);
    } else {
      SplitJoin(pieces[1..]);
      SplitAtFirstSpace(pieces[0], Join(pieces[1..]));
      assert [pieces[0]] + pieces[1..] == pieces;
    }
  }
}
