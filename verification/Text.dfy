/** Splitting on a separator, joining, and order-keeping removal of duplicates. */
module Text {
  /** Python's `s.split(sep)`: always at least one piece. */
  function Split<T(==)>(s: seq<T>, sep: T): (parts: seq<seq<T>>)
    ensures |parts| >= 1
    ensures forall i :: 0 <= i < |parts| ==> sep !in parts[i]
  {
    if s == [] then [[]]
    else
      var rest := Split(s[1..], sep);
      if s[0] == sep then [[]] + rest else [[s[0]] + rest[0]] + rest[1..]
  }

  /** Python's `sep.join(parts)`. */
  function Join<T>(parts: seq<seq<T>>, sep: T): seq<T> {
    if parts == [] then []
    else if |parts| == 1 then parts[0]
    else parts[0] + [sep] + Join(parts[1..], sep)
  }

  predicate StartsWith(s: string, prefix: string) { prefix <= s }

  predicate EndsWith(s: string, suffix: string) {
    |suffix| <= |s| && s[|s| - |suffix|..] == suffix
  }

  predicate Contains(s: string, marker: string) {
    StartsWith(s, marker) || (s != "" && Contains(s[1..], marker))
  }

  lemma PrefixIff(s: string, prefix: string)
    ensures StartsWith(s, prefix) <==> exists rest :: s == prefix + rest
  {
    if StartsWith(s, prefix) {
      assert s == prefix + s[|prefix|..];
    }
  }

  lemma SuffixIff(s: string, suffix: string)
    ensures EndsWith(s, suffix) <==> exists front :: s == front + suffix
  {
    if EndsWith(s, suffix) {
      assert s == s[..|s| - |suffix|] + suffix;
    }
  }

  lemma {:induction false} ContainedSplits(s: string, marker: string) returns (front: string, rest: string)
    requires Contains(s, marker)
    ensures s == front + marker + rest
  {
    if StartsWith(s, marker) {
      front, rest := "", s[|marker|..];
    } else {
      front, rest := ContainedSplits(s[1..], marker);
      front := [s[0]] + front;
    }
  }

  lemma {:induction false} SplitIsContained(front: string, marker: string, rest: string)
    ensures Contains(front + marker + rest, marker)
  {
    var s := front + marker + rest;
    if front == "" {
      assert s == marker + rest;
    } else {
      SplitIsContained(front[1..], marker, rest);
      assert s[1..] == front[1..] + marker + rest;
    }
  }

  lemma ContainsIff(s: string, marker: string)
    ensures Contains(s, marker) <==> exists front, rest :: s == front + marker + rest
  {
    if Contains(s, marker) {
      var front, rest := ContainedSplits(s, marker);
    }
    forall front, rest | s == front + marker + rest ensures Contains(s, marker) {
      SplitIsContained(front, marker, rest);
    }
  }

  lemma {:induction false} SplitPrefix<T>(piece: seq<T>, s: seq<T>, sep: T)
    requires sep !in piece
    ensures Split(piece + [sep] + s, sep) == [piece] + Split(s, sep)
  {
    if piece == [] {
      assert ([] + [sep] + s)[1..] == s;
    } else {
      assert (piece + [sep] + s)[1..] == piece[1..] + [sep] + s;
      SplitPrefix(piece[1..], s, sep);
      assert [piece[0]] + piece[1..] == piece;
      assert ([piece[1..]] + Split(s, sep))[1..] == Split(s, sep);
    }
  }

  /** `s[i..j]` is what lies between two separators, or a separator and an end. */
  ghost predicate IsPiece<T(!new)>(s: seq<T>, sep: T, i: int, j: int) {
    && 0 <= i <= j <= |s| && sep !in s[i..j]
    && (i == 0 || s[i - 1] == sep) && (j == |s| || s[j] == sep)
  }

  lemma PieceBehind<T(!new)>(s: seq<T>, sep: T, i: int, j: int)
    requires s != [] && 0 < i
    ensures IsPiece(s, sep, i, j) <==> (i == 1 ==> s[0] == sep) && IsPiece(s[1..], sep, i - 1, j - 1)
    ensures IsPiece(s, sep, i, j) ==> s[i..j] == s[1..][i - 1..j - 1]
  {
    if i <= j <= |s| {
      var rest := s[1..];
      assert |rest[i - 1..j - 1]| == |s[i..j]|;
      assert forall k :: 0 <= k < j - i ==> rest[i - 1..j - 1][k] == s[i..j][k];
      assert rest[i - 1..j - 1] == s[i..j];
    }
  }

  /** The first piece of a split reaches to the first separator. */
  lemma {:induction false} FirstPiece<T(!new)>(s: seq<T>, sep: T, j: int)
    ensures IsPiece(s, sep, 0, j) <==> j == |Split(s, sep)[0]|
    ensures Split(s, sep)[0] <= s
  {
    if s != [] {
      FirstPiece(s[1..], sep, j - 1);
      if s[0] != sep {
        if 0 < j <= |s| { assert s[0..j] == [s[0]] + s[1..][0..j - 1]; }
        assert s == [s[0]] + s[1..];
      }
    }
  }

  /** The other pieces lie behind a separator. */
  lemma {:induction false} LaterPieces<T(!new)>(s: seq<T>, sep: T, piece: seq<T>)
    ensures piece in Split(s, sep)[1..] <==> exists i, j :: i > 0 && IsPiece(s, sep, i, j) && s[i..j] == piece
  {
    if s != [] {
      var rest := s[1..];
      var parts := Split(rest, sep);
      LaterPieces(rest, sep, piece);
      FirstPieceOfRest(s, sep, piece);
      hide Split, IsPiece;
      if piece in parts[1..] {
        var i, j :| i > 0 && IsPiece(rest, sep, i, j) && rest[i..j] == piece;
        PieceBehind(s, sep, i + 1, j + 1);
      }
      if s[0] == sep && piece == parts[0] {
        FirstPiece(rest, sep, |piece|);
        PieceBehind(s, sep, 1, |piece| + 1);
        assert s[1..|piece| + 1] == piece;
      }
      forall i, j | i > 0 && IsPiece(s, sep, i, j) && s[i..j] == piece ensures piece in Split(s, sep)[1..] {
        PieceBehind(s, sep, i, j);
        if i == 1 { FirstPiece(rest, sep, j - 1); }
      }
    }
  }

  lemma FirstPieceOfRest<T(!new)>(s: seq<T>, sep: T, piece: seq<T>)
    requires s != []
    ensures s[0] == sep ==> (piece in Split(s, sep)[1..] <==>
      piece == Split(s[1..], sep)[0] || piece in Split(s[1..], sep)[1..])
    ensures s[0] != sep ==> Split(s, sep)[1..] == Split(s[1..], sep)[1..]
  {
    var rest := Split(s[1..], sep);
    assert rest == [rest[0]] + rest[1..];
  }

  /** The pieces of a split are what lies between separators. */
  lemma PiecesLieBetween<T(!new)>(s: seq<T>, sep: T, piece: seq<T>)
    ensures piece in Split(s, sep) <==> exists i, j :: IsPiece(s, sep, i, j) && s[i..j] == piece
  {
    var parts := Split(s, sep);
    LaterPieces(s, sep, piece);
    FirstPiece(s, sep, |parts[0]|);
    assert parts == [parts[0]] + parts[1..];
    forall i, j | IsPiece(s, sep, i, j) && s[i..j] == piece ensures piece in parts {
      if i == 0 {
        FirstPiece(s, sep, j);
        assert piece == parts[0];
      } else {
        assert piece in parts[1..];
      }
    }
    if piece == parts[0] { assert s[0..|parts[0]|] == piece; }
  }

  lemma {:induction false} SplitPlain<T>(piece: seq<T>, sep: T)
    requires sep !in piece
    ensures Split(piece, sep) == [piece]
  {
    if piece != [] {
      SplitPlain(piece[1..], sep);
      assert [piece[0]] + piece[1..] == piece;
    }
  }

  function CountOf<T(==)>(s: seq<T>, c: T): nat {
    if s == [] then 0 else CountOf(s[1..], c) + if s[0] == c then 1 else 0
  }

  /** Splitting behind a separator splits both sides. */
  lemma {:induction false} SplitBehind<T>(front: seq<T>, back: seq<T>, sep: T)
    ensures Split(front + [sep] + back, sep) == Split(front, sep) + Split(back, sep)
  {
    var all := front + [sep] + back;
    if front == [] {
      assert all[1..] == back;
    } else {
      SplitBehind(front[1..], back, sep);
      assert all[1..] == front[1..] + [sep] + back;
      FirstPieceOf(front, Split(front[1..], sep), Split(back, sep), sep);
    }
  }

  lemma FirstPieceOf<T>(front: seq<T>, pieces: seq<seq<T>>, more: seq<seq<T>>, sep: T)
    requires front != [] && pieces != []
    ensures [[]] + (pieces + more) == [[]] + pieces + more
    ensures [[front[0]] + (pieces + more)[0]] + (pieces + more)[1..] == [[front[0]] + pieces[0]] + pieces[1..] + more
  {
  }

  /** One piece more than separators. */
  lemma {:induction false} PiecesAreCounted<T>(s: seq<T>, sep: T)
    ensures |Split(s, sep)| == CountOf(s, sep) + 1
  {
    if s != [] {
      PiecesAreCounted(s[1..], sep);
    }
  }

  /** Splitting undoes joining when no piece holds the separator. */
  lemma {:induction false} SplitJoin<T>(parts: seq<seq<T>>, sep: T)
    requires |parts| >= 1
    requires forall i :: 0 <= i < |parts| ==> sep !in parts[i]
    ensures Split(Join(parts, sep), sep) == parts
  {
    if |parts| == 1 {
      SplitPlain(parts[0], sep);
    } else {
      SplitJoin(parts[1..], sep);
      SplitPrefix(parts[0], Join(parts[1..], sep), sep);
    }
  }

  /** Joining undoes splitting. */
  lemma {:induction false} JoinSplit<T>(s: seq<T>, sep: T)
    ensures Join(Split(s, sep), sep) == s
  {
    if s != [] {
      JoinSplit(s[1..], sep);
      var rest := Split(s[1..], sep);
      if s[0] == sep {
        assert ([[]] + rest)[1..] == rest;
      } else {
        assert ([[s[0]] + rest[0]] + rest[1..])[1..] == rest[1..];
      }
    }
  }

  /** `list(dict.fromkeys(items))`: first occurrences, in order. */
  function Dedup<T(==, !new)>(items: seq<T>): (r: seq<T>)
    ensures forall x :: x in r <==> x in items
    ensures forall i, j :: 0 <= i < j < |r| ==> r[i] != r[j]
  {
    if items == [] then []
    else
      var init := Dedup(items[..|items| - 1]);
      var last := items[|items| - 1];
      assert forall x :: x in items <==> x in items[..|items| - 1] || x == last;
      if last in init then init else init + [last]
  }

  /** The position at which `x` first occurs in `items`. */
  function FirstIndex<T(==)>(items: seq<T>, x: T): (i: nat)
    requires x in items
    ensures i < |items| && items[i] == x
    ensures forall k :: 0 <= k < i ==> items[k] != x
  {
    if items[0] == x then 0
    else
      assert x in items[1..];
      1 + FirstIndex(items[1..], x)
  }

  lemma FirstIndexIs<T>(items: seq<T>, x: T, i: nat)
    requires i < |items| && items[i] == x
    requires forall k :: 0 <= k < i ==> items[k] != x
    ensures FirstIndex(items, x) == i
  {
    var j := FirstIndex(items, x);
    assert items[j] == x;
  }

  /** The kept items stand in the order in which they first occurred. */
  lemma {:induction false} DedupKeepsFirstOccurrences<T(!new)>(items: seq<T>)
    ensures forall i, j :: 0 <= i < j < |Dedup(items)| ==>
      FirstIndex(items, Dedup(items)[i]) < FirstIndex(items, Dedup(items)[j])
  {
    if items != [] {
      var init, last := items[..|items| - 1], items[|items| - 1];
      assert items == init + [last];
      DedupKeepsFirstOccurrences(init);
      forall x | x in init ensures FirstIndex(items, x) == FirstIndex(init, x) {
        FirstIndexIs(items, x, FirstIndex(init, x));
      }
      if last !in init {
        FirstIndexIs(items, last, |init|);
      }
    }
  }
}
