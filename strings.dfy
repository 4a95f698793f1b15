/** The string utilities of src/utils/string.cpp: the narrow/wide copies and
    the two `split` overloads. `std::string` is a sequence of characters; for
    the conversions a character is its numeric value (`char` is a signed
    byte and `wchar_t` a signed 32-bit value, as on Linux). */
module Strings {

  import Sequences

  // ---------------------------------------------------------------------
  // toString / toWString
  // ---------------------------------------------------------------------

  /** A `char`: a signed byte. */
  type Char8 = x: int | -0x80 <= x < 0x80

  /** A `wchar_t`: a signed 32-bit value. */
  type WChar = x: int | -0x8000_0000 <= x < 0x8000_0000

  /** `wchar_t` to `char`: keeps the low byte, read as signed. */
  function Narrow(w: WChar): (c: Char8)
    ensures -0x80 <= w < 0x80 ==> c == w
    ensures (c - w) % 0x100 == 0
  {
    (w + 0x80) % 0x100 - 0x80
  }

  /** `toWString(str)`: each `char` widened, sign and all. */
  function ToWString(str: seq<Char8>): (w: seq<WChar>)
    ensures |w| == |str|
    ensures forall i :: 0 <= i < |str| ==> w[i] == str[i]
  {
    seq(|str|, i requires 0 <= i < |str| => str[i] as WChar)
  }

  /** `toString(wstr)`: each `wchar_t` narrowed to a `char`. */
  function ToString(wstr: seq<WChar>): (s: seq<Char8>)
    ensures |s| == |wstr|
    ensures forall i :: 0 <= i < |wstr| ==> s[i] == Narrow(wstr[i])
  {
    seq(|wstr|, i requires 0 <= i < |wstr| => Narrow(wstr[i]))
  }

  /** Widening and then narrowing gives the narrow string back. */
  lemma NarrowWidenRoundTrip(str: seq<Char8>)
    ensures ToString(ToWString(str)) == str
  {
  }

  /** Narrowing and then widening gives the wide string back exactly when
      every character fits in a `char`. */
  lemma WidenNarrowRoundTrip(wstr: seq<WChar>)
    ensures ToWString(ToString(wstr)) == wstr <==>
            forall i :: 0 <= i < |wstr| ==> -0x80 <= wstr[i] < 0x80
  {
    if ToWString(ToString(wstr)) == wstr {
      forall i | 0 <= i < |wstr|
        ensures -0x80 <= wstr[i] < 0x80
      {
        assert ToWString(ToString(wstr))[i] == wstr[i];
      }
    }
  }

  // ---------------------------------------------------------------------
  // split(str, c)
  // ---------------------------------------------------------------------

  /** `std::string::npos`. It is the largest `size_t`, so `npos + 1` wraps to
      0; the model writes it as -1, for which `npos + 1 == 0` holds too. */
  const NPOS: int := -1

  /** `str.find(c, from)`: the first index at or after `from` holding `c`. */
  function Find(str: string, c: char, from: nat): (at: int)
    ensures at == NPOS || from <= at < |str|
    ensures at != NPOS ==> str[at] == c && forall k :: from <= k < at ==> str[k] != c
    ensures at == NPOS ==> forall k :: from <= k < |str| ==> str[k] != c
    decreases |str| - from
  {
    if from >= |str| then NPOS
    else if str[from] == c then from
    else Find(str, c, from + 1)
  }

  /** The pieces `split(str, c)` pushes from the state `prev`, `at` of its
      loop on: the next separator after `at` is looked up, a piece from
      `prev` up to it is pushed unless it lies right after `prev`, and
      `prev` becomes the separator's index. */
  function SplitCharFrom(str: string, c: char, prev: nat, at: int): (r: seq<string>)
    requires -1 <= at < |str| && prev <= at + 1
    ensures |r| >= 1
    decreases |str| - at
  {
    var next := Find(str, c, at + 1);
    if next == NPOS then [str[prev..]]
    else
      (if next != prev + 1 then [str[prev..next]] else [])
        + SplitCharFrom(str, c, next, next)
  }

  /** `split(str, c)` as written. */
  function SplitCharAsWritten(str: string, c: char): seq<string>
  {
    SplitCharFrom(str, c, 0, NPOS)
  }

  /** The loop of `split(str, c)`; `next` is the value the loop condition
      assigns to `at`. */
  method SplitChar(str: string, c: char) returns (ret: seq<string>)
    ensures ret == SplitCharAsWritten(str, c)
  {
    ret := [];
    var prev := 0;
    var at := NPOS;
    var next := Find(str, c, at + 1);
    while next != NPOS
      invariant -1 <= at < |str| && prev <= at + 1
      invariant next == Find(str, c, at + 1)
      invariant ret + SplitCharFrom(str, c, prev, at) == SplitCharAsWritten(str, c)
      decreases |str| - at
    {
      var piece: seq<string> := if next != prev + 1 then [str[prev..next]] else [];
      Sequences.ConcatAssoc(ret, piece, SplitCharFrom(str, c, next, next));
      at := next;
      ret := ret + piece;
      prev := at;
      next := Find(str, c, at + 1);
    }
    ret := ret + [str[prev..]];
  }

  /** Every piece from a state whose `prev` is a separator starts with that
      separator. */
  lemma {:induction false} PiecesStartWithSeparator(str: string, c: char, prev: nat, at: int)
    requires prev < |str| && str[prev] == c && prev <= at < |str|
    ensures forall i :: 0 <= i < |SplitCharFrom(str, c, prev, at)| ==>
              var p := SplitCharFrom(str, c, prev, at)[i]; |p| > 0 && p[0] == c
    decreases |str| - at
  {
    var next := Find(str, c, at + 1);
    if next != NPOS {
      PiecesStartWithSeparator(str, c, next, next);
      var head: seq<string> := if next != prev + 1 then [str[prev..next]] else [];
      var rest := SplitCharFrom(str, c, next, next);
      var r := head + rest;
      assert r == SplitCharFrom(str, c, prev, at);
      forall i | 0 <= i < |r|
        ensures |r[i]| > 0 && r[i][0] == c
      {
        if i < |head| {
          assert r[i] == str[prev..next];
        } else {
          assert r[i] == rest[i - |head|];
        }
      }
    } else {
      assert SplitCharFrom(str, c, prev, at) == [str[prev..]];
    }
  }

  /** `split(str, c)` always returns at least one piece, `[str]` when `c` does
      not occur, and every piece after the first begins with `c`: the index
      kept in `prev` is the separator's, not the one after it. */
  lemma SplitCharShape(str: string, c: char)
    ensures |SplitCharAsWritten(str, c)| >= 1
    ensures (forall k :: 0 <= k < |str| ==> str[k] != c) ==> SplitCharAsWritten(str, c) == [str]
    ensures forall i :: 1 <= i < |SplitCharAsWritten(str, c)| ==>
              var p := SplitCharAsWritten(str, c)[i]; |p| > 0 && p[0] == c
  {
    var next := Find(str, c, 0);
    if next != NPOS {
      PiecesStartWithSeparator(str, c, next, next);
      var head: seq<string> := if next != 1 then [str[0..next]] else [];
      var rest := SplitCharFrom(str, c, next, next);
      var r := head + rest;
      assert r == SplitCharAsWritten(str, c);
      forall i | 1 <= i < |r|
        ensures |r[i]| > 0 && r[i][0] == c
      {
        assert r[i] == rest[i - |head|];
      }
    } else {
      assert str[0..] == str;
    }
  }

  /** On "a,b" the text before the separator is lost and the separator is
      kept: the result is `[",b"]` rather than `["a", "b"]`. */
  lemma SplitCharDropsFirstPiece()
    ensures SplitCharAsWritten("a,b", ',') == [",b"]
    ensures SplitCharIntended("a,b", ',') == ["a", "b"]
  {
    assert Find("a,b", ',', 0) == 1;
    assert Find("a,b", ',', 2) == NPOS;
    assert "a,b"[1..] == ",b";
    assert "a,b"[0..1] == "a";
    assert "a,b"[2..] == "b";
  }

  /** The separator test `split(str, c)` makes with `c`. */
  function IsChar(c: char): char -> bool
  {
    x => x == c
  }

  /** `split(str, c)` with `prev = at + 1` and the empty-piece test `at !=
      prev`: the pieces between separators, empty ones skipped, and the tail
      always pushed. */
  function SplitCharIntendedFrom(str: string, c: char, prev: nat): (r: seq<string>)
    requires prev <= |str|
    ensures |r| >= 1
    decreases |str| - prev
  {
    var next := Find(str, c, prev);
    if next == NPOS then [str[prev..]]
    else
      (if next != prev then [str[prev..next]] else [])
        + SplitCharIntendedFrom(str, c, next + 1)
  }

  function SplitCharIntended(str: string, c: char): seq<string>
  {
    SplitCharIntendedFrom(str, c, 0)
  }

  /** No piece of the corrected `split(str, c)` holds `c`. */
  lemma {:induction false} SplitCharIntendedFromClean(str: string, c: char, prev: nat)
    requires prev <= |str|
    ensures AllClean(SplitCharIntendedFrom(str, c, prev), IsChar(c))
    decreases |str| - prev
  {
    var next := Find(str, c, prev);
    if next == NPOS {
      assert Clean(str[prev..], IsChar(c));
    } else {
      var rest := SplitCharIntendedFrom(str, c, next + 1);
      SplitCharIntendedFromClean(str, c, next + 1);
      if next != prev {
        assert SplitCharIntendedFrom(str, c, prev) == [str[prev..next]] + rest;
        assert Clean(str[prev..next], IsChar(c));
        AllCleanAppend([str[prev..next]], rest, IsChar(c));
      } else {
        assert SplitCharIntendedFrom(str, c, prev) == rest;
      }
    }
  }

  /** The pieces of the corrected `split(str, c)`, joined, are `str[prev..]`
      without its separators. */
  lemma {:induction false} SplitCharIntendedFromJoin(str: string, c: char, prev: nat)
    requires prev <= |str|
    ensures Flatten(SplitCharIntendedFrom(str, c, prev)) == Filter(str[prev..], IsChar(c))
    decreases |str| - prev
  {
    var next := Find(str, c, prev);
    if next == NPOS {
      FilterNone(str[prev..], IsChar(c));
      FlattenSingle(str[prev..]);
    } else {
      var rest := SplitCharIntendedFrom(str, c, next + 1);
      SplitCharIntendedFromJoin(str, c, next + 1);
      assert Clean(str[prev..next], IsChar(c));
      FilterAroundSeparator(str, prev, next, IsChar(c));
      if next != prev {
        assert SplitCharIntendedFrom(str, c, prev) == [str[prev..next]] + rest;
        FlattenAppend([str[prev..next]], rest);
        FlattenSingle(str[prev..next]);
      } else {
        assert SplitCharIntendedFrom(str, c, prev) == rest;
        assert str[prev..next] == [];
      }
    }
  }

  /** The corrected `split(str, c)`: no piece holds `c`, and the pieces
      joined give `str` without its separators. */
  lemma SplitCharIntendedPieces(str: string, c: char)
    ensures AllClean(SplitCharIntended(str, c), IsChar(c))
    ensures Flatten(SplitCharIntended(str, c)) == Filter(str, IsChar(c))
  {
    SplitCharIntendedFromClean(str, c, 0);
    SplitCharIntendedFromJoin(str, c, 0);
    assert str[0..] == str;
  }

  // ---------------------------------------------------------------------
  // split(str, isSeparator)
  // ---------------------------------------------------------------------

  /** `str` with every separator removed. */
  function Filter(str: string, isSeparator: char -> bool): (r: string)
    ensures |r| <= |str|
  {
    if str == [] then []
    else (if isSeparator(str[0]) then [] else [str[0]]) + Filter(str[1..], isSeparator)
  }

  /** The pieces joined in order. */
  function Flatten(pieces: seq<string>): string
  {
    if pieces == [] then [] else pieces[0] + Flatten(pieces[1..])
  }

  lemma {:induction false} FilterAppend(a: string, b: string, isSeparator: char -> bool)
    ensures Filter(a + b, isSeparator) == Filter(a, isSeparator) + Filter(b, isSeparator)
  {
    if a == [] {
      assert a + b == b;
    } else {
      FilterAppend(a[1..], b, isSeparator);
      assert (a + b)[1..] == a[1..] + b;
      var h: string := if isSeparator(a[0]) then [] else [a[0]];
      Sequences.ConcatAssoc(h, Filter(a[1..], isSeparator), Filter(b, isSeparator));
    }
  }

  lemma {:induction false} FilterNone(a: string, isSeparator: char -> bool)
    requires forall k :: 0 <= k < |a| ==> !isSeparator(a[k])
    ensures Filter(a, isSeparator) == a
  {
    if a != [] {
      FilterNone(a[1..], isSeparator);
    }
  }

  lemma {:induction false} FilterAll(a: string, isSeparator: char -> bool)
    requires forall k :: 0 <= k < |a| ==> isSeparator(a[k])
    ensures Filter(a, isSeparator) == []
  {
    if a != [] {
      FilterAll(a[1..], isSeparator);
    }
  }

  lemma FlattenSingle(p: string)
    ensures Flatten([p]) == p
  {
    assert [p][1..] == [];
  }

  lemma {:induction false} FlattenAppend(a: seq<string>, b: seq<string>)
    ensures Flatten(a + b) == Flatten(a) + Flatten(b)
  {
    if a == [] {
      assert a + b == b;
    } else {
      FlattenAppend(a[1..], b);
      assert (a + b)[1..] == a[1..] + b;
      Sequences.ConcatAssoc(a[0], Flatten(a[1..]), Flatten(b));
    }
  }

  /** `p` holds no separator. */
  predicate Clean(p: string, isSeparator: char -> bool)
  {
    forall k :: 0 <= k < |p| ==> !isSeparator(p[k])
  }

  predicate AllClean(pieces: seq<string>, isSeparator: char -> bool)
  {
    forall i :: 0 <= i < |pieces| ==> Clean(pieces[i], isSeparator)
  }

  predicate AllNonEmpty(pieces: seq<string>)
  {
    forall i :: 0 <= i < |pieces| ==> |pieces[i]| > 0
  }

  lemma AllCleanAppend(a: seq<string>, b: seq<string>, isSeparator: char -> bool)
    requires AllClean(a, isSeparator) && AllClean(b, isSeparator)
    ensures AllClean(a + b, isSeparator)
  {
    forall i | 0 <= i < |a + b|
      ensures Clean((a + b)[i], isSeparator)
    {
      if i >= |a| {
        assert (a + b)[i] == b[i - |a|];
      }
    }
  }

  lemma AllNonEmptyAppend(a: seq<string>, b: seq<string>)
    requires AllNonEmpty(a) && AllNonEmpty(b)
    ensures AllNonEmpty(a + b)
  {
    forall i | 0 <= i < |a + b|
      ensures |(a + b)[i]| > 0
    {
      if i >= |a| {
        assert (a + b)[i] == b[i - |a|];
      }
    }
  }

  /** Removing the separators from `str[prev..]`, where `str[prev..at]` has
      none and `str[at]` is one, leaves `str[prev..at]` followed by what is
      left of `str[at + 1..]`. */
  lemma FilterAroundSeparator(str: string, prev: nat, at: nat, isSeparator: char -> bool)
    requires prev <= at < |str| && isSeparator(str[at])
    requires Clean(str[prev..at], isSeparator)
    ensures Filter(str[prev..], isSeparator) == str[prev..at] + Filter(str[at + 1..], isSeparator)
  {
    assert str[prev..] == (str[prev..at] + [str[at]]) + str[at + 1..];
    FilterAppend(str[prev..at] + [str[at]], str[at + 1..], isSeparator);
    FilterAppend(str[prev..at], [str[at]], isSeparator);
    FilterNone(str[prev..at], isSeparator);
    assert [str[at]][1..] == [];
    assert Filter([str[at]], isSeparator) == [];
  }

  /** The pieces `split(str, isSeparator)` pushes from the state `prev`, `at`
      of its loop on, the final tail included. */
  function SplitByFrom(str: string, isSeparator: char -> bool, prev: nat, at: nat): seq<string>
    requires prev <= at <= |str|
    decreases |str| - at
  {
    if at == |str| then (if prev != |str| then [str[prev..]] else [])
    else if !isSeparator(str[at]) then SplitByFrom(str, isSeparator, prev, at + 1)
    else if prev == at then SplitByFrom(str, isSeparator, prev + 1, at + 1)
    else [str[prev..at]] + SplitByFrom(str, isSeparator, at + 1, at + 1)
  }

  function SplitBy(str: string, isSeparator: char -> bool): seq<string>
  {
    SplitByFrom(str, isSeparator, 0, 0)
  }

  /** The loop of `split(str, isSeparator)`. */
  method SplitByLoop(str: string, isSeparator: char -> bool) returns (ret: seq<string>)
    ensures ret == SplitBy(str, isSeparator)
  {
    ret := [];
    var prev := 0;
    var at := 0;
    while at < |str|
      invariant prev <= at <= |str|
      invariant ret + SplitByFrom(str, isSeparator, prev, at) == SplitBy(str, isSeparator)
    {
      if !isSeparator(str[at]) {
      } else if prev == at {
        prev := prev + 1;
      } else {
        Sequences.ConcatAssoc(ret, [str[prev..at]], SplitByFrom(str, isSeparator, at + 1, at + 1));
        ret := ret + [str[prev..at]];
        prev := at + 1;
      }
      at := at + 1;
    }
    if prev != |str| {
      ret := ret + [str[prev..]];
    } else {
      assert ret + [] == ret;
    }
  }

  /** Every piece from a loop state is nonempty. */
  lemma {:induction false} SplitByFromNonEmpty(str: string, isSeparator: char -> bool, prev: nat, at: nat)
    requires prev <= at <= |str|
    ensures AllNonEmpty(SplitByFrom(str, isSeparator, prev, at))
    decreases |str| - at
  {
    if at == |str| {
    } else if !isSeparator(str[at]) {
      SplitByFromNonEmpty(str, isSeparator, prev, at + 1);
    } else if prev == at {
      SplitByFromNonEmpty(str, isSeparator, prev + 1, at + 1);
    } else {
      SplitByFromNonEmpty(str, isSeparator, at + 1, at + 1);
      AllNonEmptyAppend([str[prev..at]], SplitByFrom(str, isSeparator, at + 1, at + 1));
    }
  }

  /** No piece from a loop state holds a separator (`str[prev..at]` holds none yet). */
  lemma {:induction false} SplitByFromClean(str: string, isSeparator: char -> bool, prev: nat, at: nat)
    requires prev <= at <= |str|
    requires Clean(str[prev..at], isSeparator)
    ensures AllClean(SplitByFrom(str, isSeparator, prev, at), isSeparator)
    decreases |str| - at
  {
    if at == |str| {
      assert str[prev..] == str[prev..at];
    } else if !isSeparator(str[at]) {
      assert str[prev..at + 1] == str[prev..at] + [str[at]];
      SplitByFromClean(str, isSeparator, prev, at + 1);
    } else if prev == at {
      SplitByFromClean(str, isSeparator, prev + 1, at + 1);
    } else {
      SplitByFromClean(str, isSeparator, at + 1, at + 1);
      AllCleanAppend([str[prev..at]], SplitByFrom(str, isSeparator, at + 1, at + 1), isSeparator);
    }
  }

  /** The pieces from a loop state, joined, are `str[prev..]` without its
      separators (`str[prev..at]` holds none yet). */
  lemma {:induction false} SplitByFromJoin(str: string, isSeparator: char -> bool, prev: nat, at: nat)
    requires prev <= at <= |str|
    requires Clean(str[prev..at], isSeparator)
    ensures Flatten(SplitByFrom(str, isSeparator, prev, at)) == Filter(str[prev..], isSeparator)
    decreases |str| - at
  {
    if at == |str| {
      assert str[prev..] == str[prev..at];
      FilterNone(str[prev..], isSeparator);
      if prev != |str| {
        FlattenSingle(str[prev..]);
      }
    } else if !isSeparator(str[at]) {
      assert str[prev..at + 1] == str[prev..at] + [str[at]];
      SplitByFromJoin(str, isSeparator, prev, at + 1);
    } else if prev == at {
      SplitByFromJoin(str, isSeparator, prev + 1, at + 1);
      FilterAroundSeparator(str, prev, at, isSeparator);
    } else {
      SplitByFromJoin(str, isSeparator, at + 1, at + 1);
      FlattenAppend([str[prev..at]], SplitByFrom(str, isSeparator, at + 1, at + 1));
      FlattenSingle(str[prev..at]);
      FilterAroundSeparator(str, prev, at, isSeparator);
    }
  }

  /** `split(str, isSeparator)` never returns an empty piece, no piece holds
      a separator, and the pieces joined give `str` with its separators
      removed. */
  lemma SplitByPieces(str: string, isSeparator: char -> bool)
    ensures AllNonEmpty(SplitBy(str, isSeparator))
    ensures AllClean(SplitBy(str, isSeparator), isSeparator)
    ensures Flatten(SplitBy(str, isSeparator)) == Filter(str, isSeparator)
  {
    SplitByFromNonEmpty(str, isSeparator, 0, 0);
    SplitByFromClean(str, isSeparator, 0, 0);
    SplitByFromJoin(str, isSeparator, 0, 0);
    assert str[0..] == str;
  }

  /** A nonempty first piece makes the joined string nonempty. */
  lemma FlattenLength(pieces: seq<string>)
    ensures pieces != [] ==> |Flatten(pieces)| >= |pieces[0]|
  {
  }

  /** An empty or all-separator string splits into no pieces. */
  lemma {:induction false} SplitByAllSeparators(str: string, isSeparator: char -> bool)
    requires forall k :: 0 <= k < |str| ==> isSeparator(str[k])
    ensures SplitBy(str, isSeparator) == []
  {
    SplitByPieces(str, isSeparator);
    FilterAll(str, isSeparator);
    FlattenLength(SplitBy(str, isSeparator));
  }
}
