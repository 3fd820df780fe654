/** The JavaScript built-ins the handlers use on arrays and strings
    (`indexOf`, `filter(...).length`, `splice(start, 1)`, `split`), with the
    semantics ECMAScript gives them, and the facts the handlers rely on. */
module JsArray {

  /** `s.indexOf(x)`: the first index holding `x`, or -1 when there is none. */
  function IndexOf<T(==)>(s: seq<T>, x: T): (i: int)
    ensures -1 <= i < |s|
    ensures i == -1 <==> x !in s
    ensures 0 <= i ==> s[i] == x && x !in s[..i]
  {
    if s == [] then -1
    else if s[0] == x then 0
    else
      var j := IndexOf(s[1..], x);
      assert j >= 0 ==> s[..j + 1] == [s[0]] + s[1..][..j];
      if j == -1 then -1 else j + 1
  }

  /** `s.filter(y => y === x).length`: how many entries equal `x`. */
  function CountOf<T(==)>(s: seq<T>, x: T): (n: nat)
    ensures n <= |s|
    ensures n == 0 <==> x !in s
  {
    if s == [] then 0 else (if s[0] == x then 1 else 0) + CountOf(s[1..], x)
  }

  /** Where `splice` starts for a given `start` on an array of length `len`:
      a negative start counts back from the end and stops at 0, a start past
      the end stops at the end. */
  function ActualStart(len: nat, start: int): (k: nat)
    ensures k <= len
    ensures 0 <= start <= len ==> k == start
    ensures start < 0 && 0 <= len + start ==> k == len + start
  {
    if start < 0 then
      var back := len + start;
      if back < 0 then 0 else back
    else if start > len then len
    else start
  }

  /** What `s.splice(start, 1)` leaves in `s`: the entry at the actual start
      is removed, if there is one. */
  function SpliceOne<T>(s: seq<T>, start: int): (r: seq<T>)
    ensures |r| == if ActualStart(|s|, start) < |s| then |s| - 1 else |s|
    ensures 0 <= start < |s| ==> r == s[..start] + s[start + 1..]
  {
    var k := ActualStart(|s|, start);
    if k < |s| then s[..k] + s[k + 1..] else s
  }

  /** `splice(-1, 1)` removes the last entry, and nothing from an empty array. */
  lemma SpliceMinusOne<T>(s: seq<T>)
    ensures SpliceOne(s, -1) == if s == [] then [] else s[..|s| - 1]
  {
  }

  /** An independent definition of "remove the first `x`". */
  function RemoveFirst<T(==)>(s: seq<T>, x: T): (r: seq<T>)
    ensures multiset(r) == multiset(s) - multiset{x}
    ensures x in s ==> |r| == |s| - 1
    ensures x !in s ==> r == s
  {
    if s == [] then []
    else
      assert s == [s[0]] + s[1..];
      if s[0] == x then s[1..] else [s[0]] + RemoveFirst(s[1..], x)
  }

  /** The removal idiom `s.splice(s.indexOf(x), 1)` on a present `x` removes
      exactly its first occurrence. */
  lemma {:induction false} SpliceIndexOfPresent<T>(s: seq<T>, x: T)
    requires x in s
    ensures SpliceOne(s, IndexOf(s, x)) == RemoveFirst(s, x)
  {
    var t := s[1..];
    assert s == [s[0]] + t;
    if s[0] == x {
      assert IndexOf(s, x) == 0;
      assert SpliceOne(s, 0) == t;
    } else {
      assert x in t;
      SpliceIndexOfPresent(t, x);
      var j := IndexOf(t, x);
      assert IndexOf(s, x) == j + 1;
      SpliceOneCons(s[0], t, j);
      assert RemoveFirst(s, x) == [s[0]] + RemoveFirst(t, x);
    }
  }

  /** Splicing behind a head entry leaves the head in place. */
  lemma SpliceOneCons<T>(h: T, t: seq<T>, k: nat)
    requires k < |t|
    ensures SpliceOne([h] + t, k + 1) == [h] + SpliceOne(t, k)
  {
  }

  /** The same idiom on an absent `x` is not a no-op: `indexOf` gives -1 and
      the last entry goes. */
  lemma SpliceIndexOfAbsent<T>(s: seq<T>, x: T)
    requires x !in s
    ensures SpliceOne(s, IndexOf(s, x)) == if s == [] then [] else s[..|s| - 1]
  {
    SpliceMinusOne(s);
  }

  /** No value occurs twice. */
  ghost predicate NoDuplicates<T>(s: seq<T>) {
    forall i, j :: 0 <= i < j < |s| ==> s[i] != s[j]
  }

  /** In a sequence without duplicates every value occurs at most once. */
  lemma {:induction false} NoDuplicatesCount<T>(s: seq<T>, x: T)
    requires NoDuplicates(s)
    ensures CountOf(s, x) <= 1
  {
    if s != [] {
      assert NoDuplicates(s[1..]) by {
        forall i, j | 0 <= i < j < |s[1..]| ensures s[1..][i] != s[1..][j] {
          assert s[1..][i] == s[i + 1] && s[1..][j] == s[j + 1];
        }
      }
      NoDuplicatesCount(s[1..], x);
      if s[0] == x {
        assert x !in s[1..] by {
          forall k | 0 <= k < |s[1..]| ensures s[1..][k] != x {
            assert s[1..][k] == s[k + 1];
          }
        }
      }
    }
  }

  /** Prepending a value that is not there keeps a sequence duplicate-free. */
  lemma PrependKeepsNoDuplicates<T>(s: seq<T>, x: T)
    requires NoDuplicates(s) && x !in s
    ensures NoDuplicates([x] + s)
  {
  }

  /** Removing one entry keeps a sequence duplicate-free. */
  lemma SpliceKeepsNoDuplicates<T>(s: seq<T>, start: int)
    requires NoDuplicates(s)
    ensures NoDuplicates(SpliceOne(s, start))
  {
  }

  /** `s.split(sep)` for a one-character separator: the pieces between the
      separators, never fewer than one (`"".split(",")` is `[""]`). */
  function Split(s: string, sep: char): (parts: seq<string>)
    ensures |parts| >= 1
    ensures forall i :: 0 <= i < |parts| ==> sep !in parts[i]
    decreases |s|
  {
    var i := IndexOf(s, sep);
    if i == -1 then [s] else [s[..i]] + Split(s[i + 1..], sep)
  }

  /** `parts.join(sep)`: no pieces give '' and one piece is itself. */
  function Join(parts: seq<string>, sep: char): (s: string)
    ensures parts == [] ==> s == ""
    ensures |parts| == 1 ==> s == parts[0]
  {
    if parts == [] then ""
    else if |parts| == 1 then parts[0]
    else parts[0] + [sep] + Join(parts[1..], sep)
  }

  /** The join of separator-free pieces holds the separator exactly when
      there are at least two pieces. */
  lemma {:induction false} JoinHasSeparator(parts: seq<string>, sep: char)
    requires forall i :: 0 <= i < |parts| ==> sep !in parts[i]
    ensures sep in Join(parts, sep) <==> |parts| >= 2
  {
    if |parts| >= 2 {
      var s := Join(parts, sep);
      assert s == parts[0] + [sep] + Join(parts[1..], sep);
      assert s[|parts[0]|] == sep;
    }
  }

  /** Joining the pieces of a split gives back the string. */
  lemma {:induction false} JoinSplit(s: string, sep: char)
    ensures Join(Split(s, sep), sep) == s
    decreases |s|
  {
    var i := IndexOf(s, sep);
    if i != -1 {
      var head, tail := s[..i], s[i + 1..];
      var rest := Split(tail, sep);
      JoinSplit(tail, sep);
      JoinCons(head, rest, sep);
      CutAt(s, i);
    }
  }

  /** A sequence is the part before an index, the entry there, and the part
      after it. */
  lemma CutAt<T>(s: seq<T>, i: nat)
    requires i < |s|
    ensures s == s[..i] + [s[i]] + s[i + 1..]
  {
  }

  /** Joining a head piece in front of at least one more piece puts the
      separator between them. */
  lemma JoinCons(head: string, rest: seq<string>, sep: char)
    requires |rest| >= 1
    ensures Join([head] + rest, sep) == head + [sep] + Join(rest, sep)
  {
    assert ([head] + rest)[1..] == rest;
  }

  /** In `a + [x] + b` with no `x` in `a`, the first `x` is at `|a|`. */
  lemma {:induction false} IndexOfAfterPrefix<T>(a: seq<T>, x: T, b: seq<T>)
    requires x !in a
    ensures IndexOf(a + [x] + b, x) == |a|
  {
    if a != [] {
      IndexOfAfterPrefix(a[1..], x, b);
      assert (a + [x] + b)[1..] == a[1..] + [x] + b;
    }
  }

  /** The parts of `a + [x] + b` before and after position `|a|`. */
  lemma SliceAround<T>(a: seq<T>, x: T, b: seq<T>)
    ensures (a + [x] + b)[..|a|] == a && (a + [x] + b)[|a| + 1..] == b
  {
  }

  /** Splitting a join of separator-free pieces gives back the pieces. */
  lemma {:induction false} SplitJoin(parts: seq<string>, sep: char)
    requires |parts| >= 1
    requires forall i :: 0 <= i < |parts| ==> sep !in parts[i]
    ensures Split(Join(parts, sep), sep) == parts
  {
    var s := Join(parts, sep);
    if |parts| == 1 {
      SplitWithout(parts[0], sep);
    } else {
      var head, tail := parts[0], parts[1..];
      assert parts == [head] + tail;
      var rest := Join(tail, sep);
      JoinCons(head, tail, sep);
      IndexOfAfterPrefix(head, sep, rest);
      SliceAround(head, sep, rest);
      SplitAt(s, sep);
      assert forall k :: 0 <= k < |tail| ==> tail[k] == parts[k + 1];
      SplitJoin(tail, sep);
    }
  }

  /** A string without the separator splits into itself. */
  lemma SplitWithout(s: string, sep: char)
    requires sep !in s
    ensures Split(s, sep) == [s]
  {
  }

  /** A string holding the separator splits into the piece before its first
      occurrence followed by the split of the rest. */
  lemma SplitAt(s: string, sep: char)
    requires sep in s
    ensures var i := IndexOf(s, sep); Split(s, sep) == [s[..i]] + Split(s[i + 1..], sep)
  {
  }
}
