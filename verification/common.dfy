/** Values and JavaScript string behaviour shared by every page of the front end. */
module Common {

  datatype Option<+T> = None | Some(value: T)

  /** The outcome of one awaited contract read: the call throws, yields a
      falsy value (`!data` holds), or yields a record. */
  datatype Read<+T> = Threw | Null | Got(value: T)

  /** What one iteration of a fetch loop does with the id it visits: the loop
      is left through the surrounding `catch`, the id is skipped with
      `continue`, or a row is pushed. */
  datatype Step<+T> = Abort | Skip | Emit(row: T)

  /** Wallet addresses are the strings the wallet extension hands out. */
  type Address = string

  /** JavaScript truthiness of an optional string: `undefined`, `null` and
      the empty string are falsy. */
  predicate Truthy(s: Option<string>)
  {
    s.Some? && s.value != ""
  }

  /** `a || b` where `a` is an optional string and `b` a string. */
  function OrElse(a: Option<string>, b: string): (r: string)
    ensures Truthy(a) ==> r == a.value
    ensures !Truthy(a) ==> r == b
  {
    if Truthy(a) then a.value else b
  }

  /** `s.startsWith(prefix)` */
  predicate StartsWith(s: string, prefix: string)
  {
    |prefix| <= |s| && s[..|prefix|] == prefix
  }

  /** `needle` occurs in `hay` at position `k`. */
  predicate OccursAt(hay: string, needle: string, k: int)
  {
    0 <= k && k + |needle| <= |hay| && hay[k..k + |needle|] == needle
  }

  /** `hay.includes(needle)`, scanning the start positions from the left. */
  function Contains(hay: string, needle: string): bool
    decreases |hay|
  {
    StartsWith(hay, needle) || (|hay| > 0 && Contains(hay[1..], needle))
  }

  /** The scan finds `needle` exactly when it occurs at some position. */
  lemma {:induction false} ContainsIffOccurs(hay: string, needle: string)
    ensures Contains(hay, needle) <==> exists k :: OccursAt(hay, needle, k)
    decreases |hay|
  {
    if |hay| > 0 {
      forall k | 0 < k && OccursAt(hay, needle, k)
        ensures OccursAt(hay[1..], needle, k - 1)
      {
        assert hay[1..][k - 1..k - 1 + |needle|] == hay[k..k + |needle|];
      }
      forall k | OccursAt(hay[1..], needle, k)
        ensures OccursAt(hay, needle, k + 1)
      {
        assert hay[1..][k..k + |needle|] == hay[k + 1..k + 1 + |needle|];
      }
      ContainsIffOccurs(hay[1..], needle);
    }
    assert StartsWith(hay, needle) <==> OccursAt(hay, needle, 0);
  }

  /** The empty string is included in every string. */
  lemma ContainsEmpty(hay: string)
    ensures Contains(hay, "")
  {
    assert StartsWith(hay, "");
  }

  /** `toLowerCase` on one character; only the ASCII letters are mapped. */
  function LowerChar(c: char): char
  {
    if 'A' <= c <= 'Z' then (c as int + 32) as char else c
  }

  /** `s.toLowerCase()` (ASCII letters only). */
  function ToLower(s: string): (r: string)
    ensures |r| == |s|
    ensures forall i :: 0 <= i < |s| ==> r[i] == LowerChar(s[i])
    ensures forall i :: 0 <= i < |r| ==> !('A' <= r[i] <= 'Z')
  {
    seq(|s|, i requires 0 <= i < |s| => LowerChar(s[i]))
  }

  /** An index clamped into `[0, len]`, as `String.prototype.substring` does. */
  function Clamp(x: int, len: nat): (r: nat)
    ensures r <= len
    ensures 0 <= x <= len ==> r == x
  {
    if x < 0 then 0 else if x > len then len else x
  }

  /** `s.substring(start, end)`: both indices are clamped into the string and
      swapped when the first is the larger. */
  function JsSubstring(s: string, start: int, end: int): (r: string)
    ensures 0 <= start <= end <= |s| ==> r == s[start..end]
    ensures |r| <= |s|
  {
    var a := Clamp(start, |s|);
    var b := Clamp(end, |s|);
    if a <= b then s[a..b] else s[b..a]
  }

  function Last<T>(s: seq<T>): T
    requires |s| > 0
  {
    s[|s| - 1]
  }

  function DropLast<T>(s: seq<T>): seq<T>
    requires |s| > 0
  {
    s[..|s| - 1]
  }

  /** `a` is `b` with some elements removed, the rest in their order. Matching
      from the back fits lists that are built by appending. */
  predicate IsSubsequence<T(==)>(a: seq<T>, b: seq<T>)
    decreases |b|
  {
    if a == [] then true
    else if b == [] then false
    else if Last(a) == Last(b) then IsSubsequence(DropLast(a), DropLast(b))
    else IsSubsequence(a, DropLast(b))
  }

  lemma {:induction false} SubsequenceAppendBoth<T>(a: seq<T>, b: seq<T>, x: T)
    requires IsSubsequence(a, b)
    ensures IsSubsequence(a + [x], b + [x])
  {
    assert DropLast(a + [x]) == a && DropLast(b + [x]) == b;
  }

  lemma {:induction false} SubsequenceAppendRight<T>(a: seq<T>, b: seq<T>, x: T)
    requires IsSubsequence(a, b)
    ensures IsSubsequence(a, b + [x])
    decreases |b|, 1
  {
    assert DropLast(b + [x]) == b;
    if a != [] && Last(a) == x {
      SubsequenceDropLast(a, b);
    }
  }

  lemma {:induction false} SubsequenceDropLast<T>(a: seq<T>, b: seq<T>)
    requires a != [] && IsSubsequence(a, b)
    ensures IsSubsequence(DropLast(a), b)
    decreases |b|, 0
  {
    if Last(a) == Last(b) {
      SubsequenceAppendRight(DropLast(a), DropLast(b), Last(b));
      assert DropLast(b) + [Last(b)] == b;
    } else {
      SubsequenceDropLast(a, DropLast(b));
      SubsequenceAppendRight(DropLast(a), DropLast(b), Last(b));
      assert DropLast(b) + [Last(b)] == b;
    }
  }

  /** A subsequence is no longer than the sequence and holds only its elements. */
  lemma {:induction false} SubsequenceBounds<T>(a: seq<T>, b: seq<T>)
    requires IsSubsequence(a, b)
    ensures |a| <= |b|
    ensures forall x :: x in a ==> x in b
    decreases |b|
  {
    if a != [] {
      if Last(a) == Last(b) {
        SubsequenceBounds(DropLast(a), DropLast(b));
        assert a == DropLast(a) + [Last(a)];
        assert b == DropLast(b) + [Last(b)];
      } else {
        SubsequenceBounds(a, DropLast(b));
        assert b == DropLast(b) + [Last(b)];
      }
    }
  }

  /** `results.filter(p => p !== null)`: the present values, in order. */
  function Somes<T>(rs: seq<Option<T>>): (r: seq<T>)
    ensures |r| <= |rs|
    ensures forall i :: 0 <= i < |r| ==> Some(r[i]) in rs
    ensures forall i :: 0 <= i < |rs| && rs[i].Some? ==> rs[i].value in r
    decreases |rs|
  {
    if rs == [] then []
    else
      var front := Somes(DropLast(rs));
      assert rs == DropLast(rs) + [Last(rs)];
      if Last(rs).Some? then front + [Last(rs).value] else front
  }

  predicate NoDuplicates<T(==)>(s: seq<T>)
  {
    forall i, j :: 0 <= i < j < |s| ==> s[i] != s[j]
  }
}
