/** Small value types and sequence operations shared by the whole model:
    Swift's `Optional`, `first(where:)` / `firstIndex(where:)`,
    `removeAll(where:)` and `joined(separator:)`. */
module Base {

  /** Swift's `Optional`. */
  datatype Option<+T> = None | Some(value: T)

  /** The values an optional holds: none or one. */
  function OptionSet<T>(o: Option<T>): set<T>
  {
    if o.Some? then {o.value} else {}
  }

  function OptionSeq<T>(o: Option<T>): seq<T>
  {
    if o.Some? then [o.value] else []
  }

  /** Index of the first element satisfying `p` (`firstIndex(where:)`). */
  function FirstIndex<T>(s: seq<T>, p: T -> bool): (r: Option<nat>)
    ensures r.None? <==> forall i :: 0 <= i < |s| ==> !p(s[i])
    ensures r.Some? ==> r.value < |s| && p(s[r.value])
    ensures r.Some? ==> forall j :: 0 <= j < r.value ==> !p(s[j])
  {
    if |s| == 0 then None
    else if p(s[0]) then Some(0)
    else match FirstIndex(s[1..], p)
      case None => None
      case Some(k) => Some(k + 1)
  }

  /** The first element satisfying `p` (`first(where:)`). */
  function First<T>(s: seq<T>, p: T -> bool): (r: Option<T>)
    ensures r.None? <==> forall i :: 0 <= i < |s| ==> !p(s[i])
    ensures r.Some? ==> p(r.value)
    ensures r.Some? ==>
      exists i :: 0 <= i < |s| && s[i] == r.value && forall j :: 0 <= j < i ==> !p(s[j])
  {
    match FirstIndex(s, p)
    case None => None
    case Some(i) => Some(s[i])
  }

  /** `s` without the elements satisfying `p`, in their original order
      (`removeAll(where:)`). */
  function RemoveAll<T(==,!new)>(s: seq<T>, p: T -> bool): (r: seq<T>)
    ensures |r| <= |s|
    ensures forall i :: 0 <= i < |r| ==> !p(r[i])
    ensures forall x :: multiset(r)[x] == if p(x) then 0 else multiset(s)[x]
  {
    if |s| == 0 then []
    else
      assert s == [s[0]] + s[1..];
      if p(s[0]) then RemoveAll(s[1..], p) else [s[0]] + RemoveAll(s[1..], p)
  }

  /** Removing from a concatenation removes from each part and keeps the
      parts in order: the survivors keep their relative order. */
  lemma {:induction false} RemoveAllConcat<T(!new)>(a: seq<T>, b: seq<T>, p: T -> bool)
    ensures RemoveAll(a + b, p) == RemoveAll(a, p) + RemoveAll(b, p)
  {
    if |a| == 0 {
      assert a + b == b;
    } else {
      assert (a + b)[0] == a[0];
      assert (a + b)[1..] == a[1..] + b;
      RemoveAllConcat(a[1..], b, p);
    }
  }

  /** When nothing matches, `removeAll(where:)` leaves the sequence as it is. */
  lemma {:induction false} RemoveAllNothingMatches<T(!new)>(s: seq<T>, p: T -> bool)
    requires forall i :: 0 <= i < |s| ==> !p(s[i])
    ensures RemoveAll(s, p) == s
  {
    if |s| > 0 {
      RemoveAllNothingMatches(s[1..], p);
    }
  }

  /** `parts.joined(separator: sep)`. */
  function Join(parts: seq<string>, sep: string): string
  {
    if |parts| == 0 then ""
    else if |parts| == 1 then parts[0]
    else parts[0] + sep + Join(parts[1..], sep)
  }

  /** Appending one more part adds the separator and the part at the end. */
  lemma {:induction false} JoinSnoc(parts: seq<string>, last: string, sep: string)
    ensures Join(parts + [last], sep) ==
            if |parts| == 0 then last else Join(parts, sep) + sep + last
  {
    if |parts| > 1 {
      assert (parts + [last])[1..] == parts[1..] + [last];
      JoinSnoc(parts[1..], last, sep);
    } else if |parts| == 1 {
      assert (parts + [last])[1..] == [last];
    } else {
      assert parts + [last] == [last];
    }
  }

  /** Joining one-character parts with a one-character separator: the parts sit
      at the even positions and the separator at every odd position. */
  lemma {:induction false} JoinSingles(parts: seq<string>, sep: char)
    requires |parts| > 0
    requires forall i :: 0 <= i < |parts| ==> |parts[i]| == 1
    ensures |Join(parts, [sep])| == 2 * |parts| - 1
    ensures forall k :: 0 <= k < |parts| ==> Join(parts, [sep])[2 * k] == parts[k][0]
    ensures forall k :: 0 <= k < |parts| - 1 ==> Join(parts, [sep])[2 * k + 1] == sep
  {
    if |parts| > 1 {
      JoinSingles(parts[1..], sep);
      var rest := Join(parts[1..], [sep]);
      assert Join(parts, [sep]) == parts[0] + [sep] + rest;
      forall k | 0 <= k < |parts|
        ensures Join(parts, [sep])[2 * k] == parts[k][0]
      {
        if k > 0 {
          assert rest[2 * (k - 1)] == parts[1..][k - 1][0];
        }
      }
      forall k | 0 <= k < |parts| - 1
        ensures Join(parts, [sep])[2 * k + 1] == sep
      {
        if k > 0 {
          assert rest[2 * (k - 1) + 1] == sep;
        }
      }
    }
  }

  /** Such a join ends with the last part. */
  lemma JoinSinglesLast(parts: seq<string>, sep: char)
    requires |parts| > 0
    requires forall i :: 0 <= i < |parts| ==> |parts[i]| == 1
    ensures |Join(parts, [sep])| > 0
    ensures Join(parts, [sep])[|Join(parts, [sep])| - 1..] == parts[|parts| - 1]
  {
    JoinSingles(parts, sep);
    var d := Join(parts, [sep]);
    var last := parts[|parts| - 1];
    assert d[2 * (|parts| - 1)] == last[0];
    assert d[|d| - 1..] == [last[0]] == last;
  }

  /** In such a join the separator character occurs exactly at the odd
      positions when no part is the separator. */
  lemma JoinSinglesSeparators(parts: seq<string>, sep: char)
    requires |parts| > 0
    requires forall i :: 0 <= i < |parts| ==> |parts[i]| == 1 && parts[i][0] != sep
    ensures forall k :: 0 <= k < |Join(parts, [sep])| ==> (Join(parts, [sep])[k] == sep <==> k % 2 == 1)
  {
    JoinSingles(parts, sep);
    var d := Join(parts, [sep]);
    forall k | 0 <= k < |d|
      ensures d[k] == sep <==> k % 2 == 1
    {
      if k % 2 == 0 {
        assert d[2 * (k / 2)] == parts[k / 2][0];
      } else {
        assert d[2 * (k / 2) + 1] == sep;
      }
    }
  }
}
