/** The two JavaScript string and array operations the core relies on. */
module Text {

  /** `s.startsWith(p)`. */
  predicate StartsWith<T(==)>(s: seq<T>, p: seq<T>) {
    |p| <= |s| && s[..|p|] == p
  }

  /** Appending keeps every prefix. */
  lemma StartsWithExtend<T>(a: seq<T>, b: seq<T>, p: seq<T>)
    requires StartsWith(a, p)
    ensures StartsWith(a + b, p)
  {
    assert (a + b)[..|p|] == a[..|p|];
  }

  /** `k` occurs in `s` starting at position `i`. */
  predicate OccursAt<T(==)>(s: seq<T>, k: seq<T>, i: int) {
    0 <= i <= |s| - |k| && s[i..i + |k|] == k
  }

  /** `s.includes(k)` for strings, as a statement about positions. */
  ghost predicate Occurs<T>(s: seq<T>, k: seq<T>) {
    exists i :: OccursAt(s, k, i)
  }

  /** `s.includes(k)`, computed by scanning the start positions from the left. */
  function Includes<T(==)>(s: seq<T>, k: seq<T>): (b: bool)
    ensures b <==> Occurs(s, k)
    decreases |s|
  {
    if StartsWith(s, k) then
      assert OccursAt(s, k, 0);
      true
    else if |s| <= |k| then
      false
    else
      var b := Includes(s[1..], k);
      assert b ==> Occurs(s, k) by {
        if b {
          var i :| OccursAt(s[1..], k, i);
          assert s[1..][i..i + |k|] == s[i + 1..i + 1 + |k|];
          assert OccursAt(s, k, i + 1);
        }
      }
      assert Occurs(s, k) ==> b by {
        if i :| OccursAt(s, k, i) {
          assert i != 0;
          assert s[1..][i - 1..i - 1 + |k|] == s[i..i + |k|];
          assert OccursAt(s[1..], k, i - 1);
        }
      }
      b
  }

  /** `parts.join(sep)`. */
  function Join(parts: seq<string>, sep: string): (r: string)
    ensures parts == [] ==> r == ""
    ensures |parts| == 1 ==> r == parts[0]
    ensures |parts| > 1 ==> StartsWith(r, parts[0] + sep)
  {
    if parts == [] then ""
    else if |parts| == 1 then parts[0]
    else
      var r := parts[0] + sep + Join(parts[1..], sep);
      assert r[..|parts[0] + sep|] == parts[0] + sep;
      r
  }

  /** Where the `i`-th part starts in `Join(parts, sep)`: the earlier parts and one separator after each. */
  function Offset(parts: seq<string>, sep: string, i: nat): nat
    requires i < |parts|
  {
    if i == 0 then 0 else |parts[0]| + |sep| + Offset(parts[1..], sep, i - 1)
  }

  /** The joined text is the parts laid end to end with one separator between neighbours, and nothing else. */
  lemma JoinLayout(parts: seq<string>, sep: string)
    requires parts != []
    ensures |Join(parts, sep)| == Offset(parts, sep, |parts| - 1) + |parts[|parts| - 1]|
    ensures forall i :: 0 <= i < |parts| ==> OccursAt(Join(parts, sep), parts[i], Offset(parts, sep, i))
    ensures forall i :: 0 <= i < |parts| - 1 ==> OccursAt(Join(parts, sep), sep, Offset(parts, sep, i) + |parts[i]|)
  {
    var r := Join(parts, sep);
    JoinLength(parts, sep);
    forall i | 0 <= i < |parts| ensures OccursAt(r, parts[i], Offset(parts, sep, i)) {
      JoinPart(parts, sep, i);
    }
    forall i | 0 <= i < |parts| - 1 ensures OccursAt(r, sep, Offset(parts, sep, i) + |parts[i]|) {
      JoinSeparator(parts, sep, i);
    }
  }

  lemma {:induction false} JoinLength(parts: seq<string>, sep: string)
    requires parts != []
    ensures |Join(parts, sep)| == Offset(parts, sep, |parts| - 1) + |parts[|parts| - 1]|
    decreases |parts|
  {
    if |parts| > 1 {
      JoinLength(parts[1..], sep);
      assert parts[1..][|parts| - 2] == parts[|parts| - 1];
    }
  }

  lemma {:induction false} JoinPart(parts: seq<string>, sep: string, i: nat)
    requires i < |parts|
    ensures OccursAt(Join(parts, sep), parts[i], Offset(parts, sep, i))
    decreases |parts|
  {
    var r := Join(parts, sep);
    if i == 0 {
      if |parts| > 1 {
        assert r[..|parts[0]|] == parts[0];
      }
    } else {
      var rest := Join(parts[1..], sep);
      var h := |parts[0]| + |sep|;
      var o := Offset(parts[1..], sep, i - 1);
      assert r == parts[0] + sep + rest;
      JoinPart(parts[1..], sep, i - 1);
      assert parts[1..][i - 1] == parts[i];
      assert r[h + o..h + o + |parts[i]|] == rest[o..o + |parts[i]|];
    }
  }

  lemma {:induction false} JoinSeparator(parts: seq<string>, sep: string, i: nat)
    requires i < |parts| - 1
    ensures OccursAt(Join(parts, sep), sep, Offset(parts, sep, i) + |parts[i]|)
    decreases |parts|
  {
    var r := Join(parts, sep);
    var rest := Join(parts[1..], sep);
    var h := |parts[0]| + |sep|;
    assert r == parts[0] + sep + rest;
    if i == 0 {
      assert r[|parts[0]|..h] == sep;
    } else {
      var o := Offset(parts[1..], sep, i - 1) + |parts[i]|;
      JoinSeparator(parts[1..], sep, i - 1);
      assert parts[1..][i - 1] == parts[i];
      assert r[h + o..h + o + |sep|] == rest[o..o + |sep|];
    }
  }
}
