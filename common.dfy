/** Option and Result, used for the source's `null` returns and its thrown errors. */
module Wrappers {

  datatype Option<+T> = None | Some(value: T)

  datatype Result<+T, +E> = Success(value: T) | Failure(error: E)
}

/** What one `localStorage` item holds, as the code that reads it sees it. */
module Storage {

  /** The text stored under a key either parses to the record the code expects
      (`JSON.parse` succeeds) or it does not (`JSON.parse` throws). A key whose
      `getItem` yields `null` or the empty string is modelled by `None` around this. */
  datatype Content<+T> = Parsed(value: T) | Unparseable
}

/** String helpers shared by the modules below. */
module Text {

  /** `s.startsWith(p)` */
  predicate StartsWith(s: string, p: string)
  {
    |p| <= |s| && s[..|p|] == p
  }

  /** `s.includes(p)` */
  predicate Includes(s: string, p: string)
    decreases |s|
  {
    StartsWith(s, p) || (s != [] && Includes(s[1..], p))
  }

  /** `p` stands in `s` at offset `i`. */
  predicate OccursAt(s: string, p: string, i: int)
  {
    0 <= i && i + |p| <= |s| && s[i..i + |p|] == p
  }

  /** `Includes` holds exactly when the pattern stands at some offset. */
  lemma {:induction false} IncludesAt(s: string, p: string)
    ensures Includes(s, p) <==> exists i :: OccursAt(s, p, i)
    decreases |s|
  {
    if s != [] {
      IncludesAt(s[1..], p);
      if Includes(s[1..], p) {
        var i :| OccursAt(s[1..], p, i);
        assert s[1..][i..i + |p|] == s[i + 1..i + 1 + |p|];
        assert OccursAt(s, p, i + 1);
      }
      if StartsWith(s, p) {
        assert OccursAt(s, p, 0);
      }
      if exists i :: OccursAt(s, p, i) {
        var i :| OccursAt(s, p, i);
        if i > 0 {
          assert s[1..][i - 1..i - 1 + |p|] == s[i..i + |p|];
          assert OccursAt(s[1..], p, i - 1);
        }
      }
    } else {
      if StartsWith(s, p) {
        assert OccursAt(s, p, 0);
      }
      if exists i :: OccursAt(s, p, i) {
        var i :| OccursAt(s, p, i);
        assert i == 0;
      }
    }
  }

  /** `parts.join(sep)` */
  function Join(parts: seq<string>, sep: string): string
  {
    if parts == [] then ""
    else if |parts| == 1 then parts[0]
    else parts[0] + sep + Join(parts[1..], sep)
  }

  /** A join starts with its first part. */
  lemma {:induction false} JoinStartsWith(parts: seq<string>, sep: string)
    requires parts != []
    ensures StartsWith(Join(parts, sep), parts[0])
  {
    if |parts| > 1 {
      assert Join(parts, sep) == parts[0] + (sep + Join(parts[1..], sep));
    }
  }

  /** Where part `k` begins in a join: the parts before it, each followed by `sep`. */
  function Offset(parts: seq<string>, sep: string, k: nat): nat
    requires k <= |parts|
    decreases k
  {
    if k == 0 then 0 else |parts[0]| + |sep| + Offset(parts[1..], sep, k - 1)
  }

  /** `s` has the length of `parts` joined by `sep`. */
  predicate LengthFits(s: string, parts: seq<string>, sep: string)
  {
    if parts == [] then s == [] else |s| == Offset(parts, sep, |parts| - 1) + |parts[|parts| - 1]|
  }

  /** Each part stands in `s` at its offset. */
  predicate PartsAt(s: string, parts: seq<string>, sep: string)
  {
    forall k :: 0 <= k < |parts| ==> OccursAt(s, parts[k], Offset(parts, sep, k))
  }

  /** A separator follows every part but the last. */
  predicate SeparatorsAt(s: string, parts: seq<string>, sep: string)
  {
    forall k :: 0 <= k < |parts| - 1 ==> OccursAt(s, sep, Offset(parts, sep, k) + |parts[k]|)
  }

  /** `s` is laid out as `parts` separated by `sep`: each part stands at its offset, a
      separator follows every part but the last, and nothing follows the last part. */
  predicate JoinedAs(s: string, parts: seq<string>, sep: string)
  {
    LengthFits(s, parts, sep) && PartsAt(s, parts, sep) && SeparatorsAt(s, parts, sep)
  }

  /** `p` stands at `h + i` in `s` exactly when it stands at `i` in what follows `h`. */
  lemma OccursShift(s: string, h: nat, p: string, i: nat)
    requires h <= |s|
    ensures OccursAt(s, p, h + i) <==> OccursAt(s[h..], p, i)
  {
    if h + i + |p| <= |s| {
      assert s[h..][i..i + |p|] == s[h + i..h + i + |p|];
    }
  }

  lemma {:induction false} JoinLength(parts: seq<string>, sep: string)
    requires parts != []
    ensures |Join(parts, sep)| == Offset(parts, sep, |parts| - 1) + |parts[|parts| - 1]|
    decreases |parts|
  {
    if |parts| > 1 {
      JoinLength(parts[1..], sep);
    }
  }

  lemma {:induction false} JoinPartAt(parts: seq<string>, sep: string, k: nat)
    requires k < |parts|
    ensures OccursAt(Join(parts, sep), parts[k], Offset(parts, sep, k))
    decreases k
  {
    var s := Join(parts, sep);
    if k == 0 {
      JoinStartsWith(parts, sep);
      assert s[0..|parts[0]|] == s[..|parts[0]|];
    } else {
      var head := parts[0] + sep;
      assert s == head + Join(parts[1..], sep);
      assert s[|head|..] == Join(parts[1..], sep);
      JoinPartAt(parts[1..], sep, k - 1);
      OccursShift(s, |head|, parts[k], Offset(parts[1..], sep, k - 1));
    }
  }

  lemma {:induction false} JoinSeparatorAt(parts: seq<string>, sep: string, k: nat)
    requires k + 1 < |parts|
    ensures OccursAt(Join(parts, sep), sep, Offset(parts, sep, k) + |parts[k]|)
    decreases k
  {
    var s := Join(parts, sep);
    var head := parts[0] + sep;
    var rest := Join(parts[1..], sep);
    assert s == head + rest;
    if k == 0 {
      assert Offset(parts, sep, 0) == 0;
      assert s[|parts[0]|..|parts[0]| + |sep|] == sep;
    } else {
      assert s[|head|..] == rest;
      JoinSeparatorAt(parts[1..], sep, k - 1);
      assert parts[1..][k - 1] == parts[k];
      var i := Offset(parts[1..], sep, k - 1) + |parts[k]|;
      assert OccursAt(rest, sep, i);
      assert Offset(parts, sep, k) + |parts[k]| == |head| + i;
      OccursShift(s, |head|, sep, i);
    }
  }

  /** `Join` lays its parts out as `JoinedAs` describes. */
  lemma JoinLaysOut(parts: seq<string>, sep: string)
    ensures JoinedAs(Join(parts, sep), parts, sep)
  {
    if parts != [] {
      JoinLength(parts, sep);
    }
    forall k | 0 <= k < |parts|
      ensures OccursAt(Join(parts, sep), parts[k], Offset(parts, sep, k))
    {
      JoinPartAt(parts, sep, k);
    }
    forall k | 0 <= k < |parts| - 1
      ensures OccursAt(Join(parts, sep), sep, Offset(parts, sep, k) + |parts[k]|)
    {
      JoinSeparatorAt(parts, sep, k);
    }
  }

  /** What follows the first part and its separator is laid out as the other parts. */
  lemma TailLengthFits(s: string, parts: seq<string>, sep: string)
    requires |parts| > 1 && |parts[0]| + |sep| <= |s| && LengthFits(s, parts, sep)
    ensures LengthFits(s[|parts[0]| + |sep|..], parts[1..], sep)
  {
    assert Offset(parts, sep, |parts| - 1) == |parts[0]| + |sep| + Offset(parts[1..], sep, |parts| - 2);
  }

  lemma TailPartsAt(s: string, parts: seq<string>, sep: string)
    requires |parts| > 1 && |parts[0]| + |sep| <= |s| && PartsAt(s, parts, sep)
    ensures PartsAt(s[|parts[0]| + |sep|..], parts[1..], sep)
  {
    var h := |parts[0]| + |sep|;
    var tail := parts[1..];
    forall k | 0 <= k < |tail|
      ensures OccursAt(s[h..], tail[k], Offset(tail, sep, k))
    {
      assert OccursAt(s, parts[k + 1], Offset(parts, sep, k + 1));
      OccursShift(s, h, tail[k], Offset(tail, sep, k));
    }
  }

  lemma TailSeparatorsAt(s: string, parts: seq<string>, sep: string)
    requires |parts| > 1 && |parts[0]| + |sep| <= |s| && SeparatorsAt(s, parts, sep)
    ensures SeparatorsAt(s[|parts[0]| + |sep|..], parts[1..], sep)
  {
    var h := |parts[0]| + |sep|;
    var tail := parts[1..];
    forall k | 0 <= k < |tail| - 1
      ensures OccursAt(s[h..], sep, Offset(tail, sep, k) + |tail[k]|)
    {
      assert OccursAt(s, sep, Offset(parts, sep, k + 1) + |parts[k + 1]|);
      OccursShift(s, h, sep, Offset(tail, sep, k) + |tail[k]|);
    }
  }

  /** Conversely, the layout determines the string: it is the join. */
  lemma {:induction false} JoinedAsIsJoin(s: string, parts: seq<string>, sep: string)
    requires JoinedAs(s, parts, sep)
    ensures s == Join(parts, sep)
    decreases |parts|
  {
    if |parts| == 1 {
      assert OccursAt(s, parts[0], 0);
      assert s == s[0..|parts[0]|];
    } else if |parts| > 1 {
      var h := |parts[0]| + |sep|;
      assert OccursAt(s, sep, Offset(parts, sep, 0) + |parts[0]|);
      TailLengthFits(s, parts, sep);
      TailPartsAt(s, parts, sep);
      TailSeparatorsAt(s, parts, sep);
      JoinedAsIsJoin(s[h..], parts[1..], sep);
      assert OccursAt(s, parts[0], 0);
      assert OccursAt(s, sep, Offset(parts, sep, 0) + |parts[0]|);
      assert s == s[0..|parts[0]|] + s[|parts[0]|..h] + s[h..];
    }
  }
}
