/** Python's `str.join` and its inverse `str.split`, and substring occurrence. */
module Text {
  import opened Wrappers

  /** `t` occurs in `s` starting at index `i`. */
  predicate OccursAt(s: string, t: string, i: nat) {
    i + |t| <= |s| && s[i..i + |t|] == t
  }

  /** Python's `t in s` for strings. */
  predicate Contains(s: string, t: string) {
    exists i: nat | i <= |s| :: OccursAt(s, t, i)
  }

  /** The middle part of a concatenation occurs where the first part ends. */
  lemma OccursAfterPrefix(a: string, b: string, c: string)
    ensures OccursAt(a + b + c, b, |a|)
    ensures Contains(a + b + c, b)
  {
    assert (a + b + c)[|a|..|a| + |b|] == b;
    assert OccursAt(a + b + c, b, |a|);
  }

  /**
   * An f-string: its fixed fragments with the rendered fields in between,
   * `frags[0] + fields[0] + frags[1] + ... + fields[n-1] + frags[n]`.
   */
  function Fill(frags: seq<string>, fields: seq<string>): string
    requires |frags| == |fields| + 1
    decreases |fields|
  {
    if |fields| == 0 then frags[0]
    else frags[0] + fields[0] + Fill(frags[1..], fields[1..])
  }

  /** Where field `i` starts: after the first `i` fragments and fields and fragment `i`. */
  function FieldOffset(frags: seq<string>, fields: seq<string>, i: nat): (k: nat)
    requires |frags| == |fields| + 1 && i < |fields|
    ensures k >= |frags[i]|
    decreases i
  {
    if i == 0 then |frags[0]|
    else |frags[0]| + |fields[0]| + FieldOffset(frags[1..], fields[1..], i - 1)
  }

  /** A filled template starts with its first fragment. */
  lemma FillStartsWith(frags: seq<string>, fields: seq<string>)
    requires |frags| == |fields| + 1
    ensures |frags[0]| <= |Fill(frags, fields)|
    ensures Fill(frags, fields)[..|frags[0]|] == frags[0]
  {
  }

  /**
   * Every field of a filled template appears verbatim at its offset, between
   * the fragment before it and the fragment after it.
   */
  lemma {:induction false} FillEmbeds(frags: seq<string>, fields: seq<string>, i: nat)
    requires |frags| == |fields| + 1 && i < |fields|
    ensures OccursAt(Fill(frags, fields), fields[i], FieldOffset(frags, fields, i))
    ensures OccursAt(Fill(frags, fields), frags[i] + fields[i] + frags[i + 1], FieldOffset(frags, fields, i) - |frags[i]|)
    decreases i
  {
    var s := Fill(frags, fields);
    var rest := Fill(frags[1..], fields[1..]);
    var k := FieldOffset(frags, fields, i);
    if i == 0 {
      FillStartsWith(frags[1..], fields[1..]);
      OccursAfterPrefix(frags[0], fields[0], rest);
      PrefixOccurs(frags[0] + fields[0], frags[1], rest);
    } else {
      FillEmbeds(frags[1..], fields[1..], i - 1);
      assert frags[1..][i - 1] == frags[i] && frags[1..][i] == frags[i + 1];
      OccursShift(frags[0] + fields[0], rest, fields[i], k - |frags[0]| - |fields[0]|);
      OccursShift(frags[0] + fields[0], rest, frags[i] + fields[i] + frags[i + 1], k - |frags[0]| - |fields[0]| - |frags[i]|);
    }
  }

  lemma OccursShift(pre: string, s: string, t: string, j: nat)
    requires OccursAt(s, t, j)
    ensures OccursAt(pre + s, t, |pre| + j)
  {
  }

  /** If `b` begins `c`, then `a + b` begins `a + c`. */
  lemma PrefixOccurs(a: string, b: string, c: string)
    requires |b| <= |c| && c[..|b|] == b
    ensures OccursAt(a + c, a + b, 0)
  {
  }

  /** Templates filled with fields of the same lengths agree exactly when the fields do. */
  lemma {:induction false} FillDeterminesFields(frags: seq<string>, fields1: seq<string>, fields2: seq<string>)
    requires |frags| == |fields1| + 1 && |fields1| == |fields2|
    requires forall i :: 0 <= i < |fields1| ==> |fields1[i]| == |fields2[i]|
    ensures Fill(frags, fields1) == Fill(frags, fields2) <==> fields1 == fields2
  {
    if Fill(frags, fields1) == Fill(frags, fields2) {
      forall i | 0 <= i < |fields1| ensures fields1[i] == fields2[i] {
        FillEmbeds(frags, fields1, i);
        FillEmbeds(frags, fields2, i);
        SameOffset(frags, fields1, fields2, i);
      }
    }
  }

  lemma {:induction false} SameOffset(frags: seq<string>, fields1: seq<string>, fields2: seq<string>, i: nat)
    requires |frags| == |fields1| + 1 && |fields1| == |fields2| && i < |fields1|
    requires forall j :: 0 <= j < |fields1| ==> |fields1[j]| == |fields2[j]|
    ensures FieldOffset(frags, fields1, i) == FieldOffset(frags, fields2, i)
    decreases i
  {
    if i > 0 {
      SameOffset(frags[1..], fields1[1..], fields2[1..], i - 1);
    }
  }

  /** Python's `sep.join(xs)`: the items in order, with `sep` between neighbours. */
  function Join(sep: string, xs: seq<string>): string {
    if |xs| == 0 then ""
    else if |xs| == 1 then xs[0]
    else xs[0] + sep + Join(sep, xs[1..])
  }

  /** The first index at or after `from` where `sep` occurs in `s`. */
  function FirstAt(s: string, sep: string, from: nat): (r: Option<nat>)
    ensures r.Some? ==> from <= r.value && OccursAt(s, sep, r.value)
    ensures r.Some? ==> forall j: nat :: from <= j < r.value ==> !OccursAt(s, sep, j)
    ensures r.None? ==> forall j: nat :: from <= j ==> !OccursAt(s, sep, j)
    decreases |s| - from
  {
    if from + |sep| > |s| then None
    else if s[from..from + |sep|] == sep then Some(from)
    else FirstAt(s, sep, from + 1)
  }

  /** Python's `s.split(sep)` for a non-empty separator. */
  function Split(s: string, sep: string): (r: seq<string>)
    requires |sep| > 0
    ensures |r| >= 1
    decreases |s|
  {
    match FirstAt(s, sep, 0)
    case None => [s]
    case Some(i) => [s[..i]] + Split(s[i + |sep|..], sep)
  }

  /** In `x + ", " + rest`, the first `", "` is the one after `x` when `x` holds none. */
  lemma {:induction false} FirstCommaAfterItem(x: string, rest: string, from: nat)
    requires from <= |x|
    requires !Contains(x, ", ")
    ensures FirstAt(x + ", " + rest, ", ", from) == Some(|x|)
    decreases |x| - from
  {
    var s := x + ", " + rest;
    if from == |x| {
      assert s[from..from + 2] == ", ";
    } else {
      if from + 2 <= |x| {
        assert s[from..from + 2] == x[from..from + 2];
        assert !OccursAt(x, ", ", from);
      } else {
        assert s[from + 1] == ',';
      }
      FirstCommaAfterItem(x, rest, from + 1);
    }
  }

  /**
   * Splitting a `", "`-joined list on `", "` gives the items back, in order,
   * when no item itself contains `", "`.
   */
  lemma {:induction false} SplitJoin(xs: seq<string>)
    requires |xs| >= 1
    requires forall i :: 0 <= i < |xs| ==> !Contains(xs[i], ", ")
    ensures Split(Join(", ", xs), ", ") == xs
  {
    if |xs| > 1 {
      var x, tail := xs[0], Join(", ", xs[1..]);
      var s := x + ", " + tail;
      FirstCommaAfterItem(x, tail, 0);
      assert s[..|x|] == x;
      assert s[|x| + 2..] == tail;
      SplitJoin(xs[1..]);
      assert [x] + xs[1..] == xs;
    }
  }
}
