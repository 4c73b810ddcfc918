/** Python's `str.split(sep)` with a one-character separator, and its inverse
    `sep.join(parts)`. */
module Text {

  /** The number of occurrences of `c` in `s`. */
  function Occurrences(s: string, c: char): nat {
    if s == [] then 0 else (if s[0] == c then 1 else 0) + Occurrences(s[1..], c)
  }

  /** `s.split(c)`: the maximal runs of `s` between occurrences of `c`. */
  function Split(s: string, c: char): (parts: seq<string>)
    ensures |parts| == Occurrences(s, c) + 1
    ensures forall i :: 0 <= i < |parts| ==> c !in parts[i]
    decreases |s|
  {
    if s == [] then [""]
    else
      var rest := Split(s[1..], c);
      if s[0] == c then [""] + rest
      else [[s[0]] + rest[0]] + rest[1..]
  }

  /** `c.join(parts)`. */
  function Join(parts: seq<string>, c: char): string
    requires |parts| >= 1
    decreases |parts|
  {
    if |parts| == 1 then parts[0] else parts[0] + [c] + Join(parts[1..], c)
  }

  lemma OccursIffCounted(s: string, c: char)
    ensures c in s <==> Occurrences(s, c) > 0
  {
  }

  /** Joining the fields of a split gives back the original string. */
  lemma {:induction false} JoinSplit(s: string, c: char)
    ensures Join(Split(s, c), c) == s
    decreases |s|
  {
    if s != [] {
      var rest := Split(s[1..], c);
      JoinSplit(s[1..], c);
      if s[0] == c {
        assert Split(s, c)[1..] == rest;
      } else {
        var parts := Split(s, c);
        if |rest| == 1 {
          assert parts == [[s[0]] + rest[0]];
        } else {
          assert parts[1..] == rest[1..];
          assert Join(rest, c) == rest[0] + [c] + Join(rest[1..], c);
        }
      }
    }
  }

  /** Splitting a join of separator-free fields gives back the fields. */
  lemma {:induction false} SplitJoin(parts: seq<string>, c: char)
    requires |parts| >= 1
    requires forall i :: 0 <= i < |parts| ==> c !in parts[i]
    ensures Split(Join(parts, c), c) == parts
    decreases |parts|, |parts[0]|
  {
    if |parts[0]| > 0 {
      var head := parts[0];
      var shorter := [head[1..]] + parts[1..];
      assert c !in head[1..] by { assert forall k :: 0 <= k < |head| - 1 ==> head[1..][k] == head[k + 1]; }
      SplitJoin(shorter, c);
      if |parts| == 1 {
        assert Join(parts, c) == [head[0]] + Join(shorter, c);
      } else {
        assert Join(shorter, c) == head[1..] + [c] + Join(parts[1..], c);
        assert Join(parts, c) == [head[0]] + Join(shorter, c);
      }
      assert head[0] != c by { assert head[0] in head; }
      assert [head[0]] + head[1..] == head;
    } else if |parts| > 1 {
      SplitJoin(parts[1..], c);
      assert Join(parts, c) == [c] + Join(parts[1..], c);
      assert [c] + Join(parts[1..], c) == Join(parts, c);
      assert Join(parts, c)[1..] == Join(parts[1..], c);
    }
  }

  /** The first field of a split is the prefix of `s` up to the first
      separator (or all of `s`), and the remaining fields are the split of
      what follows that separator. */
  lemma {:induction false} FirstField(s: string, c: char)
    ensures var f := Split(s, c)[0];
      && |f| <= |s| && s[..|f|] == f
      && (|f| == |s| || s[|f|] == c)
      && (|f| < |s| ==> Split(s, c)[1..] == Split(s[|f| + 1..], c))
    decreases |s|
  {
    if s != [] && s[0] != c {
      FirstField(s[1..], c);
      var rest := Split(s[1..], c);
      var f := Split(s, c)[0];
      assert f == [s[0]] + rest[0];
      assert s[..|f|] == [s[0]] + s[1..][..|rest[0]|];
      if |f| < |s| {
        assert s[|f| + 1..] == s[1..][|rest[0]| + 1..];
        assert Split(s, c)[1..] == rest[1..];
      }
    }
  }
}
