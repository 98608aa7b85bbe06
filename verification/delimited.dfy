/** Delimiter-joined text fields, as the QR payload uses them, and the
    position-wise reader (`str.split`) that takes such text apart again. */
module Delimited {

  predicate Free(s: string, d: char) {
    d !in s
  }

  predicate AllFree(fields: seq<string>, d: char) {
    forall i :: 0 <= i < |fields| ==> Free(fields[i], d)
  }

  /** `d.join(fields)`; joining no fields gives the empty text. */
  function Join(fields: seq<string>, d: char): string
  {
    if |fields| == 0 then ""
    else if |fields| == 1 then fields[0]
    else fields[0] + [d] + Join(fields[1..], d)
  }

  /** Python's `s.split(d)`: the maximal runs between delimiters, in order;
      always at least one (possibly empty) field. */
  function Split(s: string, d: char): (fields: seq<string>)
    ensures |fields| > 0
    decreases |s|
  {
    if |s| == 0 then [""]
    else
      var rest := Split(s[1..], d);
      if s[0] == d then [""] + rest
      else [[s[0]] + rest[0]] + rest[1..]
  }

  /** A delimiter-free prefix glues onto the first field of what follows. */
  lemma {:induction false} SplitFreePrefix(p: string, tail: string, d: char)
    requires Free(p, d)
    ensures Split(p + tail, d) == [p + Split(tail, d)[0]] + Split(tail, d)[1..]
    decreases |p|
  {
    if |p| > 0 {
      assert (p + tail)[1..] == p[1..] + tail;
      assert (p + tail)[0] == p[0];
      SplitFreePrefix(p[1..], tail, d);
      assert [p[0]] + (p[1..] + Split(tail, d)[0]) == p + Split(tail, d)[0];
    } else {
      assert p + tail == tail;
      var parts := Split(tail, d);
      assert p + parts[0] == parts[0];
      assert [parts[0]] + parts[1..] == parts;
    }
  }

  /** Splitting joined delimiter-free fields recovers every field in its
      position. */
  lemma {:induction false} SplitJoin(fields: seq<string>, d: char)
    requires |fields| > 0
    requires AllFree(fields, d)
    ensures Split(Join(fields, d), d) == fields
    decreases |fields|
  {
    if |fields| == 1 {
      SplitFreePrefix(fields[0], "", d);
      assert fields[0] + "" == fields[0];
    } else {
      var rest := fields[1..];
      SplitJoin(rest, d);
      var tail := [d] + Join(rest, d);
      assert fields[0] + [d] + Join(rest, d) == fields[0] + tail;
      SplitFreePrefix(fields[0], tail, d);
      assert tail[1..] == Join(rest, d);
      assert Split(tail, d) == [""] + rest;
      assert fields[0] + "" == fields[0];
      assert fields == [fields[0]] + rest;
    }
  }
}
