/** Dot-separated key paths: splitting a path string into segments and joining them back. */
module Paths {

  /** A segment is any string without a dot; spaces and the empty string are allowed. */
  predicate Plain(s: string) {
    '.' !in s
  }

  predicate AllPlain(segs: seq<string>) {
    forall i :: 0 <= i < |segs| ==> Plain(segs[i])
  }

  /** Splits a path at every '.', as PHP's explode('.', path) does: never empty, no segment holds a dot. */
  function Split(s: string): (r: seq<string>)
    ensures |r| >= 1
    ensures AllPlain(r)
    ensures Plain(s) ==> r == [s]
    decreases |s|
  {
    if |s| == 0 then [""]
    else if s[0] == '.' then [""] + Split(s[1..])
    else
      var rest := Split(s[1..]);
      assert Plain(s) ==> Plain(s[1..]) && s == [s[0]] + s[1..];
      [[s[0]] + rest[0]] + rest[1..]
  }

  /** Glues segments back together with '.', the inverse of Split. */
  function Join(segs: seq<string>): (r: string)
    requires |segs| >= 1
  {
    if |segs| == 1 then segs[0] else segs[0] + "." + Join(segs[1..])
  }

  /** Joining the pieces of a split path gives the path back. */
  lemma {:induction false} JoinSplit(s: string)
    ensures Join(Split(s)) == s
    decreases |s|
  {
    if |s| == 0 {
    } else if s[0] == '.' {
      JoinSplit(s[1..]);
      assert s == "" + "." + s[1..];
    } else {
      var rest := Split(s[1..]);
      JoinSplit(s[1..]);
      if |rest| == 1 {
        assert s == [s[0]] + rest[0];
      } else {
        assert Join(rest) == rest[0] + "." + Join(rest[1..]);
        assert s == [s[0]] + s[1..];
      }
    }
  }

  /** A path written as joined dot-free segments splits into exactly those segments. */
  lemma {:induction false} SplitJoin(segs: seq<string>)
    requires |segs| >= 1 && AllPlain(segs)
    ensures Split(Join(segs)) == segs
    decreases |Join(segs)|
  {
    if |segs| == 1 {
    } else {
      SplitJoin(segs[1..]);
      SplitPlainDot(segs[0], Join(segs[1..]));
    }
  }

  /** Splitting "a.b" where a has no dot gives a followed by the segments of b. */
  lemma {:induction false} SplitPlainDot(a: string, b: string)
    requires Plain(a)
    ensures Split(a + "." + b) == [a] + Split(b)
    decreases |a|
  {
    var s := a + "." + b;
    if |a| == 0 {
      assert s == ['.'] + b;
      assert s[1..] == b;
    } else {
      assert s[0] == a[0] && s[0] != '.';
      assert s[1..] == a[1..] + "." + b;
      SplitPlainDot(a[1..], b);
      assert a == [a[0]] + a[1..];
    }
  }

  /** The segments of "a.b" are those of a followed by those of b. */
  lemma {:induction false} SplitConcat(a: string, b: string)
    ensures Split(a + "." + b) == Split(a) + Split(b)
    decreases |a|
  {
    var s := a + "." + b;
    if |a| == 0 {
      assert s == ['.'] + b;
      assert s[1..] == b;
    } else if a[0] == '.' {
      assert s[1..] == a[1..] + "." + b;
      SplitConcat(a[1..], b);
    } else {
      assert s[1..] == a[1..] + "." + b;
      SplitConcat(a[1..], b);
    }
  }
}
