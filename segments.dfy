/**
 * `s.split('/')` and `s.split('/').pop()`, the way the client takes a short
 * code out of a short URL.
 */
module Segments {

  /** `suffix` is a tail of `s`. */
  predicate EndsWith(s: string, suffix: string) {
    |suffix| <= |s| && s[|s| - |suffix|..] == suffix
  }

  /** `s.split('/')`: the pieces between slashes, in order; always at least one,
      and an empty piece for each leading, trailing or doubled slash. */
  function Split(s: string): (parts: seq<string>)
    ensures |parts| >= 1
    ensures forall i :: 0 <= i < |parts| ==> '/' !in parts[i]
  {
    if s == [] then [""]
    else
      var rest := Split(s[1..]);
      if s[0] == '/' then [""] + rest
      else [[s[0]] + rest[0]] + rest[1..]
  }

  /** `parts.join('/')`, the inverse of Split. */
  function Join(parts: seq<string>): string
    requires |parts| >= 1
  {
    if |parts| == 1 then parts[0] else parts[0] + "/" + Join(parts[1..])
  }

  /** Joining the pieces of a split gives back the string. */
  lemma {:induction false} JoinSplit(s: string)
    ensures Join(Split(s)) == s
  {
    if s != [] {
      JoinSplit(s[1..]);
      var rest := Split(s[1..]);
      if s[0] == '/' {
        assert ([""] + rest)[1..] == rest;
        assert s == "" + "/" + s[1..];
      } else {
        var parts := [[s[0]] + rest[0]] + rest[1..];
        assert parts[1..] == rest[1..];
        if |rest| == 1 {
          assert s == [s[0]] + rest[0];
        } else {
          assert Join(rest) == rest[0] + "/" + Join(rest[1..]);
          assert s == [s[0]] + (rest[0] + "/" + Join(rest[1..]));
        }
      }
    }
  }

  /** Splitting a slash-free prefix glued to `t` extends the first piece of `t`. */
  lemma {:induction false} SplitSlashFreePrefix(p: string, t: string)
    requires '/' !in p
    ensures Split(p + t) == [p + Split(t)[0]] + Split(t)[1..]
  {
    if p != [] {
      SplitSlashFreePrefix(p[1..], t);
      assert (p + t)[1..] == p[1..] + t;
      assert (p + t)[0] == p[0];
      assert [p[0]] + (p[1..] + Split(t)[0]) == p + Split(t)[0];
    } else {
      assert p + t == t;
      assert p + Split(t)[0] == Split(t)[0];
      assert Split(t) == [Split(t)[0]] + Split(t)[1..];
    }
  }

  /** Splitting joined slash-free pieces gives back the pieces. */
  lemma {:induction false} SplitJoin(parts: seq<string>)
    requires |parts| >= 1
    requires forall i :: 0 <= i < |parts| ==> '/' !in parts[i]
    ensures Split(Join(parts)) == parts
  {
    if |parts| == 1 {
      SplitSlashFreePrefix(parts[0], "");
      assert parts[0] + "" == parts[0];
      assert [parts[0]] == parts;
    } else {
      SplitJoin(parts[1..]);
      var tail := "/" + Join(parts[1..]);
      assert Split(tail) == [""] + parts[1..] by {
        assert tail[1..] == Join(parts[1..]);
      }
      SplitSlashFreePrefix(parts[0], tail);
      assert parts[0] + "/" + Join(parts[1..]) == parts[0] + tail;
      assert Split(tail)[0] == "" && Split(tail)[1..] == parts[1..];
      assert parts[0] + "" == parts[0];
      assert [parts[0]] + parts[1..] == parts;
    }
  }

  /** The last piece of joined slash-free pieces is the longest slash-free tail of the result. */
  lemma {:induction false} JoinEndsWithLast(parts: seq<string>)
    requires |parts| >= 1
    requires forall i :: 0 <= i < |parts| ==> '/' !in parts[i]
    ensures var j, l := Join(parts), parts[|parts| - 1];
      EndsWith(j, l) && (|l| == |j| || j[|j| - |l| - 1] == '/')
  {
    if |parts| > 1 {
      var rest := parts[1..];
      JoinEndsWithLast(rest);
      var j, l, jr := Join(parts), parts[|parts| - 1], Join(rest);
      assert rest[|rest| - 1] == l;
      assert j == parts[0] + "/" + jr;
      assert j[|j| - |jr|..] == jr;
      assert j[|j| - |l|..] == jr[|jr| - |l|..];
      if |l| == |jr| {
        assert j[|j| - |l| - 1] == '/';
      } else {
        assert j[|j| - |l| - 1] == jr[|jr| - |l| - 1];
      }
    }
  }

  /** `s.split('/').pop()`: the part of `s` after its last slash, or all of `s`
      when it has none. */
  function LastSegment(s: string): (r: string)
    ensures '/' !in r
    ensures EndsWith(s, r)
    ensures |r| == |s| || s[|s| - |r| - 1] == '/'
    ensures '/' !in s ==> r == s
  {
    var parts := Split(s);
    JoinSplit(s);
    JoinEndsWithLast(parts);
    parts[|parts| - 1]
  }

  /** The three properties LastSegment promises determine its result. */
  lemma LastSegmentUnique(s: string, r: string)
    requires '/' !in r
    requires EndsWith(s, r)
    requires |r| == |s| || s[|s| - |r| - 1] == '/'
    ensures r == LastSegment(s)
  {
  }
}
