/** Python's str.split("/"), "/".join(...) and list slicing, on strings. */
module Py {

  /** Number of occurrences of `c` in `s`. */
  function Count(s: string, c: char): nat
  {
    if s == [] then 0 else (if s[0] == c then 1 else 0) + Count(s[1..], c)
  }

  lemma {:induction false} CountConcat(x: string, y: string, c: char)
    ensures Count(x + y, c) == Count(x, c) + Count(y, c)
  {
    if x != [] {
      assert (x + y)[0] == x[0] && (x + y)[1..] == x[1..] + y;
      CountConcat(x[1..], y, c);
    } else {
      assert x + y == y;
    }
  }

  lemma {:induction false} CountZero(s: string, c: char)
    ensures Count(s, c) == 0 <==> c !in s
  {
    if s != [] {
      CountZero(s[1..], c);
      assert s == [s[0]] + s[1..];
    }
  }

  /** Python's s.split("/"): the pieces between separators, empty ones included. Built from the
      back: a slash starts a new (empty) first piece, any other character extends the first piece. */
  function Split(s: string): (parts: seq<string>)
    ensures |parts| >= 1
    ensures forall k :: 0 <= k < |parts| ==> '/' !in parts[k]
  {
    if s == [] then [""]
    else
      var rest := Split(s[1..]);
      if s[0] == '/' then [""] + rest
      else [[s[0]] + rest[0]] + rest[1..]
  }

  /** Python's "/".join(parts). */
  function Join(parts: seq<string>): (r: string)
    ensures |parts| == 0 ==> r == ""
    ensures |parts| >= 1 ==> parts[0] <= r
    ensures |parts| >= 2 ==> parts[0] + "/" <= r
  {
    if |parts| == 0 then ""
    else if |parts| == 1 then parts[0]
    else parts[0] + "/" + Join(parts[1..])
  }

  /** Python's parts[:n] for n >= 0: the whole list when it is shorter than n. */
  function Take<T>(parts: seq<T>, n: nat): (r: seq<T>)
    ensures |r| == (if |parts| < n then |parts| else n)
    ensures r <= parts
  {
    if |parts| <= n then parts else parts[..n]
  }

  /** Splitting at a separator splits each side independently. */
  lemma {:induction false} SplitConcat(x: string, y: string)
    ensures Split(x + "/" + y) == Split(x) + Split(y)
  {
    if x == [] {
      assert x + "/" + y == "/" + y && ("/" + y)[1..] == y;
    } else {
      assert (x + "/" + y)[0] == x[0] && (x + "/" + y)[1..] == x[1..] + "/" + y;
      SplitConcat(x[1..], y);
    }
  }

  /** A slash-free string is its own single piece. */
  lemma {:induction false} SplitSlashFree(s: string)
    requires '/' !in s
    ensures Split(s) == [s]
  {
    if s != [] {
      assert '/' !in s[1..];
      SplitSlashFree(s[1..]);
      assert [s[0]] + s[1..] == s;
    }
  }

  /** Prepending a character to the first piece prepends it to the join. */
  lemma JoinExtendFirst(c: char, first: string, others: seq<string>)
    ensures Join([[c] + first] + others) == [c] + Join([first] + others)
  {
    var extended, parts := [[c] + first] + others, [first] + others;
    assert extended[0] == [c] + first && parts[0] == first;
    if others != [] {
      assert extended[1..] == others && parts[1..] == others;
      var tail := Join(others);
      assert Join(extended) == ([c] + first) + "/" + tail;
      assert Join(parts) == first + "/" + tail;
      assert ([c] + first) + "/" + tail == [c] + (first + "/" + tail);
    }
  }

  /** Joining the pieces of a split gives back the string. */
  lemma {:induction false} JoinSplit(s: string)
    ensures Join(Split(s)) == s
  {
    if s != [] {
      var rest := Split(s[1..]);
      JoinSplit(s[1..]);
      if s[0] == '/' {
        assert ([""] + rest)[1..] == rest;
      } else {
        JoinExtendFirst(s[0], rest[0], rest[1..]);
        assert [rest[0]] + rest[1..] == rest;
      }
      assert [s[0]] + s[1..] == s;
    }
  }

  /** Splitting a join of slash-free pieces gives back the pieces. */
  lemma {:induction false} SplitJoin(parts: seq<string>)
    requires |parts| >= 1
    requires forall k :: 0 <= k < |parts| ==> '/' !in parts[k]
    ensures Split(Join(parts)) == parts
  {
    SplitSlashFree(parts[0]);
    if |parts| > 1 {
      SplitConcat(parts[0], Join(parts[1..]));
      SplitJoin(parts[1..]);
      assert parts == [parts[0]] + parts[1..];
    }
  }

  /** A join of slash-free pieces has one slash fewer than it has pieces. */
  lemma {:induction false} JoinCount(parts: seq<string>)
    requires |parts| >= 1
    requires forall k :: 0 <= k < |parts| ==> '/' !in parts[k]
    ensures Count(Join(parts), '/') == |parts| - 1
  {
    CountZero(parts[0], '/');
    if |parts| > 1 {
      CountConcat(parts[0], "/" + Join(parts[1..]), '/');
      CountConcat("/", Join(parts[1..]), '/');
      assert parts[0] + "/" + Join(parts[1..]) == parts[0] + ("/" + Join(parts[1..]));
      JoinCount(parts[1..]);
    }
  }

  /** s.split("/") has exactly one more piece than s has slashes. */
  lemma {:induction false} SplitLength(s: string)
    ensures |Split(s)| == Count(s, '/') + 1
  {
    JoinSplit(s);
    JoinCount(Split(s));
  }

  /** Joining the first k pieces gives a prefix of the full join, cut just before a slash. */
  lemma {:induction false} JoinPrefix(parts: seq<string>, k: nat)
    requires 1 <= k <= |parts|
    ensures Join(parts[..k]) <= Join(parts)
    ensures k < |parts| ==> Join(parts[..k]) + "/" <= Join(parts)
  {
    if k > 1 {
      assert parts[..k][1..] == parts[1..][..k - 1];
      JoinPrefix(parts[1..], k - 1);
    }
  }
}
