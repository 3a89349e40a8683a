/** The few pieces of Python semantics the agent relies on: exceptions as a
    result value, the dynamically typed argument of the entry point, and the
    built-ins str.split(' '), ' '.join and zip. */
module Python {

  datatype Option<+T> = None | Some(value: T)

  /** The outcome of a Python call: a value, or an exception that propagates
      to the caller. Failure-compatible, so `:-` stops at the first exception. */
  datatype Result<+T> = Ok(value: T) | Raised {
    predicate IsFailure() { Raised? }

    function PropagateFailure<U>(): Result<U>
      requires Raised?
    {
      Raised
    }

    function Extract(): T
      requires Ok?
    {
      value
    }
  }

  /** The Python values the entry point can be handed. `Other` stands for any
      object of another type (float, dict, None, ...) and carries its str(). */
  datatype Value =
    | Str(s: string)
    | Int(i: int)
    | Bool(b: bool)
    | List(items: seq<Value>)
    | Other(text: string)

  /** Python's `v == 0`; bool is a subclass of int, so False equals 0. */
  predicate EqualsZero(v: Value) {
    match v
    case Int(i) => i == 0
    case Bool(b) => !b
    case _ => false
  }

  function Min(a: int, b: int): int {
    if a <= b then a else b
  }

  /** `s.split(' ')`: cuts at every single space, keeping empty pieces. */
  function Split(s: string): (pieces: seq<string>)
    ensures |pieces| >= 1
    decreases |s|
  {
    if s == [] then [""]
    else
      var rest := Split(s[1..]);
      if s[0] == ' ' then [""] + rest else [[s[0]] + rest[0]] + rest[1..]
  }

  /** `' '.join(words)`. */
  function Join(words: seq<string>): string
    decreases |words|
  {
    if |words| == 0 then ""
    else if |words| == 1 then words[0]
    else words[0] + " " + Join(words[1..])
  }

  /** `list(zip(a, b))`: pairs by position, stopping at the shorter input. */
  function Zip<A, B>(a: seq<A>, b: seq<B>): (pairs: seq<(A, B)>)
    ensures |pairs| == Min(|a|, |b|)
    ensures forall k :: 0 <= k < |pairs| ==> pairs[k] == (a[k], b[k])
    decreases |a|
  {
    if |a| == 0 || |b| == 0 then [] else [(a[0], b[0])] + Zip(a[1..], b[1..])
  }

  lemma {:induction false} JoinCons(w: string, rest: seq<string>)
    requires |rest| >= 1
    ensures Join([w] + rest) == w + " " + Join(rest)
  {
    assert ([w] + rest)[1..] == rest;
  }

  /** Joining the pieces of a split with ' ' gives back the string exactly. */
  lemma {:induction false} JoinSplit(s: string)
    ensures Join(Split(s)) == s
    decreases |s|
  {
    if s != [] {
      var rest := Split(s[1..]);
      JoinSplit(s[1..]);
      if s[0] == ' ' {
        JoinCons("", rest);
        assert s == [' '] + s[1..];
      } else if |rest| == 1 {
        assert Split(s) == [[s[0]] + rest[0]];
        assert s == [s[0]] + s[1..];
      } else {
        assert rest == [rest[0]] + rest[1..];
        JoinCons(rest[0], rest[1..]);
        JoinCons([s[0]] + rest[0], rest[1..]);
        assert s == [s[0]] + s[1..];
      }
    }
  }

  /** No piece of a split contains the separator. */
  lemma {:induction false} SplitPiecesHaveNoSpace(s: string)
    ensures forall i :: 0 <= i < |Split(s)| ==> ' ' !in Split(s)[i]
    decreases |s|
  {
    if s != [] {
      SplitPiecesHaveNoSpace(s[1..]);
      var rest := Split(s[1..]);
      if s[0] != ' ' {
        assert ' ' !in [s[0]] + rest[0];
      }
    }
  }

  lemma {:induction false} SplitPrefix(a: string, tail: string)
    requires ' ' !in a
    ensures Split(a + tail) == [a + Split(tail)[0]] + Split(tail)[1..]
    decreases |a|
  {
    if a == [] {
      var t := Split(tail);
      assert a + tail == tail;
      assert a + t[0] == t[0];
      assert t == [t[0]] + t[1..];
    } else {
      var t := Split(tail);
      assert (a + tail)[0] == a[0] && a[0] != ' ';
      assert (a + tail)[1..] == a[1..] + tail;
      SplitPrefix(a[1..], tail);
      var rest := Split(a[1..] + tail);
      assert rest[0] == a[1..] + t[0] && rest[1..] == t[1..];
      assert [a[0]] + (a[1..] + t[0]) == a + t[0];
    }
  }

  /** Splitting a ' '-join of space-free words gives the words back, so split
      and join are inverse to each other on both sides. */
  lemma {:induction false} SplitJoin(words: seq<string>)
    requires |words| >= 1
    requires forall i :: 0 <= i < |words| ==> ' ' !in words[i]
    ensures Split(Join(words)) == words
    decreases |words|
  {
    if |words| == 1 {
      SplitPrefix(words[0], "");
      assert words[0] + "" == words[0];
    } else {
      var w, rest := words[0], words[1..];
      JoinCons(w, rest);
      assert words == [w] + rest;
      SplitJoin(rest);
      SplitPrefix(w, " " + Join(rest));
      assert (" " + Join(rest))[1..] == Join(rest);
      assert w + " " + Join(rest) == w + (" " + Join(rest));
      assert w + "" == w;
    }
  }
}
