/** Path lookups into a decoded JSON array, as Magento's `ArrayManager::get`
    performs them: the path is split at '/', each segment selects a key of
    the current array, and the lookup answers null as soon as a segment is
    missing or the current value is not an array. */
module ArrayManager {
  import opened Wrappers
  import opened Json

  const Delimiter: char := '/'

  /** PHP's `explode('/', path)`: the texts between delimiters, in order.
      There is always at least one segment ("" explodes to [""]). */
  function Explode(path: string): (segments: seq<string>)
    ensures |segments| >= 1
    ensures forall i :: 0 <= i < |segments| ==> Delimiter !in segments[i]
    decreases |path|
  {
    if path == [] then [[]]
    else
      var rest := Explode(path[1..]);
      if path[0] == Delimiter then [[]] + rest
      else [[path[0]] + rest[0]] + rest[1..]
  }

  /** PHP's `implode('/', segments)`. */
  function Implode(segments: seq<string>): string
    requires |segments| >= 1
    decreases |segments|
  {
    if |segments| == 1 then segments[0]
    else segments[0] + [Delimiter] + Implode(segments[1..])
  }

  lemma {:induction false} ExplodePrefix(a: string, t: string)
    requires Delimiter !in a
    ensures Explode(a + t) == [a + Explode(t)[0]] + Explode(t)[1..]
    decreases |a|
  {
    if a == [] {
      assert a + t == t;
      var e := Explode(t);
      assert a + e[0] == e[0];
      assert [e[0]] + e[1..] == e;
    } else {
      assert (a + t)[0] == a[0];
      assert (a + t)[1..] == a[1..] + t;
      ExplodePrefix(a[1..], t);
      assert [a[0]] + (a[1..] + Explode(t)[0]) == a + Explode(t)[0];
    }
  }

  /** Splitting a joined path gives back its segments, provided none of them
      contains the delimiter. */
  lemma {:induction false} ExplodeImplode(segments: seq<string>)
    requires |segments| >= 1
    requires forall i :: 0 <= i < |segments| ==> Delimiter !in segments[i]
    ensures Explode(Implode(segments)) == segments
    decreases |segments|
  {
    if |segments| == 1 {
      ExplodePrefix(segments[0], []);
      assert segments[0] + [] == segments[0];
    } else {
      var tail := Implode(segments[1..]);
      assert Implode(segments) == segments[0] + ([Delimiter] + tail);
      ExplodePrefix(segments[0], [Delimiter] + tail);
      assert ([Delimiter] + tail)[1..] == tail;
      ExplodeImplode(segments[1..]);
      assert Explode([Delimiter] + tail) == [[]] + segments[1..];
      assert segments[0] + [] == segments[0];
    }
  }

  /** Joining the segments of a path gives back the path. */
  lemma {:induction false} ImplodeExplode(path: string)
    ensures Implode(Explode(path)) == path
    decreases |path|
  {
    if path != [] {
      var rest := Explode(path[1..]);
      ImplodeExplode(path[1..]);
      if path[0] == Delimiter {
        assert Explode(path) == [[]] + rest;
        assert Implode(Explode(path)) == [] + [Delimiter] + Implode(rest);
        assert path == [path[0]] + path[1..];
      } else {
        var segments := Explode(path);
        assert segments == [[path[0]] + rest[0]] + rest[1..];
        if |rest| == 1 {
          assert Implode(segments) == [path[0]] + rest[0];
        } else {
          assert segments[1..] == rest[1..];
          assert Implode(segments) == [path[0]] + rest[0] + [Delimiter] + Implode(rest[1..]);
          assert Implode(rest) == rest[0] + [Delimiter] + Implode(rest[1..]);
        }
        assert path == [path[0]] + path[1..];
      }
    }
  }

  predicate IsDigit(c: char)
  {
    '0' <= c <= '9'
  }

  function DecimalValue(digits: string): nat
    requires forall i :: 0 <= i < |digits| ==> IsDigit(digits[i])
    decreases |digits|
  {
    if digits == [] then 0
    else
      assert IsDigit(digits[|digits| - 1]);
      10 * DecimalValue(digits[..|digits| - 1]) + (digits[|digits| - 1] as int - '0' as int)
  }

  /** The list index a key names: PHP turns a canonical decimal string key
      ("0", "17", but not "017" or "") into an integer key. */
  function IndexKey(key: string): Option<nat>
  {
    if key != [] && (forall i :: 0 <= i < |key| ==> IsDigit(key[i])) && (key == "0" || key[0] != '0')
    then Some(DecimalValue(key))
    else None
  }

  /** One step of `ArrayManager::find`: the entry under `key` when `v` is an
      array holding that key (`array_key_exists`), and `None` otherwise. */
  function Child(v: Value, key: string): Option<Value>
  {
    match v
    case Object(fields) => if key in fields then Some(fields[key]) else None
    case List(items) =>
      (match IndexKey(key)
       case Some(i) => if i < |items| then Some(items[i]) else None
       case None => None)
    case _ => None
  }

  /** `ArrayManager::find` without population: the value at the end of the
      path, or `None` when some step fails. */
  function Walk(segments: seq<string>, v: Value): Option<Value>
    decreases |segments|
  {
    if segments == [] then Some(v)
    else
      match Child(v, segments[0])
      case None => None
      case Some(next) => Walk(segments[1..], next)
  }

  /** `ArrayManager::get($path, $data)` with its default, null. Its `array`
      parameter type is the requirement on `data`. A path without '/' is
      a single member access; `GetIsMemberChain` states the general case. */
  function Get(path: string, data: Value): (r: Value)
    requires IsArray(data)
    ensures Delimiter !in path ==> r == Member(data, path)
  {
    assert Delimiter !in path ==> Walk(Explode(path), data) == Child(data, path) by {
      if Delimiter !in path {
        ExplodeImplode([path]);
        assert [path][1..] == [];
      }
    }
    match Walk(Explode(path), data)
    case Some(found) => found
    case None => Null
  }

  /** The reference reading of a lookup: one member access, null when absent. */
  function Member(v: Value, key: string): Value
  {
    match Child(v, key)
    case Some(found) => found
    case None => Null
  }

  /** Member accesses applied one after another, continuing through nulls. */
  function MemberChain(v: Value, segments: seq<string>): Value
    decreases |segments|
  {
    if segments == [] then v else MemberChain(Member(v, segments[0]), segments[1..])
  }

  lemma {:induction false} MemberChainOfNull(segments: seq<string>)
    ensures MemberChain(Null, segments) == Null
    decreases |segments|
  {
    if segments != [] {
      MemberChainOfNull(segments[1..]);
    }
  }

  /** Walking a path and defaulting to null is the same as chaining member
      accesses: a missing step anywhere yields null. */
  lemma {:induction false} WalkIsMemberChain(segments: seq<string>, v: Value)
    ensures MemberChain(v, segments) == match Walk(segments, v) case Some(found) => found case None => Null
    decreases |segments|
  {
    if segments != [] {
      match Child(v, segments[0])
      case None =>
        MemberChainOfNull(segments[1..]);
      case Some(next) =>
        WalkIsMemberChain(segments[1..], next);
    }
  }

  /** `get` of a joined path is the chain of member accesses along its
      segments. */
  lemma GetIsMemberChain(segments: seq<string>, data: Value)
    requires IsArray(data)
    requires |segments| >= 1
    requires forall i :: 0 <= i < |segments| ==> Delimiter !in segments[i]
    ensures Get(Implode(segments), data) == MemberChain(data, segments)
  {
    ExplodeImplode(segments);
    WalkIsMemberChain(segments, data);
  }

  /** A one-segment path reads one member. */
  lemma GetOne(key: string, data: Value)
    requires IsArray(data)
    requires Delimiter !in key
    ensures Get(key, data) == Member(data, key)
  {
    GetIsMemberChain([key], data);
    assert MemberChain(Member(data, key), []) == Member(data, key);
  }

  /** A two-segment path "outer/inner" reads the inner member of the outer
      member, null when either is absent. */
  lemma GetTwo(outer: string, inner: string, data: Value)
    requires IsArray(data)
    requires Delimiter !in outer && Delimiter !in inner
    ensures Get(outer + [Delimiter] + inner, data) == Member(Member(data, outer), inner)
  {
    GetIsMemberChain([outer, inner], data);
    assert [outer, inner][1..] == [inner];
    assert MemberChain(Member(data, outer), [inner]) == MemberChain(Member(Member(data, outer), inner), []);
  }
}
