/** Values shared by the connector and the tool server: Python's optional
    values and truthiness, the two exceptions that leave the core, the JSON
    values search records are made of, and `str.join` with its inverse. */
module Common {

  /** Python's `Optional[T]`: `None` is an absent argument or a `None` value. */
  datatype Option<+T> = None | Some(value: T) {

    /** `dict.get(key, default)` once the lookup has produced this option. */
    function GetOr(default: T): T {
      match this
      case Some(v) => v
      case None => default
    }
  }

  datatype Result<+T, +E> = Ok(value: T) | Err(error: E)

  /** The exceptions the core raises: the search methods re-raise every backend
      failure as a `ValueError`, and `arguments[key]` raises `KeyError`. */
  datatype PyError = ValueError(message: string) | KeyError(key: string)

  /** A JSON value, as held by a search record and read by `json.dumps`. */
  datatype Json =
    | JNull
    | JBool(b: bool)
    | JNumber(n: real)
    | JString(s: string)
    | JArray(items: seq<Json>)
    | JObject(members: map<string, Json>)

  /** A search record or an index description: a Python `dict` of JSON values. */
  type Document = map<string, Json>

  /** A query vector (`List[float]`); the core only carries it along. */
  type Vector = seq<real>

  /** Python truthiness of an optional string: neither `None` nor `""`. */
  predicate TruthyText(s: Option<string>) {
    s.Some? && |s.value| > 0
  }

  /** Python truthiness of an optional list: neither `None` nor `[]`. */
  predicate TruthyList<T>(xs: Option<seq<T>>) {
    xs.Some? && |xs.value| > 0
  }

  /** The combined length of the parts. */
  function TotalLength(parts: seq<string>): nat
    decreases |parts|
  {
    if |parts| == 0 then 0 else |parts[0]| + TotalLength(parts[1..])
  }

  /** `sep.join(parts)`: the parts in order, one separator between each two. */
  function Join(sep: string, parts: seq<string>): (r: string)
    ensures |parts| == 0 ==> r == ""
    ensures |parts| > 0 ==> |r| == TotalLength(parts) + (|parts| - 1) * |sep|
    ensures |parts| > 0 ==> r[..|parts[0]|] == parts[0]
    decreases |parts|
  {
    if |parts| == 0 then ""
    else if |parts| == 1 then parts[0]
    else
      assert (|parts| - 1) * |sep| == (|parts| - 2) * |sep| + |sep|;
      parts[0] + sep + Join(sep, parts[1..])
  }

  /** `s.split(c)`: the pieces of `s` between occurrences of `c`. */
  function Split(c: char, s: string): (parts: seq<string>)
    ensures |parts| >= 1
    ensures c !in s ==> parts == [s]
    decreases |s|
  {
    if |s| == 0 then [""]
    else
      var rest := Split(c, s[1..]);
      if s[0] == c then [""] + rest
      else
        assert c !in s ==> c !in s[1..];
        assert [s[0]] + s[1..] == s;
        [[s[0]] + rest[0]] + rest[1..]
  }

  /** No part contains the separator character. */
  predicate FreeOf(c: char, parts: seq<string>) {
    forall k :: 0 <= k < |parts| ==> c !in parts[k]
  }

  lemma {:induction false} SplitAfterPart(c: char, a: string, b: string)
    requires c !in a
    ensures Split(c, a + [c] + b) == [a] + Split(c, b)
    decreases |a|
  {
    if |a| == 0 {
      assert a + [c] + b == [c] + b;
      assert ([c] + b)[1..] == b;
    } else {
      SplitAfterPart(c, a[1..], b);
      assert (a + [c] + b)[0] == a[0];
      assert (a + [c] + b)[1..] == a[1..] + [c] + b;
      assert [a[0]] + a[1..] == a;
    }
  }

  /** Joining with a one-character separator loses nothing when no part
      contains that character: splitting gives the parts back, in order. */
  lemma {:induction false} SplitJoin(c: char, parts: seq<string>)
    requires |parts| > 0
    requires FreeOf(c, parts)
    ensures Split(c, Join([c], parts)) == parts
    decreases |parts|
  {
    if |parts| > 1 {
      assert c !in parts[0];
      SplitAfterPart(c, parts[0], Join([c], parts[1..]));
      assert FreeOf(c, parts[1..]) by {
        forall k | 0 <= k < |parts[1..]| ensures c !in parts[1..][k] {
          assert parts[1..][k] == parts[k + 1];
        }
      }
      SplitJoin(c, parts[1..]);
      assert [parts[0]] + parts[1..] == parts;
    } else {
      assert c !in parts[0];
    }
  }
}
