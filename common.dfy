/** Values shared by the identity and channel providers: optional values,
    results of the external calls, JavaScript truthiness of the stored
    strings, and `Array.prototype.find`. */
module Common {

  datatype Option<+T> = None | Some(value: T)

  /** A promise that resolved with a value or was rejected with a message. */
  datatype Result<+R> = Success(value: R) | Failure(error: string)

  /** A promise without a value that resolved or was rejected with a message. */
  datatype Outcome = Pass | Fail(error: string)

  /** `if (s)` on an optional string: `undefined` and `""` are both falsy. */
  predicate Truthy(s: Option<string>)
  {
    s.Some? && s.value != ""
  }

  /** `s.find(p)`: the first element of `s` that satisfies `p`, if any. */
  function Find<T(==)>(s: seq<T>, p: T -> bool): (r: Option<T>)
    ensures r.None? <==> forall i :: 0 <= i < |s| ==> !p(s[i])
    ensures r.Some? ==> p(r.value) && r.value in s
    ensures r.Some? ==> FirstMatch(s, p, r.value)
  {
    if |s| == 0 then None
    else if p(s[0]) then Some(s[0])
    else
      var r := Find(s[1..], p);
      if r.Some? then
        assert FirstMatch(s, p, r.value) by {
          var k :| 0 <= k < |s| - 1 && s[1..][k] == r.value && forall j :: 0 <= j < k ==> !p(s[1..][j]);
          forall j | 0 <= j < k + 1 ensures !p(s[j]) {
            if j > 0 { assert s[j] == s[1..][j - 1]; }
          }
          assert s[k + 1] == r.value;
        }
        r
      else
        assert forall i :: 0 <= i < |s| ==> !p(s[i]) by {
          forall i | 0 <= i < |s| ensures !p(s[i]) {
            if i > 0 { assert s[i] == s[1..][i - 1]; }
          }
        }
        r
  }

  /** `x` occurs in `s` at a position before which nothing satisfies `p`. */
  ghost predicate FirstMatch<T>(s: seq<T>, p: T -> bool, x: T)
  {
    exists k :: 0 <= k < |s| && s[k] == x && forall j :: 0 <= j < k ==> !p(s[j])
  }
}
