/**
 * The few JavaScript value semantics the relay relies on: truthiness of an
 * optional string, `String(v)`, `String(v ?? '')`, `String.prototype.slice`
 * and `String.prototype.replace` with a one-character string pattern.
 */
module JsValues {
  import opened Wrappers

  /**
   * A value read from a JSON request body. `Defined(text)` stands for any
   * value other than null and undefined, kept by the text `String(v)` gives
   * for it (a string is its own text, 12.5 is "12.5", true is "true").
   */
  datatype JsValue = Undefined | Null | Defined(text: string)

  /** `!!v` for a value that is either absent (None) or a string. */
  predicate Truthy(v: Option<string>) {
    v.Some? && v.value != ""
  }

  /**
   * `String(v)`: null and undefined become the words "null" and "undefined",
   * so only a value whose own text is empty gives "".
   */
  function ToJsString(v: JsValue): (s: string)
    ensures v.Defined? ==> s == v.text
    ensures v.Null? ==> s == "null"
    ensures v.Undefined? ==> s == "undefined"
    ensures s == "" <==> v == Defined("")
  {
    match v
    case Undefined => "undefined"
    case Null => "null"
    case Defined(text) => text
  }

  /** `String(v ?? '')`: null and undefined become the empty string. */
  function ToJsStringOrEmpty(v: JsValue): (s: string)
    ensures s == "" <==> v.Undefined? || v.Null? || v == Defined("")
    ensures v.Defined? ==> s == ToJsString(v)
  {
    match v
    case Defined(text) => text
    case _ => ""
  }

  /** `s.slice(0, n)` for n >= 0: the first n characters, or all of s when it is shorter. */
  function SliceFromStart(s: string, n: nat): (r: string)
    ensures |r| == if |s| < n then |s| else n
    ensures r <= s
  {
    if |s| <= n then s else s[..n]
  }

  /**
   * Index of the first occurrence of c in s, or |s| when there is none
   * (where `indexOf` would answer -1).
   */
  function FirstIndexOf(s: string, c: char): (i: nat)
    ensures i <= |s|
    ensures i < |s| ==> s[i] == c
    ensures forall j :: 0 <= j < i ==> s[j] != c
  {
    if s == [] then 0
    else if s[0] == c then 0
    else 1 + FirstIndexOf(s[1..], c)
  }

  /**
   * `s.replace(from, to)` with a one-character string pattern: only the
   * first occurrence of `from` is replaced, every other character is kept.
   */
  function ReplaceFirst(s: string, from: char, to: char): (r: string)
    ensures |r| == |s|
    ensures forall k :: 0 <= k < |s| && k != FirstIndexOf(s, from) ==> r[k] == s[k]
    ensures FirstIndexOf(s, from) < |s| ==> r[FirstIndexOf(s, from)] == to
  {
    if s == [] then []
    else if s[0] == from then [to] + s[1..]
    else [s[0]] + ReplaceFirst(s[1..], from, to)
  }

  /** Without an occurrence of `from`, the replacement leaves the string as it is. */
  lemma {:induction false} ReplaceFirstAbsent(s: string, from: char, to: char)
    requires from !in s
    ensures ReplaceFirst(s, from, to) == s
  {
    var r := ReplaceFirst(s, from, to);
    assert forall k :: 0 <= k < |s| ==> r[k] == s[k];
  }

  /**
   * With an occurrence, the result is the text before the first `from`, then
   * `to`, then the rest unchanged; in particular later occurrences survive.
   */
  lemma {:induction false} ReplaceFirstSplits(s: string, from: char, to: char)
    requires from in s
    ensures var i := FirstIndexOf(s, from);
      ReplaceFirst(s, from, to) == s[..i] + [to] + s[i + 1..]
  {
    var i := FirstIndexOf(s, from);
    var r := ReplaceFirst(s, from, to);
    var t := s[..i] + [to] + s[i + 1..];
    assert |r| == |t|;
    forall k | 0 <= k < |r| ensures r[k] == t[k] {
      if k < i {
        assert t[k] == s[k];
      } else if k > i {
        assert t[k] == s[k];
      }
    }
  }

  /** When `from` and `to` differ, exactly one occurrence of `from` disappears. */
  lemma {:induction false} ReplaceFirstCount(s: string, from: char, to: char)
    requires from != to
    ensures multiset(ReplaceFirst(s, from, to))[from] ==
      if from in s then multiset(s)[from] - 1 else multiset(s)[from]
  {
    if s != [] {
      ReplaceFirstCount(s[1..], from, to);
      assert s == [s[0]] + s[1..];
      if s[0] == from {
        assert ReplaceFirst(s, from, to) == [to] + s[1..];
      } else {
        assert ReplaceFirst(s, from, to) == [s[0]] + ReplaceFirst(s[1..], from, to);
        assert from in s <==> from in s[1..];
      }
    }
  }
}
