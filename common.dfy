/** Optional values, standing in for JavaScript's `null` / `undefined`. */
module Wrappers {
  datatype Option<+T> = None | Some(value: T)
}

/** The few string operations the client code relies on (`startsWith`, `includes`, `trim`). */
module Strings {

  /** `s.startsWith(p)` */
  predicate StartsWith(s: string, p: string) {
    |p| <= |s| && s[..|p|] == p
  }

  /** `s.includes(sub)`: `sub` occurs somewhere in `s`. */
  predicate Contains(s: string, sub: string)
    decreases |s|
  {
    StartsWith(s, sub) || (s != [] && Contains(s[1..], sub))
  }

  /** An occurrence of `sub` at any position makes `Contains` true. */
  lemma {:induction false} ContainsAt(s: string, sub: string, i: nat)
    requires i + |sub| <= |s| && s[i..i + |sub|] == sub
    ensures Contains(s, sub)
    decreases i
  {
    if i == 0 {
      assert s[..|sub|] == sub;
    } else {
      assert s[1..][i - 1..i - 1 + |sub|] == s[i..i + |sub|];
      ContainsAt(s[1..], sub, i - 1);
    }
  }

  /** `Contains` holds only when there is an occurrence at some position. */
  lemma {:induction false} ContainsWitness(s: string, sub: string) returns (i: nat)
    requires Contains(s, sub)
    ensures i + |sub| <= |s| && s[i..i + |sub|] == sub
    decreases |s|
  {
    if StartsWith(s, sub) {
      i := 0;
    } else {
      var j := ContainsWitness(s[1..], sub);
      assert s[1..][j..j + |sub|] == s[j + 1..j + 1 + |sub|];
      i := j + 1;
    }
  }

  /** `sub` occurs in `s` at position `k`. */
  predicate OccursAt(s: string, sub: string, k: nat) {
    k + |sub| <= |s| && s[k..k + |sub|] == sub
  }

  /** A text with no occurrence of `sub` at any position does not contain it. */
  lemma NoOccurrence(s: string, sub: string)
    requires forall k: nat :: !OccursAt(s, sub, k)
    ensures !Contains(s, sub)
  {
    if Contains(s, sub) {
      var k := ContainsWitness(s, sub);
      assert OccursAt(s, sub, k);
    }
  }

  /** A text lacking the first character of `sub` cannot contain `sub`. */
  lemma {:induction false} NotContainsWithoutLead(s: string, sub: string)
    requires |sub| > 0 && sub[0] !in s
    ensures !Contains(s, sub)
    decreases |s|
  {
    if s != [] {
      assert s[0] in s;
      assert forall c :: c in s[1..] ==> c in s;
      NotContainsWithoutLead(s[1..], sub);
      if |sub| <= |s| {
        assert s[..|sub|][0] == s[0];
      }
    }
  }

  /** The characters ECMAScript's `String.prototype.trim` strips: WhiteSpace and LineTerminator. */
  predicate IsJsWhitespace(c: char) {
    c == '\t' || c == '\n' || c == '\U{000B}' || c == '\U{000C}' || c == '\r' || c == ' ' ||
    c == '\U{00A0}' || c == '\U{1680}' || ('\U{2000}' <= c <= '\U{200A}') ||
    c == '\U{2028}' || c == '\U{2029}' || c == '\U{202F}' || c == '\U{205F}' ||
    c == '\U{3000}' || c == '\U{FEFF}'
  }

  /** `!s.trim()`: nothing but whitespace is left once the ends are trimmed. */
  predicate IsBlank(s: string) {
    forall i :: 0 <= i < |s| ==> IsJsWhitespace(s[i])
  }

  /** Decimal text of a natural number, as a template literal renders it. */
  function NatToString(n: nat): (r: string)
    ensures |r| >= 1
    ensures forall i :: 0 <= i < |r| ==> '0' <= r[i] <= '9'
  {
    var d := [(('0' as int) + n % 10) as char];
    if n < 10 then d else NatToString(n / 10) + d
  }
}

/**
 * JSON documents as the client code sees them after `JSON.parse`. Parsing itself is
 * not modelled: a parse is an abstract outcome handed in by the caller.
 */
module JsonValues {
  import opened Wrappers

  datatype Json =
    | JNull
    | JBool(b: bool)
    | JNum(n: int)
    | JStr(s: string)
    | JArr(items: seq<Json>)
    | JObj(fields: map<string, Json>)

  /** The outcome of `JSON.parse(text)`: a document, or the `SyntaxError` it throws. */
  datatype Parse = Parsed(value: Json) | SyntaxError(message: string)

  /** The defensive wrapper `{ message: text }`. */
  function Message(text: string): (r: Json)
    ensures r.JObj? && r.fields.Keys == {"message"} && r.fields["message"] == JStr(text)
  {
    JObj(map["message" := JStr(text)])
  }

  /** `obj.key` of a parsed document: present for an object that has the key. */
  function Field(j: Json, key: string): (r: Option<Json>)
    ensures r.Some? <==> j.JObj? && key in j.fields
  {
    if j.JObj? && key in j.fields then Some(j.fields[key]) else None
  }
}
