/** Decoded JSON documents, shared by the backend extractor (Python's
    `json.loads`) and the frontend (JavaScript's `JSON.parse`). */
module Json {
  import opened Wrappers

  /** A JSON value. An object keeps its members in document order, which is
      the iteration order of both a Python dict and (for non-numeric names) a
      JavaScript object. */
  datatype Json =
    | JNull
    | JBool(b: bool)
    | JNum(n: real)
    | JStr(s: string)
    | JArr(items: seq<Json>)
    | JObj(members: seq<(string, Json)>)

  /** The value of the member called `key`, if the object has one. A decoded
      object has distinct member names, so the first match is the match. */
  function Lookup(members: seq<(string, Json)>, key: string): Option<Json>
  {
    if |members| == 0 then None
    else if members[0].0 == key then Some(members[0].1)
    else Lookup(members[1..], key)
  }

  /** `Lookup` finds a member called `key` exactly when there is one, and the
      value it finds belongs to such a member. */
  lemma {:induction false} LookupFinds(members: seq<(string, Json)>, key: string)
    ensures Lookup(members, key).Some? ==> (key, Lookup(members, key).value) in members
    ensures Lookup(members, key).None? <==> forall i :: 0 <= i < |members| ==> members[i].0 != key
  {
    if |members| > 0 && members[0].0 != key {
      LookupFinds(members[1..], key);
      assert forall i :: 1 <= i < |members| ==> members[i] == members[1..][i - 1];
    }
  }

  /** The decimal digit for `d`. */
  function Digit(d: nat): (c: char)
    requires d < 10
    ensures '0' <= c <= '9'
  {
    "0123456789"[d]
  }

  /** The decimal numeral of `n`, as Python's `str` and JavaScript's `String`
      write a (safe) integer. */
  function NatToDecimal(n: nat): (s: string)
    ensures |s| >= 1
    ensures forall i :: 0 <= i < |s| ==> '0' <= s[i] <= '9'
  {
    if n < 10 then [Digit(n)] else NatToDecimal(n / 10) + [Digit(n % 10)]
  }

  /** The decimal numeral of an integer, with a leading minus sign when negative. */
  function IntToDecimal(i: int): (s: string)
    ensures |s| >= 1
    ensures (i < 0) <==> s[0] == '-'
  {
    if i < 0 then "-" + NatToDecimal(-i) else NatToDecimal(i)
  }
}
