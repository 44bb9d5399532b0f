/** The suggestions card on the analysis page shows `metadata.suggestions`
    with every asterisk removed by a global regular-expression replace, or
    nothing when there are no suggestions. */
module Suggestions {
  import opened Wrappers

  /** The global replace of `*` by the empty string. */
  function StripAsterisks(s: string): (r: string)
    ensures |r| <= |s|
    ensures forall c :: c in r ==> c in s
  {
    if |s| == 0 then []
    else if s[0] == '*' then StripAsterisks(s[1..])
    else [s[0]] + StripAsterisks(s[1..])
  }

  /** `suggestions?.replace(...)`: absent (`null` or `undefined`) stays absent. */
  function DisplayedSuggestions(suggestions: Option<string>): (r: Option<string>)
    ensures r.Some? <==> suggestions.Some?
    ensures r.Some? ==> '*' !in r.value
  {
    match suggestions
    case None => None
    case Some(text) => StripNoAsterisk(text); Some(StripAsterisks(text))
  }

  /** The shown text has no asterisk. */
  lemma {:induction false} StripNoAsterisk(s: string)
    ensures '*' !in StripAsterisks(s)
    decreases |s|
  {
    if |s| > 0 {
      StripNoAsterisk(s[1..]);
    }
  }

  /** Stripping works character by character: it distributes over
      concatenation, drops a lone asterisk and keeps any other character. */
  lemma {:induction false} StripCharwise(a: string, b: string)
    ensures StripAsterisks(a + b) == StripAsterisks(a) + StripAsterisks(b)
    ensures forall c :: StripAsterisks([c]) == if c == '*' then [] else [c]
    decreases |a|
  {
    if |a| > 0 {
      StripCharwise(a[1..], b);
      assert (a + b)[0] == a[0] && (a + b)[1..] == a[1..] + b;
      if a[0] != '*' {
        assert StripAsterisks(a + b) == [a[0]] + (StripAsterisks(a[1..]) + StripAsterisks(b));
      }
    } else {
      assert a + b == b;
    }
    forall c ensures StripAsterisks([c]) == if c == '*' then [] else [c] {
      assert [c][1..] == [];
    }
  }

  /** Every other character keeps its number of occurrences, and the text is
      shorter by exactly its number of asterisks. */
  lemma {:induction false} StripKeepsOthers(s: string)
    ensures forall c :: c != '*' ==> multiset(StripAsterisks(s))[c] == multiset(s)[c]
    ensures |StripAsterisks(s)| == |s| - multiset(s)['*']
    decreases |s|
  {
    if |s| > 0 {
      StripKeepsOthers(s[1..]);
      assert s == [s[0]] + s[1..];
    }
  }

  /** Text without asterisks is shown unchanged. */
  lemma {:induction false} StripWithoutAsterisks(s: string)
    requires '*' !in s
    ensures StripAsterisks(s) == s
    decreases |s|
  {
    if |s| > 0 {
      assert s[0] != '*' && '*' !in s[1..];
      StripWithoutAsterisks(s[1..]);
    }
  }

  /** Stripping twice is stripping once. */
  lemma StripIdempotent(s: string)
    ensures StripAsterisks(StripAsterisks(s)) == StripAsterisks(s)
  {
  }
}
