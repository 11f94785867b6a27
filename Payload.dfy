/**
  Normalisation of a direct-method payload: every double-quote character is
  removed, wherever it stands (not only the enclosing pair).
*/
module Payload {
  const Quote: char := '"'

  function StripQuotes(s: string): (r: string)
    ensures Quote !in r
    ensures |r| <= |s|
    ensures Quote !in s ==> |r| == |s|
  {
    if s == [] then []
    else if s[0] == Quote then StripQuotes(s[1..])
    else [s[0]] + StripQuotes(s[1..])
  }

  /** A payload without quotes is left exactly as it is. */
  lemma {:induction false} StripQuotesQuoteFree(s: string)
    requires Quote !in s
    ensures StripQuotes(s) == s
  {
    if s != [] {
      StripQuotesQuoteFree(s[1..]);
    }
  }

  /** Removing quotes a second time changes nothing. */
  lemma StripQuotesIdempotent(s: string)
    ensures StripQuotes(StripQuotes(s)) == StripQuotes(s)
  {
    StripQuotesQuoteFree(StripQuotes(s));
  }

  /** Removal works character by character, so it distributes over concatenation (order is kept). */
  lemma {:induction false} StripQuotesConcat(a: string, b: string)
    ensures StripQuotes(a + b) == StripQuotes(a) + StripQuotes(b)
  {
    if a == [] {
      assert a + b == b;
    } else {
      assert (a + b)[0] == a[0];
      assert (a + b)[1..] == a[1..] + b;
      StripQuotesConcat(a[1..], b);
    }
  }

  /** Every character other than a quote occurs as often after removal as before. */
  lemma {:induction false} StripQuotesKeepsOthers(s: string, c: char)
    requires c != Quote
    ensures multiset(StripQuotes(s))[c] == multiset(s)[c]
  {
    if s != [] {
      StripQuotesKeepsOthers(s[1..], c);
      assert s == [s[0]] + s[1..];
    }
  }

  /** Both an enclosing pair and a quote inside the word are removed. */
  lemma StripQuotesExamples()
    ensures StripQuotes("\"on\"") == "on"
    ensures StripQuotes("o\"n") == "on"
    ensures StripQuotes("\"off\"") == "off"
    ensures StripQuotes("\"\"off\"") == "off"
  {
    assert "\"on\""[1..] == "on\"";
    assert "on\""[1..] == "n\"";
    assert "n\""[1..] == "\"";
    assert "o\"n"[1..] == "\"n";
    assert "\"n"[1..] == "n";
    assert "\"\"off\""[1..] == "\"off\"";
    assert "\"off\""[1..] == "off\"";
    assert "off\""[1..] == "ff\"";
    assert "ff\""[1..] == "f\"";
    assert "f\""[1..] == "\"";
  }
}
