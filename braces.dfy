/**
  Brace accounting on generated text: how many blocks a fragment opens or closes.
*/
module Braces {
  import opened Format

  /** Braces opened minus braces closed. */
  function Balance(s: string): int {
    if s == [] then 0
    else (if s[0] == '{' then 1 else if s[0] == '}' then -1 else 0) + Balance(s[1..])
  }

  /** Ends with the only brace of the text, an opening one. */
  predicate Opens(s: string) {
    |s| > 0 && s[|s| - 1] == '{' && Plain(s[..|s| - 1])
  }

  /** Every value is brace-free. */
  predicate PlainValues(kw: map<string, string>) {
    forall n :: n in kw ==> Plain(kw[n])
  }

  lemma {:induction false} BalanceAppend(s: string, t: string)
    ensures Balance(s + t) == Balance(s) + Balance(t)
    decreases |s|
  {
    if s == [] {
      assert s + t == t;
    } else {
      assert (s + t)[0] == s[0];
      assert (s + t)[1..] == s[1..] + t;
      BalanceAppend(s[1..], t);
    }
  }

  lemma {:induction false} BalanceOfPlain(s: string)
    requires Plain(s)
    ensures Balance(s) == 0
    decreases |s|
  {
    if s != [] {
      assert !IsBrace(s[0]);
      BalanceOfPlain(s[1..]);
    }
  }

  /** Brace-free text followed by `{` opens exactly one block. */
  lemma OpensAfter(p: string)
    requires Plain(p)
    ensures Opens(p + "{") && Balance(p + "{") == 1
  {
    assert (p + "{")[..|p|] == p;
    BalanceAppend(p, "{");
    BalanceOfPlain(p);
  }

  lemma PlainJoin3(a: string, b: string, c: string)
    requires Plain(a) && Plain(b) && Plain(c)
    ensures Plain(a + b + c)
  {
    PlainAppend(a, b);
    PlainAppend(a + b, c);
  }

}
