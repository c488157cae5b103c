/** Removal of the double-quote characters that a text model tends to wrap
    a generated search query in: Python's `query.strip('"')`. */
module QuoteStrip {

  /** `n` double-quote characters. */
  function Quotes(n: nat): (q: string)
    ensures |q| == n
  {
    seq(n, _ => '"')
  }

  /** Neither the first nor the last character of `t` is a double quote. */
  predicate Unquoted(t: string)
  {
    t == [] || (t[0] != '"' && t[|t| - 1] != '"')
  }

  /** `t` is what remains of `s` once a run of quotes is cut from each end
      and nothing more can be cut: the meaning of `s.strip('"')`. */
  ghost predicate TrimmedOf(s: string, t: string)
  {
    Unquoted(t) && exists a: nat, b: nat :: s == Quotes(a) + t + Quotes(b)
  }

  lemma QuotesCons(n: nat)
    ensures Quotes(n + 1) == ['"'] + Quotes(n)
    ensures Quotes(n + 1) == Quotes(n) + ['"']
  {
  }

  /** Leading quotes removed: `s` is those quotes followed by the result,
      and the result does not start with a quote. */
  function StripLeading(s: string): (r: string)
    ensures |r| <= |s| && s == Quotes(|s| - |r|) + r
    ensures r == [] || r[0] != '"'
  {
    if s != [] && s[0] == '"' then
      var r := StripLeading(s[1..]);
      QuotesCons(|s| - 1 - |r|);
      assert s == ['"'] + s[1..];
      r
    else
      assert s == Quotes(0) + s;
      s
  }

  /** Trailing quotes removed: `s` is the result followed by those quotes,
      and the result does not end with a quote. */
  function StripTrailing(s: string): (r: string)
    ensures |r| <= |s| && s == r + Quotes(|s| - |r|)
    ensures r == [] || r[|r| - 1] != '"'
  {
    if s != [] && s[|s| - 1] == '"' then
      var r := StripTrailing(s[..|s| - 1]);
      QuotesCons(|s| - 1 - |r|);
      assert s == s[..|s| - 1] + ['"'];
      r
    else
      assert s == s + Quotes(0);
      s
  }

  /** `s.strip('"')`: quotes removed from both ends. */
  function StripQuotes(s: string): (r: string)
  {
    StripTrailing(StripLeading(s))
  }

  /** Cutting any run of leading quotes first does not change what
      `StripLeading` leaves. */
  lemma {:induction false} StripLeadingSkipsQuotes(a: nat, u: string)
    ensures StripLeading(Quotes(a) + u) == StripLeading(u)
  {
    if a > 0 {
      QuotesCons(a - 1);
      assert (Quotes(a) + u)[0] == '"';
      assert (Quotes(a) + u)[1..] == Quotes(a - 1) + u;
      StripLeadingSkipsQuotes(a - 1, u);
    } else {
      assert Quotes(a) + u == u;
    }
  }

  lemma {:induction false} StripTrailingSkipsQuotes(u: string, b: nat)
    ensures StripTrailing(u + Quotes(b)) == StripTrailing(u)
  {
    if b > 0 {
      QuotesCons(b - 1);
      assert (u + Quotes(b))[|u| + b - 1] == '"';
      assert (u + Quotes(b))[..|u| + b - 1] == u + Quotes(b - 1);
      StripTrailingSkipsQuotes(u, b - 1);
    } else {
      assert u + Quotes(b) == u;
    }
  }

  /** The result of `StripQuotes` is the trimmed form of its input. */
  lemma StripQuotesTrims(s: string)
    ensures TrimmedOf(s, StripQuotes(s))
  {
  }

  /** The trimmed form is unique, so it is exactly what `StripQuotes` gives. */
  lemma TrimmedIsStripQuotes(s: string, t: string)
    requires TrimmedOf(s, t)
    ensures StripQuotes(s) == t
  {
    var a: nat, b: nat :| s == Quotes(a) + t + Quotes(b);
    assert s == Quotes(a) + (t + Quotes(b));
    StripLeadingSkipsQuotes(a, t + Quotes(b));
    if t == [] {
      assert t + Quotes(b) == Quotes(b) + [];
      StripLeadingSkipsQuotes(b, []);
      assert StripLeading(s) == [];
    } else {
      assert (t + Quotes(b))[0] == t[0];
      StripTrailingSkipsQuotes(t, b);
    }
  }

  /** `StripQuotes(s) == t` exactly when `t` is the trimmed form of `s`. */
  lemma StripQuotesCharacterised(s: string, t: string)
    ensures StripQuotes(s) == t <==> TrimmedOf(s, t)
  {
    if StripQuotes(s) == t {
      StripQuotesTrims(s);
    }
    if TrimmedOf(s, t) {
      TrimmedIsStripQuotes(s, t);
    }
  }

  /** The stripped text neither starts nor ends with a quote. */
  lemma StripQuotesUnquoted(s: string)
    ensures Unquoted(StripQuotes(s))
  {
    StripQuotesTrims(s);
  }

  /** Stripping a second time changes nothing. */
  lemma StripQuotesIdempotent(s: string)
    ensures StripQuotes(StripQuotes(s)) == StripQuotes(s)
  {
    var t := StripQuotes(s);
    StripQuotesTrims(s);
    assert t == Quotes(0) + t + Quotes(0);
    TrimmedIsStripQuotes(t, t);
  }
}
