/** The belief a knowledge base holds about one cell
    (project2/utility/Sentiment.java). */
module Sentiments {
  import opened Wrappers

  datatype Sentiment = Free | Unsure | Blocked

  /** The integer level code each constant is constructed with. */
  function Code(s: Sentiment): (code: int)
    ensures -1 <= code <= 1
    ensures code == 0 <==> s == Unsure
    ensures code > 0 <==> s == Free
  {
    match s
    case Free => 1
    case Unsure => 0
    case Blocked => -1
  }

  /** Reads a level code back; codes other than -1, 0 and 1 name no sentiment. */
  function FromCode(code: int): (r: Option<Sentiment>)
    ensures r.Some? <==> -1 <= code <= 1
  {
    if code == 1 then Some(Free)
    else if code == 0 then Some(Unsure)
    else if code == -1 then Some(Blocked)
    else None
  }

  /** The three codes are pairwise distinct, so a code determines its sentiment. */
  lemma CodeRoundTrip(s: Sentiment)
    ensures FromCode(Code(s)) == Some(s)
  {
  }

  lemma CodeInjective(s: Sentiment, t: Sentiment)
    ensures Code(s) == Code(t) <==> s == t
  {
    CodeRoundTrip(s);
    CodeRoundTrip(t);
  }

  /** 1 when `s` is `t`, else 0: how much a cell believed `s` adds to a
      neighbour's count of cells believed `t`. */
  function Indicator(s: Sentiment, t: Sentiment): (k: int)
    ensures k == 0 || k == 1
    ensures k == 1 <==> s == t
  {
    if s == t then 1 else 0
  }
}
