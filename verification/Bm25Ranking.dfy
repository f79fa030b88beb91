/**
 How the BM25 scores rank: rarer tokens, more occurrences and shorter chunks come first.
 */
module Bm25Ranking {
  import opened Ordering
  import opened Bm25

  /** A natural logarithm as far as ranking needs it: strictly increasing, and positive over one. */
  ghost predicate Increasing(ln: real -> real) {
    Logarithm(ln) && forall x, y | 0.0 < x < y :: ln(x) < ln(y)
  }

  /** The idf of a token that `f` of `n` chunks have. */
  function Idf(f: nat, n: nat, ln: real -> real): real {
    ln(1.0 + (n as real - f as real + 0.5) / (f as real + 0.5))
  }

  // -------------------------------------------------------------- arithmetic

  lemma QuotientsOrdered(a: real, b: real, c: real, d: real)
    requires b > 0.0 && d > 0.0 && a * d > c * b
    ensures a / b > c / d
  {
    var x, y := a / b, c / d;
    assert x * b == a && y * d == c;
    assert (x - y) * (b * d) == (x * b) * d - (y * d) * b;
    PositiveFactor(x - y, b * d);
  }

  lemma PositiveFactor(p: real, q: real)
    requires q > 0.0 && p * q > 0.0
    ensures p > 0.0
  {
  }

  lemma ScaledOrdered(a: real, b: real, k: real)
    requires a > b && k > 0.0
    ensures a * k > b * k
  {
    assert (a - b) * k > 0.0;
  }

  lemma RatioFalls(f: nat, g: nat, n: nat)
    requires f < g <= n
    ensures (n as real - f as real + 0.5) / (f as real + 0.5) > (n as real - g as real + 0.5) / (g as real + 0.5) > 0.0
  {
    var a, b, m := f as real, g as real, n as real;
    assert (m - a + 0.5) * (b + 0.5) - (m - b + 0.5) * (a + 0.5) == (b - a) * (m + 1.0);
    ScaledOrdered(b, a, m + 1.0);
    QuotientsOrdered(m - a + 0.5, a + 0.5, m - b + 0.5, b + 0.5);
  }

  lemma IdfFalls(f: nat, g: nat, n: nat, ln: real -> real)
    requires Increasing(ln) && f < g <= n
    ensures Idf(f, n, ln) > Idf(g, n, ln) > 0.0
  {
    RatioFalls(f, g, n);
  }

  lemma IdfPositive(f: nat, n: nat, ln: real -> real)
    requires Logarithm(ln) && f <= n
    ensures Idf(f, n, ln) > 0.0
  {
    assert (n as real - f as real + 0.5) / (f as real + 0.5) > 0.0;
  }

  lemma FactorGrows(a: real, b: real, k: real)
    requires a > b > 0.0 && k > 0.0
    ensures a * 2.2 / (a + k) > b * 2.2 / (b + k)
  {
    ScaledOrdered(a, b, 2.2 * k);
    assert (a * 2.2) * (b + k) - (b * 2.2) * (a + k) == a * (2.2 * k) - b * (2.2 * k);
    QuotientsOrdered(a * 2.2, a + k, b * 2.2, b + k);
  }

  lemma FactorFalls(tf: real, k: real, l: real)
    requires tf > 0.0 && l > k > 0.0
    ensures tf * 2.2 / (tf + k) > tf * 2.2 / (tf + l)
  {
    ScaledOrdered(tf + l, tf + k, tf * 2.2);
    QuotientsOrdered(tf * 2.2, tf + k, tf * 2.2, tf + l);
  }

  // ------------------------------------------------------- what one token adds

  /** A chunk of a rebuilt index that has the token. */
  ghost predicate Has(docs: map<Id, Doc>, df: map<string, nat>, total: int, id: Id, t: string) {
    && Rebuilt(docs, df, total) && (forall x | x in docs :: DocOk(docs[x]))
    && id in docs && t in docs[id].tf
  }

  /** What the token adds to the score of the chunk. */
  ghost function Adds(docs: map<Id, Doc>, df: map<string, nat>, total: int, id: Id, t: string, ln: real -> real): real
    requires Has(docs, df, total, id, t)
  {
    TotalIsPositive(docs, df, total, id, t);
    Term(t, docs[id], |docs|, df, total, ln)
  }

  /** The length of a chunk by the average length of all. */
  ghost function Share(docs: map<Id, Doc>, total: int, id: Id): real
    requires id in docs && total > 0
  {
    docs[id].length as real / (total as real / |docs| as real)
  }

  lemma TotalIsPositive(docs: map<Id, Doc>, df: map<string, nat>, total: int, id: Id, t: string)
    requires Has(docs, df, total, id, t)
    ensures total > 0 && |docs| > 0
  {
    TotalCovers(docs, id);
    assert DocOk(docs[id]);
  }

  lemma FrequencyIs(docs: map<Id, Doc>, df: map<string, nat>, total: int, id: Id, t: string)
    requires Has(docs, df, total, id, t)
    ensures t in df && df[t] == |Having(docs, t)| && 0 < docs[id].tf[t] && |Having(docs, t)| <= |docs|
  {
    assert id in Having(docs, t) && DocOk(docs[id]);
    assert Having(docs, t) <= docs.Keys;
    SubsetSize(Having(docs, t), docs.Keys);
    assert |docs.Keys| == |docs|;
  }

  /** The contribution in closed form: the idf of the token by a factor of its occurrences and the chunk's length. */
  lemma AddsIs(docs: map<Id, Doc>, df: map<string, nat>, total: int, id: Id, t: string, ln: real -> real)
    requires Has(docs, df, total, id, t)
    ensures id in docs && t in docs[id].tf && total > 0 && Share(docs, total, id) >= 0.0
    ensures var tf, k := docs[id].tf[t] as real, 1.2 * (0.25 + 0.75 * Share(docs, total, id));
            tf > 0.0 && k > 0.0 &&
            Adds(docs, df, total, id, t, ln) == Idf(|Having(docs, t)|, |docs|, ln) * (tf * 2.2 / (tf + k))
  {
    hide Rebuilt, DocOk, Having, Idf;
    TotalIsPositive(docs, df, total, id, t);
    FrequencyIs(docs, df, total, id, t);
    var tf, x := docs[id].tf[t] as real, Share(docs, total, id);
    NonNegativeShare(docs[id].length, total, |docs|);
    var average := total as real / |docs| as real;
    ScaledQuotient(docs[id].length as real, average);
    var idf := Idf(|Having(docs, t)|, |docs|, ln);
    TermIs(docs[id], df, total, |docs|, t, |Having(docs, t)|, ln);
    Regroup(idf, tf, tf + 1.2 * (0.25 + 0.75 * x));
  }

  lemma ScaledQuotient(a: real, b: real)
    requires b > 0.0 && a >= 0.0
    ensures 0.75 * a / b == 0.75 * (a / b) && a / b >= 0.0
  {
  }

  lemma TermIs(d: Doc, df: map<string, nat>, total: int, n: nat, t: string, f: nat, ln: real -> real)
    requires n > 0 && total > 0 && t in d.tf && d.tf[t] > 0 && t in df && df[t] == f
    ensures var tf, den := d.tf[t] as real, d.tf[t] as real + 1.2 * (1.0 - 0.75 + 0.75 * (d.length as real) / (total as real / n as real));
            den > 0.0 && Term(t, d, n, df, total, ln) == Idf(f, n, ln) * tf * 2.2 / den
  {
    NonNegativeShare(d.length, total, n);
  }

  lemma Regroup(idf: real, tf: real, den: real)
    requires den > 0.0
    ensures idf * tf * 2.2 / den == idf * (tf * 2.2 / den)
  {
    var q := tf * 2.2 / den;
    assert q * den == tf * 2.2;
    assert (idf * q) * den == idf * tf * 2.2;
  }

  // ------------------------------------------------------------------- the laws

  /** Of two chunks of one length with as many occurrences of a token each, that with the rarer token gains more. */
  lemma RarerAddsMore(docs: map<Id, Doc>, df: map<string, nat>, total: int, x: Id, t: string, y: Id, u: string, ln: real -> real)
    requires Has(docs, df, total, x, t) && Has(docs, df, total, y, u) && Increasing(ln)
    requires docs[x].tf[t] == docs[y].tf[u] && docs[x].length == docs[y].length
    requires |Having(docs, t)| < |Having(docs, u)|
    ensures Adds(docs, df, total, x, t, ln) > Adds(docs, df, total, y, u, ln) > 0.0
  {
    hide Has, Adds, Idf, Having, Increasing;
    TotalIsPositive(docs, df, total, x, t);
    AddsIs(docs, df, total, x, t, ln);
    AddsIs(docs, df, total, y, u, ln);
    FrequencyIs(docs, df, total, y, u);
    IdfFalls(|Having(docs, t)|, |Having(docs, u)|, |docs|, ln);
    var tf, k := docs[x].tf[t] as real, 1.2 * (0.25 + 0.75 * Share(docs, total, x));
    PositiveQuotient(tf * 2.2, tf + k);
    ScaledOrdered(Idf(|Having(docs, t)|, |docs|, ln), Idf(|Having(docs, u)|, |docs|, ln), tf * 2.2 / (tf + k));
    PositiveProduct(Idf(|Having(docs, u)|, |docs|, ln), tf * 2.2 / (tf + k));
  }

  lemma PositiveQuotient(a: real, b: real)
    requires a > 0.0 && b > 0.0
    ensures a / b > 0.0
  {
  }

  /** Of two chunks of one length with a token, that with more occurrences gains more. */
  lemma MoreAddsMore(docs: map<Id, Doc>, df: map<string, nat>, total: int, x: Id, y: Id, t: string, ln: real -> real)
    requires Has(docs, df, total, x, t) && Has(docs, df, total, y, t) && Increasing(ln)
    requires docs[x].tf[t] > docs[y].tf[t] && docs[x].length == docs[y].length
    ensures Adds(docs, df, total, x, t, ln) > Adds(docs, df, total, y, t, ln)
  {
    hide Has, Adds, Idf, Having;
    TotalIsPositive(docs, df, total, x, t);
    AddsIs(docs, df, total, x, t, ln);
    AddsIs(docs, df, total, y, t, ln);
    FrequencyIs(docs, df, total, y, t);
    IdfPositive(|Having(docs, t)|, |docs|, ln);
    var a, b, k := docs[x].tf[t] as real, docs[y].tf[t] as real, 1.2 * (0.25 + 0.75 * Share(docs, total, x));
    FactorGrows(a, b, k);
    ScaledOrdered(a * 2.2 / (a + k), b * 2.2 / (b + k), Idf(|Having(docs, t)|, |docs|, ln));
  }

  /** Of two chunks with as many occurrences of a token each, the shorter gains more. */
  lemma ShorterAddsMore(docs: map<Id, Doc>, df: map<string, nat>, total: int, x: Id, y: Id, t: string, ln: real -> real)
    requires Has(docs, df, total, x, t) && Has(docs, df, total, y, t) && Increasing(ln)
    requires docs[x].tf[t] == docs[y].tf[t] && docs[x].length < docs[y].length
    ensures Adds(docs, df, total, x, t, ln) > Adds(docs, df, total, y, t, ln)
  {
    hide Has, Adds, Idf, Having;
    TotalIsPositive(docs, df, total, x, t);
    AddsIs(docs, df, total, x, t, ln);
    AddsIs(docs, df, total, y, t, ln);
    FrequencyIs(docs, df, total, y, t);
    IdfPositive(|Having(docs, t)|, |docs|, ln);
    ShareGrows(docs[x].length, docs[y].length, total as real / |docs| as real);
    var tf := docs[x].tf[t] as real;
    var k, l := 1.2 * (0.25 + 0.75 * Share(docs, total, x)), 1.2 * (0.25 + 0.75 * Share(docs, total, y));
    FactorFalls(tf, k, l);
    ScaledOrdered(tf * 2.2 / (tf + k), tf * 2.2 / (tf + l), Idf(|Having(docs, t)|, |docs|, ln));
  }

  lemma ShareGrows(a: nat, b: nat, average: real)
    requires a < b && average > 0.0
    ensures a as real / average < b as real / average
  {
    ScaledOrdered(b as real, a as real, average);
    QuotientsOrdered(b as real, average, a as real, average);
  }

  /**
   In a chunk of the average length one occurrence adds exactly the token's idf, and two add 11/8 of it; in a chunk
   of twice the average length one occurrence adds 22/31 of it.
   */
  lemma AddsAtAverage(docs: map<Id, Doc>, df: map<string, nat>, total: int, id: Id, t: string, ln: real -> real)
    requires Has(docs, df, total, id, t)
    ensures var n, f, tf := |docs| as real, |Having(docs, t)| as real, docs[id].tf[t];
            var idf, adds := ln(1.0 + (n - f + 0.5) / (f + 0.5)), Adds(docs, df, total, id, t, ln);
            && (docs[id].length * |docs| == total && tf == 1 ==> adds == idf)
            && (docs[id].length * |docs| == total && tf == 2 ==> adds == idf * 11.0 / 8.0)
            && (docs[id].length * |docs| == 2 * total && tf == 1 ==> adds == idf * 22.0 / 31.0)
  {
    hide Has, Adds, Having;
    TotalIsPositive(docs, df, total, id, t);
    AddsIs(docs, df, total, id, t, ln);
    ShareIs(docs[id].length, |docs|, total);
  }

  lemma ShareIs(length: nat, n: nat, total: int)
    requires n > 0 && total > 0
    ensures length * n == total ==> length as real / (total as real / n as real) == 1.0
    ensures length * n == 2 * total ==> length as real / (total as real / n as real) == 2.0
  {
    var average := total as real / n as real;
    assert average * n as real == total as real;
    assert length as real * n as real == (length * n) as real;
    if length * n == total {
      assert (length as real - average) * n as real == 0.0;
    }
    if length * n == 2 * total {
      assert (length as real - 2.0 * average) * n as real == 0.0;
    }
  }

  // -------------------------------------------------------- the order of the hits

  /** The token is the only one of the query that the chunk has. */
  ghost predicate OnlyShares(docs: map<Id, Doc>, df: map<string, nat>, total: int, id: Id, toks: seq<string>, t: string) {
    Has(docs, df, total, id, t) && t in toks && forall u | u in toks && u in docs[id].tf :: u == t
  }

  lemma {:induction false} ScoreOfNone(terms: set<string>, d: Doc, n: nat, df: map<string, nat>, total: int, ln: real -> real)
    requires n > 0 && total != 0 && forall u | u in terms :: u !in d.tf
    ensures Score(terms, d, n, df, total, ln) == 0.0
    decreases |terms|
  {
    if terms != {} {
      var t :| t in terms;
      ScoreWithout(terms, t, d, n, df, total, ln);
      ScoreOfNone(terms - {t}, d, n, df, total, ln);
    }
  }

  /** A chunk that shares one token of the query scores what that token adds. */
  lemma ScoreOfOne(docs: map<Id, Doc>, df: map<string, nat>, total: int, id: Id, toks: seq<string>, t: string, ln: real -> real)
    requires OnlyShares(docs, df, total, id, toks, t)
    ensures id in docs && Has(docs, df, total, id, t)
    ensures Scores(docs, df, total, toks, ln)[id] == Adds(docs, df, total, id, t, ln)
  {
    hide Term, Rebuilt, DocOk;
    TotalIsPositive(docs, df, total, id, t);
    ScoreWithout(TokenSet(toks), t, docs[id], |docs|, df, total, ln);
    ScoreOfNone(TokenSet(toks) - {t}, docs[id], |docs|, df, total, ln);
  }

  /** Among the best hits, a candidate with a higher score is listed, and earlier, whenever one with a lower score is. */
  lemma HigherComesFirst(hits: seq<Hit>, topK: int, candidates: set<Id>, score: map<Id, real>, x: Id, y: Id)
    requires Best(hits, topK, candidates, score) && x in candidates && y in candidates && score[x] > score[y]
    ensures forall j | 0 <= j < |hits| && hits[j].id == y :: exists i | 0 <= i < j :: hits[i].id == x
  {
    forall j | 0 <= j < |hits| && hits[j].id == y ensures exists i | 0 <= i < j :: hits[i].id == x {
      var i :| 0 <= i < |hits| && hits[i].id == x;
    }
  }

  /** The first token is rarer, or occurs more often, or stands in a shorter chunk, all else being equal. */
  ghost predicate Outranks(docs: map<Id, Doc>, x: Id, t: string, y: Id, u: string)
    requires x in docs && y in docs && t in docs[x].tf && u in docs[y].tf
  {
    var a, b := docs[x], docs[y];
    || (a.tf[t] == b.tf[u] && a.length == b.length && |Having(docs, t)| < |Having(docs, u)|)
    || (t == u && a.tf[t] > b.tf[t] && a.length == b.length)
    || (t == u && a.tf[t] == b.tf[t] && a.length < b.length)
  }

  lemma OutranksAddsMore(docs: map<Id, Doc>, df: map<string, nat>, total: int, x: Id, t: string, y: Id, u: string, ln: real -> real)
    requires Has(docs, df, total, x, t) && Has(docs, df, total, y, u) && Increasing(ln)
    requires Outranks(docs, x, t, y, u)
    ensures Adds(docs, df, total, x, t, ln) > Adds(docs, df, total, y, u, ln)
  {
    hide Adds, Having, Increasing, Rebuilt, DocOk;
    if docs[x].length != docs[y].length {
      ShorterAddsMore(docs, df, total, x, y, t, ln);
    } else if docs[x].tf[t] != docs[y].tf[u] {
      MoreAddsMore(docs, df, total, x, y, t, ln);
    } else {
      RarerAddsMore(docs, df, total, x, t, y, u, ln);
    }
  }

  /**
   In the answer to any query, a chunk whose one shared token is rarer, or occurs more often, or stands in a shorter
   chunk than another's comes before it, and is not cut off while the other is listed.
   */
  lemma SearchRanks(docs: map<Id, Doc>, df: map<string, nat>, total: int, toks: seq<string>, eligible: (Id, Doc) -> bool,
                    ln: real -> real, hits: seq<Hit>, topK: int, x: Id, t: string, y: Id, u: string)
    requires Best(hits, topK, Candidates(docs, toks, eligible), Scores(docs, df, total, toks, ln)) && Increasing(ln)
    requires OnlyShares(docs, df, total, x, toks, t) && OnlyShares(docs, df, total, y, toks, u)
    requires eligible(x, docs[x]) && eligible(y, docs[y]) && Outranks(docs, x, t, y, u)
    ensures forall j | 0 <= j < |hits| && hits[j].id == y :: exists i | 0 <= i < j :: hits[i].id == x
  {
    hide Best, Scores, Adds, Having, Increasing, Rebuilt, DocOk, Outranks;
    ScoreOfOne(docs, df, total, x, toks, t, ln);
    ScoreOfOne(docs, df, total, y, toks, u, ln);
    OutranksAddsMore(docs, df, total, x, t, y, u, ln);
    HigherComesFirst(hits, topK, Candidates(docs, toks, eligible), Scores(docs, df, total, toks, ln), x, y);
  }
}
