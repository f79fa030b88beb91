/**
 The in-memory BM25 mirror: an index kept up to date by upserts and deletions, against the index
 computed from scratch on the surviving chunks; and what a filtered search returns.

 Scores are reals; the tokenizer and the logarithm are parameters.
 */
module Bm25 {
  import opened Ordering
  import Records

  type Id = Records.ChunkId

  datatype Doc = Doc(doc: string, title: string, snippet: string, source: string, tf: map<string, nat>, length: nat)

  // -------------------------------------------------------- the rebuilt index

  function Count(toks: seq<string>, t: string): nat {
    if toks == [] then 0 else Count(toks[..|toks| - 1], t) + if toks[|toks| - 1] == t then 1 else 0
  }

  /** A document's term frequencies are those of its tokens. */
  ghost predicate CountsOf(tf: map<string, nat>, toks: seq<string>) {
    && (forall t :: t in tf <==> t in toks)
    && (forall t | t in tf :: tf[t] == Count(toks, t))
  }

  /** Term frequencies are positive, and a document that has a term has a length. */
  ghost predicate DocOk(d: Doc) {
    forall t | t in d.tf :: 0 < d.tf[t] <= d.length
  }

  ghost function Having(docs: map<Id, Doc>, t: string): set<Id> {
    set id | id in docs && t in docs[id].tf
  }

  ghost function TotalLength(docs: map<Id, Doc>): nat {
    if docs == map[] then 0
    else
      var id :| id in docs;
      docs[id].length + TotalLength(docs - {id})
  }

  lemma {:induction false} TotalWithout(docs: map<Id, Doc>, id: Id)
    requires id in docs
    ensures TotalLength(docs) == docs[id].length + TotalLength(docs - {id})
    decreases |docs|
  {
    var x :| x in docs && TotalLength(docs) == docs[x].length + TotalLength(docs - {x});
    if x != id {
      TotalWithout(docs - {x}, id);
      TotalWithout(docs - {id}, x);
      assert docs - {x} - {id} == docs - {id} - {x};
    }
  }

  /** Document frequencies, without zero entries, and the total length, as computed from the documents. */
  ghost predicate Rebuilt(docs: map<Id, Doc>, df: map<string, nat>, total: int) {
    && (forall t :: t in df <==> Having(docs, t) != {})
    && (forall t | t in df :: df[t] == |Having(docs, t)|)
    && total == TotalLength(docs)
  }

  // ------------------------------------------------------- the incremental index

  /** Frequencies while the terms of one document are taken out or put in, one by one. */
  ghost predicate Halfway(docs: map<Id, Doc>, df: map<string, nat>, extra: set<string>) {
    && (forall t :: t in df <==> Having(docs, t) != {} || t in extra)
    && (forall t | t in df :: df[t] == |Having(docs, t)| + if t in extra then 1 else 0)
  }

  lemma RebuiltIs(docs: map<Id, Doc>, df: map<string, nat>, total: int)
    ensures Rebuilt(docs, df, total) <==> Halfway(docs, df, {}) && total == TotalLength(docs)
  {
  }

  lemma HavingWithout(docs: map<Id, Doc>, id: Id, t: string)
    requires id in docs
    ensures t in docs[id].tf ==> Having(docs, t) == Having(docs - {id}, t) + {id} && |Having(docs, t)| == |Having(docs - {id}, t)| + 1
    ensures t !in docs[id].tf ==> Having(docs, t) == Having(docs - {id}, t)
  {
    assert id !in Having(docs - {id}, t);
  }

  lemma StartRemoval(docs: map<Id, Doc>, df: map<string, nat>, id: Id)
    requires id in docs && Halfway(docs, df, {})
    ensures Halfway(docs - {id}, df, docs[id].tf.Keys)
  {
    forall t ensures (t in docs[id].tf ==> |Having(docs, t)| == |Having(docs - {id}, t)| + 1 && Having(docs, t) != {})
                     && (t !in docs[id].tf ==> Having(docs, t) == Having(docs - {id}, t)) {
      HavingWithout(docs, id, t);
    }
  }

  lemma EndInsertion(docs: map<Id, Doc>, df: map<string, nat>, id: Id, d: Doc)
    requires id !in docs && Halfway(docs, df, d.tf.Keys)
    ensures Halfway(docs[id := d], df, {})
  {
    var docs' := docs[id := d];
    assert docs' - {id} == docs;
    forall t ensures (t in d.tf ==> |Having(docs', t)| == |Having(docs, t)| + 1 && Having(docs', t) != {})
                     && (t !in d.tf ==> Having(docs', t) == Having(docs, t)) {
      HavingWithout(docs', id, t);
    }
  }

  class Index {
    var docs: map<Id, Doc>
    var df: map<string, nat>
    var total: int

    /** The index equals a rebuild on its documents. */
    ghost predicate Valid()
      reads this
    {
      Rebuilt(docs, df, total) && forall id | id in docs :: DocOk(docs[id])
    }

    constructor ()
      ensures Valid() && docs == map[]
    {
      docs, df, total := map[], map[], 0;
    }

    /** Takes the terms of a document out of the frequencies, dropping an entry that reaches zero. */
    method DropTerms(terms: set<string>, ghost rest: map<Id, Doc>)
      requires Halfway(rest, df, terms)
      modifies this`df
      ensures Halfway(rest, df, {})
    {
      var left := terms;
      while left != {}
        invariant Halfway(rest, df, left)
        decreases left
      {
        var t :| t in left;
        if df[t] <= 1 {
          df := df - {t};
        } else {
          df := df[t := df[t] - 1];
        }
        left := left - {t};
      }
    }

    method AddTerms(terms: set<string>, ghost rest: map<Id, Doc>)
      requires Halfway(rest, df, {})
      modifies this`df
      ensures Halfway(rest, df, terms)
    {
      var left := terms;
      while left != {}
        invariant left <= terms && Halfway(rest, df, terms - left)
        decreases left
      {
        var t :| t in left;
        df := df[t := (if t in df then df[t] else 0) + 1];
        left := left - {t};
      }
      assert terms - {} == terms;
    }

    /** Writes or overwrites one document. */
    method Upsert(id: Id, doc: string, title: string, snippet: string, source: string, toks: seq<string>)
      requires Valid()
      modifies this
      ensures Valid()
      ensures docs.Keys == old(docs.Keys) + {id}
      ensures forall x | x in old(docs) && x != id :: docs[x] == old(docs[x])
      ensures docs[id].doc == doc && docs[id].title == title && docs[id].snippet == snippet && docs[id].source == source
      ensures docs[id].length == |toks| && CountsOf(docs[id].tf, toks)
    {
      hide Rebuilt, Halfway, Having, TotalLength, CountsOf, DocOk;
      var tf := CountTokens(toks);
      ghost var was := docs;
      var d := Doc(doc, title, snippet, source, tf, |toks|);
      CountsAreOk(d, toks);
      RebuiltIs(docs, df, total);
      ghost var rest := was - {id};
      if id in docs {
        StartRemoval(docs, df, id);
        TotalWithout(docs, id);
        DropTerms(docs[id].tf.Keys, rest);
        total := total - docs[id].length;
      } else {
        assert rest == docs;
      }
      AddTerms(tf.Keys, rest);
      EndInsertion(rest, df, id, d);
      assert was[id := d] == rest[id := d] && (rest[id := d]) - {id} == rest;
      TotalWithout(rest[id := d], id);
      docs := docs[id := d];
      total := total + |toks|;
      RebuiltIs(docs, df, total);
    }

    /** Removes one document; an unknown id changes nothing. */
    method Remove(id: Id)
      requires Valid()
      modifies this
      ensures Valid() && docs == old(docs) - {id}
    {
      if id !in docs {
        assert docs - {id} == docs;
        return;
      }
      StartRemoval(docs, df, id);
      TotalWithout(docs, id);
      DropTerms(docs[id].tf.Keys, docs - {id});
      total := total - docs[id].length;
      docs := docs - {id};
    }

    /** Removes the documents of a set of ids: those of one document or one source. */
    method RemoveAll(ids: set<Id>)
      requires Valid()
      modifies this
      ensures Valid() && docs == old(docs) - ids
    {
      var left := ids;
      while left != {}
        invariant left <= ids && Valid() && docs == old(docs) - (ids - left)
        decreases left
      {
        var id :| id in left;
        Remove(id);
        left := left - {id};
      }
      assert ids - {} == ids;
    }

    method DeleteDoc(doc: string)
      requires Valid()
      modifies this
      ensures Valid() && docs == map id | id in old(docs) && old(docs)[id].doc != doc :: old(docs)[id]
    {
      RemoveAll(set id | id in docs && docs[id].doc == doc);
    }

    method DeleteSource(source: string)
      requires Valid()
      modifies this
      ensures Valid() && docs == map id | id in old(docs) && old(docs)[id].source != source :: old(docs)[id]
    {
      RemoveAll(set id | id in docs && docs[id].source == source);
    }

    /** The best `topK` eligible documents that share a query token, best first. */
    method Search(toks: seq<string>, topK: int, eligible: (Id, Doc) -> bool, ln: real -> real) returns (hits: seq<Hit>)
      requires Valid() && Logarithm(ln)
      ensures topK <= 0 ==> hits == []
      ensures topK > 0 ==> Best(hits, topK, Candidates(docs, toks, eligible), Scores(docs, df, total, toks, ln))
    {
      hide Best, Candidates, Scores, Logarithm, Rebuilt, DocOk;
      if topK <= 0 {
        return [];
      }
      if toks == [] || docs == map[] || total == 0 {
        assert Candidates(docs, toks, eligible) == {} by { NoCandidates(docs, df, total, toks, eligible); }
        EmptyIsBest(topK, Scores(docs, df, total, toks, ln));
        return [];
      }
      var all := Collect(toks, eligible, ln);
      SortedIsBest(all, topK, Candidates(docs, toks, eligible), Scores(docs, df, total, toks, ln));
      hits := Sort(all, Better);
      SortPermutes(all, Better);
      if |hits| > topK {
        hits := hits[..topK];
      }
    }

    /** One hit, with its score, for every eligible document that scores at all. */
    method Collect(toks: seq<string>, eligible: (Id, Doc) -> bool, ln: real -> real) returns (all: seq<Hit>)
      requires Valid() && Logarithm(ln) && docs != map[] && total != 0
      ensures Scored(all, Candidates(docs, toks, eligible), Scores(docs, df, total, toks, ln))
    {
      hide Scored, Candidates, Scores, ScoreIn, Logarithm, Rebuilt, DocOk;
      all := [];
      var left := docs.Keys;
      var terms := TokenSet(toks);
      NothingScored(docs, toks, eligible, Scores(docs, df, total, toks, ln));
      while left != {}
        invariant left <= docs.Keys
        invariant Scored(all, Candidates(docs, toks, eligible) - left, Scores(docs, df, total, toks, ln))
        decreases left
      {
        var id :| id in left;
        CandidateOf(docs, toks, eligible, id);
        if eligible(id, docs[id]) {
          var s := ScoreDoc(docs[id], terms, ln);
          PositiveWhenShared(docs, df, total, id, toks, ln);
          if s > 0.0 {
            ScoresAt(docs, df, total, toks, ln, id);
            ScoredMore(all, Candidates(docs, toks, eligible) - left, Scores(docs, df, total, toks, ln), id, s);
            all := all + [Hit(id, s)];
            assert Candidates(docs, toks, eligible) - (left - {id}) == Candidates(docs, toks, eligible) - left + {id};
          } else {
            assert Candidates(docs, toks, eligible) - (left - {id}) == Candidates(docs, toks, eligible) - left;
          }
        } else {
          assert Candidates(docs, toks, eligible) - (left - {id}) == Candidates(docs, toks, eligible) - left;
        }
        left := left - {id};
      }
      assert Candidates(docs, toks, eligible) - {} == Candidates(docs, toks, eligible);
    }

    method ScoreDoc(d: Doc, terms: set<string>, ln: real -> real) returns (s: real)
      requires docs != map[] && total != 0
      ensures s == Score(terms, d, |docs|, df, total, ln)
    {
      s := 0.0;
      var left := terms;
      while left != {}
        invariant left <= terms
        invariant s + Score(left, d, |docs|, df, total, ln) == Score(terms, d, |docs|, df, total, ln)
        decreases left
      {
        var t :| t in left;
        ScoreWithout(left, t, d, |docs|, df, total, ln);
        s := s + Term(t, d, |docs|, df, total, ln);
        left := left - {t};
      }
    }
  }

  // ------------------------------------------------------------------- search

  datatype Hit = Hit(id: Id, score: real)

  function TokenSet(toks: seq<string>): set<string> {
    set t | t in toks
  }

  ghost predicate Logarithm(ln: real -> real) {
    forall x: real | x > 1.0 :: ln(x) > 0.0
  }

  /** The contribution of one query token, with k1 = 1.2 and b = 0.75. */
  function Term(t: string, d: Doc, n: nat, df: map<string, nat>, total: int, ln: real -> real): real
    requires n > 0 && total != 0
  {
    if t !in d.tf || d.tf[t] == 0 then 0.0
    else
      var f := (if t in df then df[t] else 0) as real;
      var tf := d.tf[t] as real;
      var idf := ln(1.0 + (n as real - f + 0.5) / (f + 0.5));
      var den := tf + 1.2 * (1.0 - 0.75 + 0.75 * (d.length as real) / (total as real / n as real));
      if den == 0.0 then 0.0 else idf * tf * 2.2 / den  // den is positive on a valid index
  }

  ghost function Score(terms: set<string>, d: Doc, n: nat, df: map<string, nat>, total: int, ln: real -> real): real
    requires n > 0 && total != 0
  {
    if terms == {} then 0.0
    else
      var t :| t in terms;
      Term(t, d, n, df, total, ln) + Score(terms - {t}, d, n, df, total, ln)
  }

  ghost function ScoreIn(docs: map<Id, Doc>, df: map<string, nat>, total: int, id: Id, toks: seq<string>, ln: real -> real): real {
    if id in docs && total != 0 then Score(TokenSet(toks), docs[id], |docs|, df, total, ln) else 0.0
  }

  ghost function Scores(docs: map<Id, Doc>, df: map<string, nat>, total: int, toks: seq<string>, ln: real -> real): map<Id, real> {
    map id | id in docs :: ScoreIn(docs, df, total, id, toks, ln)
  }

  lemma {:induction false} ScoreWithout(terms: set<string>, t: string, d: Doc, n: nat, df: map<string, nat>, total: int, ln: real -> real)
    requires n > 0 && total != 0 && t in terms
    ensures Score(terms, d, n, df, total, ln) == Term(t, d, n, df, total, ln) + Score(terms - {t}, d, n, df, total, ln)
    decreases |terms|
  {
    hide Term;
    var x :| x in terms && Score(terms, d, n, df, total, ln) == Term(x, d, n, df, total, ln) + Score(terms - {x}, d, n, df, total, ln);
    if x != t {
      ScoreWithout(terms - {x}, t, d, n, df, total, ln);
      ScoreWithout(terms - {t}, x, d, n, df, total, ln);
      assert terms - {x} - {t} == terms - {t} - {x};
    }
  }

  ghost predicate Shares(d: Doc, toks: seq<string>) {
    exists t | t in toks :: t in d.tf
  }

  ghost function Candidates(docs: map<Id, Doc>, toks: seq<string>, eligible: (Id, Doc) -> bool): set<Id> {
    set id | id in docs && eligible(id, docs[id]) && Shares(docs[id], toks)
  }

  lemma CandidateOf(docs: map<Id, Doc>, toks: seq<string>, eligible: (Id, Doc) -> bool, id: Id)
    requires id in docs
    ensures id in Candidates(docs, toks, eligible) <==> eligible(id, docs[id]) && Shares(docs[id], toks)
  {
  }

  // --------------------------------------------- positive exactly on a shared token

  lemma {:induction false} TotalCovers(docs: map<Id, Doc>, id: Id)
    requires id in docs
    ensures docs[id].length <= TotalLength(docs)
  {
    TotalWithout(docs, id);
  }

  lemma TermPositive(t: string, d: Doc, n: nat, df: map<string, nat>, total: int, ln: real -> real)
    requires Logarithm(ln) && n > 0 && total > 0 && DocOk(d)
    requires t in d.tf ==> t in df && df[t] <= n
    ensures Term(t, d, n, df, total, ln) >= 0.0
    ensures Term(t, d, n, df, total, ln) > 0.0 <==> t in d.tf
  {
    if t in d.tf {
      var f, tf := df[t] as real, d.tf[t] as real;
      var ratio := (n as real - f + 0.5) / (f + 0.5);
      assert ratio > 0.0;
      var idf := ln(1.0 + ratio);
      assert idf > 0.0;
      var share := 0.75 * (d.length as real) / (total as real / n as real);
      NonNegativeShare(d.length, total, n);
      var den := tf + 1.2 * (1.0 - 0.75 + share);
      assert den > 0.0;
      PositiveProduct(idf, tf);
      assert idf * tf * 2.2 / den > 0.0;
    }
  }

  lemma NonNegativeShare(length: nat, total: int, n: nat)
    requires total > 0 && n > 0
    ensures 0.75 * (length as real) / (total as real / n as real) >= 0.0
  {
    assert total as real / n as real > 0.0;
  }

  lemma PositiveProduct(a: real, b: real)
    requires a > 0.0 && b > 0.0
    ensures a * b > 0.0
  {
  }

  lemma {:induction false} ScorePositive(terms: set<string>, d: Doc, n: nat, df: map<string, nat>, total: int, ln: real -> real)
    requires Logarithm(ln) && n > 0 && total > 0 && DocOk(d)
    requires forall t | t in d.tf :: t in df && df[t] <= n
    ensures Score(terms, d, n, df, total, ln) >= 0.0
    ensures Score(terms, d, n, df, total, ln) > 0.0 <==> exists t | t in terms :: t in d.tf
    decreases |terms|
  {
    hide Term, Logarithm, DocOk;
    if terms != {} {
      var t :| t in terms;
      ScoreWithout(terms, t, d, n, df, total, ln);
      TermPositive(t, d, n, df, total, ln);
      ScorePositive(terms - {t}, d, n, df, total, ln);
      if exists x | x in terms :: x in d.tf {
        var x :| x in terms && x in d.tf;
        if x != t { assert x in terms - {t}; }
      }
    }
  }

  /** On a rebuilt index a chunk scores positive exactly when it shares a query token. */
  lemma PositiveWhenShared(docs: map<Id, Doc>, df: map<string, nat>, total: int, id: Id, toks: seq<string>, ln: real -> real)
    requires Rebuilt(docs, df, total) && (forall x | x in docs :: DocOk(docs[x])) && Logarithm(ln)
    requires id in docs && total != 0
    ensures ScoreIn(docs, df, total, id, toks, ln) > 0.0 <==> Shares(docs[id], toks)
    ensures ScoreIn(docs, df, total, id, toks, ln) == Score(TokenSet(toks), docs[id], |docs|, df, total, ln)
  {
    hide Term, Score, Logarithm;
    var d := docs[id];
    forall t | t in d.tf ensures t in df && df[t] <= |docs| {
      assert id in Having(docs, t);
      assert Having(docs, t) <= docs.Keys;
      SubsetSize(Having(docs, t), docs.Keys);
      assert |docs.Keys| == |docs|;
    }
    TotalCovers(docs, id);
    ScorePositive(TokenSet(toks), d, |docs|, df, total, ln);
  }

  lemma NoCandidates(docs: map<Id, Doc>, df: map<string, nat>, total: int, toks: seq<string>, eligible: (Id, Doc) -> bool)
    requires Rebuilt(docs, df, total) && forall x | x in docs :: DocOk(docs[x])
    requires toks == [] || docs == map[] || total == 0
    ensures Candidates(docs, toks, eligible) == {}
  {
    forall id, t | id in docs && t in docs[id].tf ensures total > 0 {
      TotalCovers(docs, id);
      assert DocOk(docs[id]);
    }
  }

  // ------------------------------------------------------------------- ranking

  predicate Better(a: Hit, b: Hit) { a.score > b.score }

  /** One hit for each candidate, with its score. */
  ghost predicate Scored(all: seq<Hit>, candidates: set<Id>, score: map<Id, real>) {
    && (forall i | 0 <= i < |all| :: all[i].id in candidates && all[i].id in score && all[i].score == score[all[i].id])
    && (forall id | id in candidates :: exists i | 0 <= i < |all| :: all[i].id == id)
    && (forall i, j | 0 <= i < j < |all| :: all[i].id != all[j].id)
  }

  /** The returned hits are candidates, best first; unless all are returned there are topK, and none left out is better. */
  ghost predicate Best(hits: seq<Hit>, topK: int, candidates: set<Id>, score: map<Id, real>) {
    && candidates <= score.Keys
    && (forall i | 0 <= i < |hits| :: hits[i].id in candidates && hits[i].id in score && hits[i].score == score[hits[i].id])
    && (forall i, j | 0 <= i < j < |hits| :: hits[i].id != hits[j].id && hits[i].score >= hits[j].score)
    && |hits| <= topK
    && (forall id | id in candidates && !exists i | 0 <= i < |hits| :: hits[i].id == id ::
          |hits| == topK && forall i | 0 <= i < |hits| :: score[id] <= hits[i].score)
  }

  lemma NothingScored(docs: map<Id, Doc>, toks: seq<string>, eligible: (Id, Doc) -> bool, score: map<Id, real>)
    ensures Scored([], Candidates(docs, toks, eligible) - docs.Keys, score)
  {
  }

  lemma ScoresAt(docs: map<Id, Doc>, df: map<string, nat>, total: int, toks: seq<string>, ln: real -> real, id: Id)
    requires id in docs
    ensures id in Scores(docs, df, total, toks, ln) && Scores(docs, df, total, toks, ln)[id] == ScoreIn(docs, df, total, id, toks, ln)
  {
  }

  lemma EmptyIsBest(topK: int, score: map<Id, real>)
    requires topK > 0
    ensures Best([], topK, {}, score)
  {
  }

  lemma ScoredMore(all: seq<Hit>, candidates: set<Id>, score: map<Id, real>, id: Id, s: real)
    requires Scored(all, candidates, score) && id !in candidates && id in score && s == score[id]
    ensures Scored(all + [Hit(id, s)], candidates + {id}, score)
  {
    var more := all + [Hit(id, s)];
    forall x | x in candidates + {id} ensures exists i | 0 <= i < |more| :: more[i].id == x {
      if x == id {
        assert more[|all|].id == x;
      } else {
        var i :| 0 <= i < |all| && all[i].id == x;
        assert more[i].id == x;
      }
    }
  }

  lemma ScoresOrdered()
    ensures WeakOrder(Better)
  {
  }

  lemma SortedScored(all: seq<Hit>, candidates: set<Id>, score: map<Id, real>, s: seq<Hit>)
    requires Scored(all, candidates, score) && multiset(all) == multiset(s) && Sorted(s, Better)
    ensures Scored(s, candidates, score)
    ensures forall i, j | 0 <= i < j < |s| :: s[i].score >= s[j].score
  {
    PermutationMembers(all, s);
    assert Distinct(all);
    PermutationKeepsDistinct(all, s);
    forall i, j | 0 <= i < j < |s| ensures s[i].id != s[j].id && s[i].score >= s[j].score {
      assert s[i] in all && s[j] in all && s[i] != s[j] && !Better(s[j], s[i]);
    }
    forall id | id in candidates ensures exists i | 0 <= i < |s| :: s[i].id == id {
      var i :| 0 <= i < |all| && all[i].id == id;
      assert all[i] in s;
      var k :| 0 <= k < |s| && s[k] == all[i];
    }
  }

  lemma PrefixIsBest(s: seq<Hit>, hits: seq<Hit>, topK: int, candidates: set<Id>, score: map<Id, real>)
    requires topK > 0 && Scored(s, candidates, score) && forall i, j | 0 <= i < j < |s| :: s[i].score >= s[j].score
    requires hits == if |s| > topK then s[..topK] else s
    ensures Best(hits, topK, candidates, score)
  {
    forall id | id in candidates && !exists i | 0 <= i < |hits| :: hits[i].id == id
      ensures id in score && |hits| == topK && forall i | 0 <= i < |hits| :: score[id] <= hits[i].score
    {
      var k :| 0 <= k < |s| && s[k].id == id;
    }
    forall id | id in candidates ensures id in score {
      var k :| 0 <= k < |s| && s[k].id == id;
    }
  }

  lemma SortedIsBest(all: seq<Hit>, topK: int, candidates: set<Id>, score: map<Id, real>)
    requires topK > 0 && Scored(all, candidates, score)
    ensures var s := Sort(all, Better); Best(if |s| > topK then s[..topK] else s, topK, candidates, score)
  {
    hide Sort, Scored, Best, WeakOrder, Sorted;
    var s := Sort(all, Better);
    ScoresOrdered();
    SortSorts(all, Better);
    SortPermutes(all, Better);
    SortedScored(all, candidates, score, s);
    PrefixIsBest(s, if |s| > topK then s[..topK] else s, topK, candidates, score);
  }

  method CountTokens(toks: seq<string>) returns (tf: map<string, nat>)
    ensures CountsOf(tf, toks)
  {
    tf := map[];
    for i := 0 to |toks|
      invariant CountsOf(tf, toks[..i])
    {
      CountMore(tf, toks, i);
      tf := tf[toks[i] := (if toks[i] in tf then tf[toks[i]] else 0) + 1];
    }
    assert toks[..|toks|] == toks;
  }

  lemma CountMore(tf: map<string, nat>, toks: seq<string>, i: nat)
    requires i < |toks| && CountsOf(tf, toks[..i])
    ensures CountsOf(tf[toks[i] := (if toks[i] in tf then tf[toks[i]] else 0) + 1], toks[..i + 1])
  {
    assert toks[..i + 1] == toks[..i] + [toks[i]];
    assert toks[..i + 1][..i] == toks[..i];
    if toks[i] !in tf { CountAbsent(toks[..i], toks[i]); }
  }

  lemma {:induction false} CountAbsent(toks: seq<string>, t: string)
    ensures t !in toks ==> Count(toks, t) == 0
    ensures t in toks ==> 0 < Count(toks, t) <= |toks|
    ensures Count(toks, t) <= |toks|
  {
    if toks != [] {
      CountAbsent(toks[..|toks| - 1], t);
      assert toks == toks[..|toks| - 1] + [toks[|toks| - 1]];
    }
  }

  lemma CountsAreOk(d: Doc, toks: seq<string>)
    requires CountsOf(d.tf, toks) && d.length == |toks|
    ensures DocOk(d)
  {
    forall t | t in d.tf ensures 0 < d.tf[t] <= d.length { CountAbsent(toks, t); }
  }
}
