/** The post-processing of `MultimodalRetriever` in `retrieval.py`: which
    embedding a query is compared on, which stored documents are candidates,
    the threshold, the ranking, and the weighted merge of `hybrid_search`.
    Embedding and cosine similarity are collaborators: a search receives the
    similarity of each document to the query as a function. */
module Retrieval {
  import opened Wrappers
  import opened Ranking

  datatype ContentType = TextContent | FrameContent | ChatContent | MultimodalContent | VideoContent

  datatype Document = Document(
    id: Option<string>,
    contentType: ContentType,
    textEmbedding: Option<seq<real>>,
    imageEmbedding: Option<seq<real>>,
    multimodalEmbedding: Option<seq<real>>,
    metadata: map<string, string>)

  datatype SearchQuery = SearchQuery(
    queryText: Option<string>,
    queryImagePath: Option<string>,
    contentType: Option<ContentType>,
    topK: int,
    threshold: Option<real>,
    metadataFilter: map<string, string>)

  datatype SearchResult = SearchResult(document: Document, score: real, distance: real)

  datatype EmbeddingField = MultimodalField | TextField | ImageField

  /** The field a query is compared on: both inputs give the multimodal
      embedding, one of them its own; with neither the search fails. */
  function ChooseField(q: SearchQuery): (r: Result<EmbeddingField, string>)
    ensures r.Failure? <==> !StrTruthy(q.queryText) && !StrTruthy(q.queryImagePath)
    ensures r == Success(MultimodalField) <==> StrTruthy(q.queryText) && StrTruthy(q.queryImagePath)
    ensures r == Success(TextField) <==> StrTruthy(q.queryText) && !StrTruthy(q.queryImagePath)
    ensures r == Success(ImageField) <==> !StrTruthy(q.queryText) && StrTruthy(q.queryImagePath)
  {
    if StrTruthy(q.queryText) && StrTruthy(q.queryImagePath) then Success(MultimodalField)
    else if StrTruthy(q.queryText) then Success(TextField)
    else if StrTruthy(q.queryImagePath) then Success(ImageField)
    else Failure("Either query_text or query_image_path must be provided")
  }

  /** The collection query: equality on the content type when one is given,
      and on `metadata.<key>` for every filter entry. */
  predicate Matches(q: SearchQuery, doc: Document)
  {
    && (q.contentType.Some? ==> doc.contentType == q.contentType.value)
    && forall k :: k in q.metadataFilter ==> k in doc.metadata && doc.metadata[k] == q.metadataFilter[k]
  }

  function Candidates(collection: seq<Document>, q: SearchQuery): seq<Document>
  {
    if collection == [] then []
    else
      var rest := Candidates(collection[1..], q);
      if Matches(q, collection[0]) then [collection[0]] + rest else rest
  }

  /** The candidates are exactly the stored documents the query matches. */
  lemma {:induction false} CandidatesExactly(collection: seq<Document>, q: SearchQuery)
    ensures forall d :: d in Candidates(collection, q) <==> d in collection && Matches(q, d)
    decreases |collection|
  {
    if collection != [] {
      CandidatesExactly(collection[1..], q);
      assert collection == [collection[0]] + collection[1..];
    }
  }

  /** The document's embedding for the field, when present and non-empty. */
  predicate HasEmbedding(doc: Document, field: EmbeddingField)
  {
    var e := match field
             case MultimodalField => doc.multimodalEmbedding
             case TextField => doc.textEmbedding
             case ImageField => doc.imageEmbedding;
    e.Some? && e.value != []
  }

  /** A truthy threshold drops the results scoring below it. */
  predicate PassesThreshold(threshold: Option<real>, score: real)
  {
    !(threshold.Some? && threshold.value != 0.0 && score < threshold.value)
  }

  predicate Kept(q: SearchQuery, field: EmbeddingField, similarity: Document -> real, doc: Document)
  {
    HasEmbedding(doc, field) && PassesThreshold(q.threshold, similarity(doc))
  }

  function ResultFor(doc: Document, similarity: Document -> real): SearchResult
  {
    SearchResult(doc, similarity(doc), 1.0 - similarity(doc))
  }

  /** The results the loop collects, in candidate order. */
  function Hits(docs: seq<Document>, q: SearchQuery, field: EmbeddingField, similarity: Document -> real): seq<SearchResult>
  {
    if docs == [] then []
    else
      var last := docs[|docs| - 1];
      Hits(docs[..|docs| - 1], q, field, similarity)
      + (if Kept(q, field, similarity, last) then [ResultFor(last, similarity)] else [])
  }

  function Score(r: SearchResult): real { r.score }

  /** What `search` returns: choose the field, take the candidates, keep those
      with the embedding and above a truthy threshold, rank, keep `top_k`. */
  function Searched(q: SearchQuery, collection: seq<Document>, similarity: Document -> real): Result<seq<SearchResult>, string>
  {
    match ChooseField(q)
    case Failure(e) => Failure(e)
    case Success(field) => Success(PySliceTo(SortDesc(Hits(Candidates(collection, q), q, field, similarity), Score), q.topK))
  }

  /** `search`, the loop over the candidates. */
  method Search(q: SearchQuery, collection: seq<Document>, similarity: Document -> real)
    returns (r: Result<seq<SearchResult>, string>)
    ensures r == Searched(q, collection, similarity)
  {
    var chosen := ChooseField(q);
    if chosen.Failure? {
      return Failure(chosen.error);
    }
    var field := chosen.value;
    var documents := Candidates(collection, q);
    if |documents| == 0 {
      assert Hits(documents, q, field, similarity) == [];
      return Success([]);
    }
    var results: seq<SearchResult> := [];
    for i := 0 to |documents|
      invariant results == Hits(documents[..i], q, field, similarity)
    {
      assert documents[..i + 1][..i] == documents[..i];
      var doc := documents[i];
      if !HasEmbedding(doc, field) {
        continue;
      }
      var score := similarity(doc);
      var distance := 1.0 - score;
      if q.threshold.Some? && q.threshold.value != 0.0 && score < q.threshold.value {
        continue;
      }
      results := results + [SearchResult(doc, score, distance)];
    }
    assert documents[..|documents|] == documents;
    results := SortDesc(results, Score);
    return Success(PySliceTo(results, q.topK));
  }

  /** The collected results are exactly the kept candidates, each scored by its
      similarity with distance one minus the score. */
  lemma {:induction false} HitsExactly(docs: seq<Document>, q: SearchQuery, field: EmbeddingField, similarity: Document -> real)
    ensures forall r :: r in Hits(docs, q, field, similarity) <==>
              exists d :: d in docs && Kept(q, field, similarity, d) && r == ResultFor(d, similarity)
    decreases |docs|
  {
    if docs != [] {
      var init := docs[..|docs| - 1];
      HitsExactly(init, q, field, similarity);
      assert docs == init + [docs[|docs| - 1]];
      assert forall d :: d in docs <==> d in init || d == docs[|docs| - 1];
    }
  }

  /** Every result of a search is a matching candidate with the chosen
      embedding, above a truthy threshold, with `distance = 1 - score`; the
      results are in descending score order and at most `top_k` of them. */
  lemma SearchResultsShape(q: SearchQuery, collection: seq<Document>, similarity: Document -> real)
    requires ChooseField(q).Success?
    ensures var field := ChooseField(q).value;
            var out := PySliceTo(SortDesc(Hits(Candidates(collection, q), q, field, similarity), Score), q.topK);
            && SortedDesc(out, Score)
            && (q.topK >= 0 ==> |out| <= q.topK)
            && forall r :: r in out ==>
                 && r.document in collection && Matches(q, r.document) && HasEmbedding(r.document, field)
                 && r.score == similarity(r.document) && r.distance == 1.0 - r.score
                 && PassesThreshold(q.threshold, r.score)
  {
    var field := ChooseField(q).value;
    var hits := Hits(Candidates(collection, q), q, field, similarity);
    var sorted := SortDesc(hits, Score);
    HitsExactly(Candidates(collection, q), q, field, similarity);
    CandidatesExactly(collection, q);
    SortDescSorted(hits, Score);
    PrefixKeeps(sorted, q.topK, Score, DocKeyOf);
    forall r | r in sorted
      ensures r in hits
    {
      assert r in multiset(sorted);
    }
  }

  /** The key a hybrid merge files a document under: `str(document.id)`. */
  function DocKey(doc: Document): string
  {
    if doc.id.Some? then doc.id.value else "None"
  }

  function DocKeyOf(r: SearchResult): string { DocKey(r.document) }

  /** One entry of the merge dictionary, with its key. */
  datatype Entry = Entry(key: string, document: Document, textScore: real, imageScore: real)

  datatype Side = TextSide | ImageSide

  function IndexOfKey(entries: seq<Entry>, key: string): (r: Option<nat>)
    ensures r.None? <==> forall i :: 0 <= i < |entries| ==> entries[i].key != key
    ensures r.Some? ==> r.value < |entries| && entries[r.value].key == key
  {
    if entries == [] then None
    else if entries[0].key == key then Some(0)
    else
      var r := IndexOfKey(entries[1..], key);
      assert forall i :: 1 <= i < |entries| ==> entries[i] == entries[1..][i - 1];
      if r.Some? then Some(r.value + 1) else None
  }

  function Weighted(r: SearchResult, weight: real): real { r.score * weight }

  /** Filing one weighted result: a new key is appended with the other side at
      0; a known key has this side's score replaced and keeps its document. */
  function File(entries: seq<Entry>, r: SearchResult, side: Side, weight: real): seq<Entry>
  {
    var key := DocKey(r.document);
    var value := Weighted(r, weight);
    var at := IndexOfKey(entries, key);
    if at.None? then
      entries + [if side == TextSide then Entry(key, r.document, value, 0.0) else Entry(key, r.document, 0.0, value)]
    else if side == TextSide then entries[at.value := entries[at.value].(textScore := value)]
    else entries[at.value := entries[at.value].(imageScore := value)]
  }

  /** Filing under a new key appends an entry. */
  lemma FileNew(entries: seq<Entry>, r: SearchResult, side: Side, weight: real)
    requires IndexOfKey(entries, DocKey(r.document)).None?
    ensures File(entries, r, side, weight) == entries + [
              if side == TextSide then Entry(DocKey(r.document), r.document, Weighted(r, weight), 0.0)
              else Entry(DocKey(r.document), r.document, 0.0, Weighted(r, weight))]
  {
  }

  /** Filing under a known key replaces that entry's side score. */
  lemma FileKnown(entries: seq<Entry>, r: SearchResult, side: Side, weight: real, i: nat)
    requires IndexOfKey(entries, DocKey(r.document)) == Some(i)
    ensures i < |entries|
    ensures File(entries, r, side, weight) ==
              entries[i := if side == TextSide then entries[i].(textScore := Weighted(r, weight))
                           else entries[i].(imageScore := Weighted(r, weight))]
  {
  }

  /** Filing a list of results in order. */
  function FileAll(entries: seq<Entry>, rs: seq<SearchResult>, side: Side, weight: real): seq<Entry>
  {
    if rs == [] then entries
    else File(FileAll(entries, rs[..|rs| - 1], side, weight), rs[|rs| - 1], side, weight)
  }

  predicate UniqueKeys(entries: seq<Entry>)
  {
    forall i, j :: 0 <= i < j < |entries| ==> entries[i].key != entries[j].key
  }

  predicate KeysOwnDocuments(entries: seq<Entry>)
  {
    forall i :: 0 <= i < |entries| ==> entries[i].key == DocKey(entries[i].document)
  }

  lemma FilePreserves(entries: seq<Entry>, r: SearchResult, side: Side, weight: real)
    requires UniqueKeys(entries) && KeysOwnDocuments(entries)
    ensures var e := File(entries, r, side, weight);
            UniqueKeys(e) && KeysOwnDocuments(e) && |e| >= |entries|
            && exists i :: 0 <= i < |e| && e[i].key == DocKey(r.document)
  {
    var e := File(entries, r, side, weight);
    var key := DocKey(r.document);
    var idx := IndexOfKey(entries, key);
    if idx.None? {
      assert e[|entries|].key == key;
    } else {
      assert e[idx.value].key == key;
    }
  }

  /** Filing keeps one entry per key, each under its own document's key. */
  lemma {:induction false} FileAllPreserves(entries: seq<Entry>, rs: seq<SearchResult>, side: Side, weight: real)
    requires UniqueKeys(entries) && KeysOwnDocuments(entries)
    ensures UniqueKeys(FileAll(entries, rs, side, weight)) && KeysOwnDocuments(FileAll(entries, rs, side, weight))
    decreases |rs|
  {
    if rs != [] {
      FileAllPreserves(entries, rs[..|rs| - 1], side, weight);
      FilePreserves(FileAll(entries, rs[..|rs| - 1], side, weight), rs[|rs| - 1], side, weight);
    }
  }

  /** The last result of `rs` filed under `key`: the one whose weighted score
      the merge dictionary keeps for that key. */
  function LastUnder(rs: seq<SearchResult>, key: string): Option<SearchResult>
  {
    if rs == [] then None
    else if DocKeyOf(rs[|rs| - 1]) == key then Some(rs[|rs| - 1])
    else LastUnder(rs[..|rs| - 1], key)
  }

  /** The first result of `rs` filed under `key`: the one whose document the
      merge dictionary keeps for that key. */
  function FirstUnder(rs: seq<SearchResult>, key: string): Option<SearchResult>
  {
    if rs == [] then None
    else
      var before := FirstUnder(rs[..|rs| - 1], key);
      if before.Some? then before
      else if DocKeyOf(rs[|rs| - 1]) == key then Some(rs[|rs| - 1])
      else None
  }

  /** The score one side contributes to `key`: the weighted score of its last
      result under that key, 0 when it has none. */
  function SideScore(rs: seq<SearchResult>, key: string, weight: real): real
  {
    match LastUnder(rs, key)
    case None => 0.0
    case Some(r) => Weighted(r, weight)
  }

  /** The result whose document a merge of both sides keeps for `key`: the
      first text result under it, else the first image result. */
  function FirstFiled(textResults: seq<SearchResult>, imageResults: seq<SearchResult>, key: string): Option<SearchResult>
  {
    if FirstUnder(textResults, key).Some? then FirstUnder(textResults, key) else FirstUnder(imageResults, key)
  }

  /** `LastUnder` is the result at the last position filed under the key, and
      there is one exactly when some result is filed under it. */
  lemma {:induction false} LastUnderIsLast(rs: seq<SearchResult>, key: string)
    ensures LastUnder(rs, key).None? <==> forall j :: 0 <= j < |rs| ==> DocKeyOf(rs[j]) != key
    ensures LastUnder(rs, key).Some? ==>
              exists j :: 0 <= j < |rs| && rs[j] == LastUnder(rs, key).value && DocKeyOf(rs[j]) == key
                          && forall j' :: j < j' < |rs| ==> DocKeyOf(rs[j']) != key
    decreases |rs|
  {
    if rs != [] {
      var init := rs[..|rs| - 1];
      LastUnderIsLast(init, key);
      assert forall j :: 0 <= j < |init| ==> init[j] == rs[j];
      if DocKeyOf(rs[|rs| - 1]) != key && LastUnder(init, key).Some? {
        var j :| 0 <= j < |init| && init[j] == LastUnder(init, key).value && DocKeyOf(init[j]) == key
                 && forall j' :: j < j' < |init| ==> DocKeyOf(init[j']) != key;
        assert rs[j] == LastUnder(rs, key).value;
      }
    }
  }

  /** `FirstUnder` is the result at the first position filed under the key, and
      there is one exactly when there is a last one. */
  lemma {:induction false} FirstUnderIsFirst(rs: seq<SearchResult>, key: string)
    ensures FirstUnder(rs, key).Some? <==> LastUnder(rs, key).Some?
    ensures FirstUnder(rs, key).Some? ==>
              exists j :: 0 <= j < |rs| && rs[j] == FirstUnder(rs, key).value && DocKeyOf(rs[j]) == key
                          && forall j' :: 0 <= j' < j ==> DocKeyOf(rs[j']) != key
    decreases |rs|
  {
    if rs != [] {
      var init := rs[..|rs| - 1];
      FirstUnderIsFirst(init, key);
      LastUnderIsLast(init, key);
      assert forall j :: 0 <= j < |init| ==> init[j] == rs[j];
      if FirstUnder(init, key).Some? {
        var j :| 0 <= j < |init| && init[j] == FirstUnder(init, key).value && DocKeyOf(init[j]) == key
                 && forall j' :: 0 <= j' < j ==> DocKeyOf(init[j']) != key;
        assert rs[j] == FirstUnder(rs, key).value;
      }
    }
  }

  /** Both searches on one more result. */
  lemma UnderSnoc(rs: seq<SearchResult>, r: SearchResult, key: string)
    ensures LastUnder(rs + [r], key) == if DocKeyOf(r) == key then Some(r) else LastUnder(rs, key)
    ensures FirstUnder(rs + [r], key) ==
              if FirstUnder(rs, key).Some? then FirstUnder(rs, key)
              else if DocKeyOf(r) == key then Some(r) else None
  {
    assert (rs + [r])[..|rs|] == rs;
  }

  /** An entry with one side's score replaced. */
  function WithSide(e: Entry, side: Side, value: real): Entry
  {
    if side == TextSide then e.(textScore := value) else e.(imageScore := value)
  }

  /** An entry that was present before a side was filed, afterwards: this
      side's score is that of the last result under its key, if any. */
  function Refiled(e: Entry, rs: seq<SearchResult>, side: Side, weight: real): Entry
  {
    match LastUnder(rs, e.key)
    case None => e
    case Some(r) => WithSide(e, side, Weighted(r, weight))
  }

  /** An entry a side's filing appended: some result is under its key, it holds
      the first such result's document, this side's score from the last such
      result, and 0 for the other side. */
  predicate NewFrom(e: Entry, rs: seq<SearchResult>, side: Side, weight: real)
  {
    && LastUnder(rs, e.key).Some? && FirstUnder(rs, e.key).Some?
    && e == WithSide(Entry(e.key, FirstUnder(rs, e.key).value.document, 0.0, 0.0), side, Weighted(LastUnder(rs, e.key).value, weight))
  }

  /** Entry `i` was present before a side was filed and is refiled in place. */
  predicate RefiledAt(before: seq<Entry>, after: seq<Entry>, rs: seq<SearchResult>, side: Side, weight: real, i: nat)
  {
    i < |before| && i < |after| && after[i] == Refiled(before[i], rs, side, weight)
  }

  /** Entry `i` was appended by a side's filing, under a key not seen before. */
  predicate AddedAt(before: seq<Entry>, after: seq<Entry>, rs: seq<SearchResult>, side: Side, weight: real, i: nat)
  {
    i < |after| && IndexOfKey(before, after[i].key).None? && NewFrom(after[i], rs, side, weight)
  }

  /** The key of result `j` is in the dictionary. */
  predicate CoveredAt(after: seq<Entry>, rs: seq<SearchResult>, j: nat)
  {
    j < |rs| && IndexOfKey(after, DocKeyOf(rs[j])).Some?
  }

  /** What filing `rs` on one side turns `before` into: old entries refiled in
      place, new entries appended under keys not seen before, and every
      result's key present. */
  predicate FiledFrom(before: seq<Entry>, after: seq<Entry>, rs: seq<SearchResult>, side: Side, weight: real)
  {
    && |before| <= |after|
    && (forall i: nat :: i < |before| ==> RefiledAt(before, after, rs, side, weight, i))
    && (forall i: nat :: |before| <= i < |after| ==> AddedAt(before, after, rs, side, weight, i))
    && (forall j: nat :: j < |rs| ==> CoveredAt(after, rs, j))
  }

  /** Filing one more result under a key not yet in the dictionary. */
  lemma FileStepNew(before: seq<Entry>, mid: seq<Entry>, rs: seq<SearchResult>, r: SearchResult, side: Side, weight: real)
    requires FiledFrom(before, mid, rs, side, weight)
    requires IndexOfKey(mid, DocKeyOf(r)).None?
    ensures FiledFrom(before, File(mid, r, side, weight), rs + [r], side, weight)
  {
    var key := DocKeyOf(r);
    var after := File(mid, r, side, weight);
    FileNew(mid, r, side, weight);
    forall i: nat | i < |before|
      ensures RefiledAt(before, after, rs + [r], side, weight, i)
    {
      assert RefiledAt(before, mid, rs, side, weight, i);
      UnderSnoc(rs, r, before[i].key);
    }
    assert IndexOfKey(before, key).None? by {
      forall i | 0 <= i < |before| ensures before[i].key != key {
        assert RefiledAt(before, mid, rs, side, weight, i);
      }
    }
    assert FirstUnder(rs, key).None? by {
      FirstUnderIsFirst(rs, key);
      if FirstUnder(rs, key).Some? {
        var j :| 0 <= j < |rs| && DocKeyOf(rs[j]) == key;
        assert CoveredAt(mid, rs, j);
      }
    }
    forall i: nat | |before| <= i < |after|
      ensures AddedAt(before, after, rs + [r], side, weight, i)
    {
      UnderSnoc(rs, r, after[i].key);
      if i < |mid| {
        assert AddedAt(before, mid, rs, side, weight, i);
      }
    }
    forall j: nat | j < |rs + [r]|
      ensures CoveredAt(after, rs + [r], j)
    {
      if j < |rs| {
        assert CoveredAt(mid, rs, j);
        var at := IndexOfKey(mid, DocKeyOf(rs[j])).value;
        assert after[at].key == DocKeyOf(rs[j]);
      } else {
        assert after[|mid|].key == key;
      }
    }
  }

  /** Filing one more result under a key already in the dictionary. */
  lemma FileStepKnown(before: seq<Entry>, mid: seq<Entry>, rs: seq<SearchResult>, r: SearchResult, side: Side, weight: real, at: nat)
    requires FiledFrom(before, mid, rs, side, weight) && UniqueKeys(mid)
    requires IndexOfKey(mid, DocKeyOf(r)) == Some(at)
    ensures FiledFrom(before, File(mid, r, side, weight), rs + [r], side, weight)
  {
    var key := DocKeyOf(r);
    var after := File(mid, r, side, weight);
    FileKnown(mid, r, side, weight, at);
    assert after == mid[at := WithSide(mid[at], side, Weighted(r, weight))];
    forall i: nat | i < |before|
      ensures RefiledAt(before, after, rs + [r], side, weight, i)
    {
      assert RefiledAt(before, mid, rs, side, weight, i);
      UnderSnoc(rs, r, before[i].key);
    }
    forall i: nat | |before| <= i < |after|
      ensures AddedAt(before, after, rs + [r], side, weight, i)
    {
      assert AddedAt(before, mid, rs, side, weight, i);
      UnderSnoc(rs, r, mid[i].key);
    }
    forall j: nat | j < |rs + [r]|
      ensures CoveredAt(after, rs + [r], j)
    {
      if j < |rs| {
        assert CoveredAt(mid, rs, j);
        var k := IndexOfKey(mid, DocKeyOf(rs[j])).value;
        assert after[k].key == DocKeyOf(rs[j]);
      } else {
        assert after[at].key == key;
      }
    }
  }

  /** Filing a side's results, from any dictionary with one entry per key:
      every old entry is refiled in place, each new key is appended once, with
      the first result's document and the last result's score, and every
      result's key is present. */
  lemma {:induction false} FileAllFiled(entries: seq<Entry>, rs: seq<SearchResult>, side: Side, weight: real)
    requires UniqueKeys(entries) && KeysOwnDocuments(entries)
    ensures FiledFrom(entries, FileAll(entries, rs, side, weight), rs, side, weight)
    decreases |rs|
  {
    if rs == [] {
      forall i: nat | i < |entries|
        ensures RefiledAt(entries, entries, rs, side, weight, i)
      {
      }
    } else {
      var init := rs[..|rs| - 1];
      var r := rs[|rs| - 1];
      var mid := FileAll(entries, init, side, weight);
      assert init + [r] == rs;
      assert FileAll(entries, rs, side, weight) == File(mid, r, side, weight);
      FileAllFiled(entries, init, side, weight);
      FileAllPreserves(entries, init, side, weight);
      FileStep(entries, mid, init, r, side, weight);
    }
  }

  /** Filing one more result. */
  lemma FileStep(before: seq<Entry>, mid: seq<Entry>, rs: seq<SearchResult>, r: SearchResult, side: Side, weight: real)
    requires FiledFrom(before, mid, rs, side, weight) && UniqueKeys(mid)
    ensures FiledFrom(before, File(mid, r, side, weight), rs + [r], side, weight)
  {
    var at := IndexOfKey(mid, DocKeyOf(r));
    if at.None? {
      FileStepNew(before, mid, rs, r, side, weight);
    } else {
      FileStepKnown(before, mid, rs, r, side, weight, at.value);
    }
  }

  /** Filing adds at most one entry per result. */
  lemma {:induction false} FileAllLength(entries: seq<Entry>, rs: seq<SearchResult>, side: Side, weight: real)
    ensures |FileAll(entries, rs, side, weight)| <= |entries| + |rs|
    decreases |rs|
  {
    if rs != [] {
      FileAllLength(entries, rs[..|rs| - 1], side, weight);
    }
  }

  /** The merge dictionary of `hybrid_search`: its keys are exactly the keys
      of the text and image results; each entry's text score is
      `text_weight` times the score of the last text result under its key,
      its image score `1 - text_weight` times that of the last image result
      under it, a side without such a result contributing 0; and it holds
      the document of the first result filed under its key. */
  lemma MergeScores(textResults: seq<SearchResult>, imageResults: seq<SearchResult>, textWeight: real)
    ensures var merged := Merge(textResults, imageResults, textWeight);
            && |merged| <= |textResults| + |imageResults|
            && (forall key :: IndexOfKey(merged, key).Some? <==>
                  (exists j :: 0 <= j < |textResults| && DocKeyOf(textResults[j]) == key)
                  || (exists j :: 0 <= j < |imageResults| && DocKeyOf(imageResults[j]) == key))
            && (forall i :: 0 <= i < |merged| ==>
                  && merged[i].textScore == SideScore(textResults, merged[i].key, textWeight)
                  && merged[i].imageScore == SideScore(imageResults, merged[i].key, 1.0 - textWeight)
                  && FirstFiled(textResults, imageResults, merged[i].key).Some?
                  && merged[i].document == FirstFiled(textResults, imageResults, merged[i].key).value.document)
  {
    var afterText := FileAll([], textResults, TextSide, textWeight);
    var merged := Merge(textResults, imageResults, textWeight);
    FileAllLength([], textResults, TextSide, textWeight);
    FileAllLength(afterText, imageResults, ImageSide, 1.0 - textWeight);
    forall key
      ensures IndexOfKey(merged, key).Some? <==>
                (exists j :: 0 <= j < |textResults| && DocKeyOf(textResults[j]) == key)
                || (exists j :: 0 <= j < |imageResults| && DocKeyOf(imageResults[j]) == key)
    {
      MergedKey(textResults, imageResults, textWeight, key);
    }
    forall i | 0 <= i < |merged|
      ensures && merged[i].textScore == SideScore(textResults, merged[i].key, textWeight)
              && merged[i].imageScore == SideScore(imageResults, merged[i].key, 1.0 - textWeight)
              && FirstFiled(textResults, imageResults, merged[i].key).Some?
              && merged[i].document == FirstFiled(textResults, imageResults, merged[i].key).value.document
    {
      MergedEntry(textResults, imageResults, textWeight, i);
    }
  }

  /** Both sides' filings, text first. */
  lemma BothSidesFiled(textResults: seq<SearchResult>, imageResults: seq<SearchResult>, textWeight: real)
    ensures FiledFrom([], FileAll([], textResults, TextSide, textWeight), textResults, TextSide, textWeight)
    ensures FiledFrom(FileAll([], textResults, TextSide, textWeight), Merge(textResults, imageResults, textWeight),
                      imageResults, ImageSide, 1.0 - textWeight)
  {
    var afterText := FileAll([], textResults, TextSide, textWeight);
    assert Merge(textResults, imageResults, textWeight) == FileAll(afterText, imageResults, ImageSide, 1.0 - textWeight);
    FileAllFiled([], textResults, TextSide, textWeight);
    FileAllPreserves([], textResults, TextSide, textWeight);
    FileAllFiled(afterText, imageResults, ImageSide, 1.0 - textWeight);
  }

  /** A key is in the merge dictionary exactly when some result is filed under it. */
  lemma MergedKey(textResults: seq<SearchResult>, imageResults: seq<SearchResult>, textWeight: real, key: string)
    ensures IndexOfKey(Merge(textResults, imageResults, textWeight), key).Some? <==>
              (exists j :: 0 <= j < |textResults| && DocKeyOf(textResults[j]) == key)
              || (exists j :: 0 <= j < |imageResults| && DocKeyOf(imageResults[j]) == key)
  {
    var afterText := FileAll([], textResults, TextSide, textWeight);
    var merged := Merge(textResults, imageResults, textWeight);
    BothSidesFiled(textResults, imageResults, textWeight);
    LastUnderIsLast(textResults, key);
    LastUnderIsLast(imageResults, key);
    var at := IndexOfKey(merged, key);
    if at.Some? {
      if at.value < |afterText| {
        assert RefiledAt(afterText, merged, imageResults, ImageSide, 1.0 - textWeight, at.value);
        assert AddedAt([], afterText, textResults, TextSide, textWeight, at.value);
      } else {
        assert AddedAt(afterText, merged, imageResults, ImageSide, 1.0 - textWeight, at.value);
      }
    } else {
      forall j | 0 <= j < |textResults| ensures DocKeyOf(textResults[j]) != key {
        assert CoveredAt(afterText, textResults, j);
        var k := IndexOfKey(afterText, DocKeyOf(textResults[j])).value;
        assert RefiledAt(afterText, merged, imageResults, ImageSide, 1.0 - textWeight, k);
      }
      forall j | 0 <= j < |imageResults| ensures DocKeyOf(imageResults[j]) != key {
        assert CoveredAt(merged, imageResults, j);
      }
    }
  }

  /** One entry of the merge dictionary: its two side scores and its document. */
  lemma MergedEntry(textResults: seq<SearchResult>, imageResults: seq<SearchResult>, textWeight: real, i: nat)
    requires i < |Merge(textResults, imageResults, textWeight)|
    ensures var e := Merge(textResults, imageResults, textWeight)[i];
            && e.textScore == SideScore(textResults, e.key, textWeight)
            && e.imageScore == SideScore(imageResults, e.key, 1.0 - textWeight)
            && FirstFiled(textResults, imageResults, e.key).Some?
            && e.document == FirstFiled(textResults, imageResults, e.key).value.document
  {
    var afterText := FileAll([], textResults, TextSide, textWeight);
    var merged := Merge(textResults, imageResults, textWeight);
    BothSidesFiled(textResults, imageResults, textWeight);
    var e := merged[i];
    if i < |afterText| {
      assert AddedAt([], afterText, textResults, TextSide, textWeight, i);
      assert RefiledAt(afterText, merged, imageResults, ImageSide, 1.0 - textWeight, i);
    } else {
      assert AddedAt(afterText, merged, imageResults, ImageSide, 1.0 - textWeight, i);
      LastUnderIsLast(textResults, e.key);
      FirstUnderIsFirst(textResults, e.key);
      forall j | 0 <= j < |textResults| ensures DocKeyOf(textResults[j]) != e.key {
        assert CoveredAt(afterText, textResults, j);
      }
    }
  }

  function Combined(e: Entry): SearchResult
  {
    SearchResult(e.document, e.textScore + e.imageScore, 1.0 - (e.textScore + e.imageScore))
  }

  function CombineAll(entries: seq<Entry>): (r: seq<SearchResult>)
    ensures |r| == |entries| && forall i :: 0 <= i < |entries| ==> r[i] == Combined(entries[i])
  {
    if entries == [] then [] else [Combined(entries[0])] + CombineAll(entries[1..])
  }

  /** The search `search_by_text` / `search_by_image` run with `top_k * 2`. */
  function SubQuery(text: Option<string>, imagePath: Option<string>, topK: int): SearchQuery
  {
    SearchQuery(text, imagePath, None, topK * 2, None, map[])
  }

  /** The results of one side: its sub-search when its input is truthy. */
  function SideResults(input: Option<string>, side: Side, topK: int, collection: seq<Document>, similarity: Document -> real): seq<SearchResult>
  {
    if !StrTruthy(input) then []
    else
      var q := if side == TextSide then SubQuery(input, None, topK) else SubQuery(None, input, topK);
      Searched(q, collection, similarity).value
  }

  /** The merge dictionary after both sides were filed. */
  function Merged(text: Option<string>, imagePath: Option<string>, textWeight: real, topK: int,
                  collection: seq<Document>, textSimilarity: Document -> real, imageSimilarity: Document -> real): seq<Entry>
  {
    Merge(SideResults(text, TextSide, topK, collection, textSimilarity),
          SideResults(imagePath, ImageSide, topK, collection, imageSimilarity), textWeight)
  }

  /** Both sides filed in turn: the text results with `text_weight`, then the
      image results with `1 - text_weight`. */
  function Merge(textResults: seq<SearchResult>, imageResults: seq<SearchResult>, textWeight: real): seq<Entry>
  {
    FileAll(FileAll([], textResults, TextSide, textWeight), imageResults, ImageSide, 1.0 - textWeight)
  }

  /** The merge loop of one side: each result is filed under its document's
      key, in result order. */
  method FileResults(entries: seq<Entry>, results: seq<SearchResult>, side: Side, weight: real)
    returns (filed: seq<Entry>)
    ensures filed == FileAll(entries, results, side, weight)
  {
    filed := entries;
    for i := 0 to |results|
      invariant filed == FileAll(entries, results[..i], side, weight)
    {
      assert results[..i + 1][..i] == results[..i];
      var r := results[i];
      assert FileAll(entries, results[..i + 1], side, weight) == File(filed, r, side, weight);
      ghost var target := File(filed, r, side, weight);
      var key := DocKey(r.document);
      var value := r.score * weight;
      var at := IndexOfKey(filed, key);
      assert value == Weighted(r, weight);
      assert key == DocKey(r.document);
      if at.None? {
        FileNew(filed, r, side, weight);
        filed := filed + [if side == TextSide then Entry(key, r.document, value, 0.0) else Entry(key, r.document, 0.0, value)];
        assert filed == target;
      } else if side == TextSide {
        FileKnown(filed, r, side, weight, at.value);
        filed := filed[at.value := filed[at.value].(textScore := value)];
      } else {
        FileKnown(filed, r, side, weight, at.value);
        filed := filed[at.value := filed[at.value].(imageScore := value)];
      }
      assert filed == target;
    }
    assert results[..|results|] == results;
  }

  /** `hybrid_search`: each truthy input runs its own search for twice as many
      results, weighted by `text_weight` and `1 - text_weight`; the results are
      merged per document id, combined, ranked and cut to `top_k`. */
  method HybridSearch(text: Option<string>, imagePath: Option<string>, textWeight: real, topK: int,
                      collection: seq<Document>, textSimilarity: Document -> real, imageSimilarity: Document -> real)
    returns (out: seq<SearchResult>)
    ensures out == Ranked(Merged(text, imagePath, textWeight, topK, collection, textSimilarity, imageSimilarity), topK)
  {
    var textResults := SideSearch(text, TextSide, topK, collection, textSimilarity);
    var imageResults := SideSearch(imagePath, ImageSide, topK, collection, imageSimilarity);
    var entries := MergeResults(textResults, imageResults, textWeight);
    out := Ranked(entries, topK);
  }

  /** The two merge loops of `hybrid_search`, text side first. */
  method MergeResults(textResults: seq<SearchResult>, imageResults: seq<SearchResult>, textWeight: real)
    returns (entries: seq<Entry>)
    ensures entries == Merge(textResults, imageResults, textWeight)
  {
    var afterText := FileResults([], textResults, TextSide, textWeight);
    entries := FileResults(afterText, imageResults, ImageSide, 1.0 - textWeight);
  }

  /** The merged entries combined, ranked by combined score and cut to `top_k`. */
  function Ranked(entries: seq<Entry>, topK: int): seq<SearchResult>
  {
    PySliceTo(SortDesc(CombineAll(entries), Score), topK)
  }

  /** One side of `hybrid_search`: no results for a falsy input, otherwise the
      sub-search for twice as many results. */
  method SideSearch(input: Option<string>, side: Side, topK: int, collection: seq<Document>, similarity: Document -> real)
    returns (results: seq<SearchResult>)
    ensures results == SideResults(input, side, topK, collection, similarity)
  {
    results := [];
    if StrTruthy(input) {
      var q := if side == TextSide then SubQuery(input, None, topK) else SubQuery(None, input, topK);
      var found := Search(q, collection, similarity);
      results := found.value;
    }
  }

  /** The merge dictionary holds one entry per key, each under its own
      document's key. */
  lemma MergedWellFormed(text: Option<string>, imagePath: Option<string>, textWeight: real, topK: int,
                         collection: seq<Document>, textSimilarity: Document -> real, imageSimilarity: Document -> real)
    ensures var merged := Merged(text, imagePath, textWeight, topK, collection, textSimilarity, imageSimilarity);
            UniqueKeys(merged) && KeysOwnDocuments(merged)
  {
    BothSidesWellFormed(SideResults(text, TextSide, topK, collection, textSimilarity),
                        SideResults(imagePath, ImageSide, topK, collection, imageSimilarity), textWeight);
  }

  lemma BothSidesWellFormed(textResults: seq<SearchResult>, imageResults: seq<SearchResult>, textWeight: real)
    ensures var merged := FileAll(FileAll([], textResults, TextSide, textWeight), imageResults, ImageSide, 1.0 - textWeight);
            UniqueKeys(merged) && KeysOwnDocuments(merged)
  {
    FileAllPreserves([], textResults, TextSide, textWeight);
    FileAllPreserves(FileAll([], textResults, TextSide, textWeight), imageResults, ImageSide, 1.0 - textWeight);
  }

  lemma CombinedDistinct(entries: seq<Entry>)
    requires UniqueKeys(entries) && KeysOwnDocuments(entries)
    ensures DistinctBy(CombineAll(entries), DocKeyOf)
  {
    var combined := CombineAll(entries);
    forall i, j | 0 <= i < j < |combined|
      ensures DocKeyOf(combined[i]) != DocKeyOf(combined[j])
    {
      assert combined[i] == Combined(entries[i]) && combined[j] == Combined(entries[j]);
    }
  }

  /** Ranking and cutting combined entries keeps one result per document, in
      descending order, at most `top_k`, each the combination of an entry. */
  lemma RankedShape(entries: seq<Entry>, topK: int)
    requires UniqueKeys(entries) && KeysOwnDocuments(entries)
    ensures var out := Ranked(entries, topK);
            && DistinctBy(out, DocKeyOf)
            && SortedDesc(out, Score)
            && (topK >= 0 ==> |out| <= topK)
            && forall r :: r in out ==> exists e :: e in entries && r == Combined(e)
  {
    var combined := CombineAll(entries);
    CombinedDistinct(entries);
    SortDescSorted(combined, Score);
    SortDescDistinct(combined, Score, DocKeyOf);
    var sorted := SortDesc(combined, Score);
    PrefixKeeps(sorted, topK, Score, DocKeyOf);
    forall r | r in sorted
      ensures exists e :: e in entries && r == Combined(e)
    {
      assert r in multiset(sorted);
      var i :| 0 <= i < |combined| && combined[i] == r;
      assert entries[i] in entries;
    }
  }

  /** Each ranked result of a merge scores the sum of the two weighted side
      scores of its key, with one minus that as its distance, and carries the
      document first filed under the key; with `top_k` at least the number of
      results, every key of either side is ranked. */
  lemma RankedMerge(textResults: seq<SearchResult>, imageResults: seq<SearchResult>, textWeight: real, topK: int)
    ensures var out := Ranked(Merge(textResults, imageResults, textWeight), topK);
            && (forall r :: r in out ==>
                  && r.score == SideScore(textResults, DocKeyOf(r), textWeight) + SideScore(imageResults, DocKeyOf(r), 1.0 - textWeight)
                  && r.distance == 1.0 - r.score
                  && FirstFiled(textResults, imageResults, DocKeyOf(r)).Some?
                  && r.document == FirstFiled(textResults, imageResults, DocKeyOf(r)).value.document)
            && (topK >= |textResults| + |imageResults| ==>
                  forall r :: r in textResults + imageResults ==> exists o :: o in out && DocKeyOf(o) == DocKeyOf(r))
  {
    var merged := Merge(textResults, imageResults, textWeight);
    var out := Ranked(merged, topK);
    MergeScores(textResults, imageResults, textWeight);
    BothSidesWellFormed(textResults, imageResults, textWeight);
    RankedShape(merged, topK);
    forall r | r in out
      ensures && r.score == SideScore(textResults, DocKeyOf(r), textWeight) + SideScore(imageResults, DocKeyOf(r), 1.0 - textWeight)
              && r.distance == 1.0 - r.score
              && FirstFiled(textResults, imageResults, DocKeyOf(r)).Some?
              && r.document == FirstFiled(textResults, imageResults, DocKeyOf(r)).value.document
    {
      var e :| e in merged && r == Combined(e);
      var i :| 0 <= i < |merged| && merged[i] == e;
      assert DocKeyOf(r) == e.key;
    }
    if topK >= |textResults| + |imageResults| {
      var combined := CombineAll(merged);
      var sorted := SortDesc(combined, Score);
      assert out == sorted;
      forall r | r in textResults + imageResults
        ensures exists o :: o in out && DocKeyOf(o) == DocKeyOf(r)
      {
        var key := DocKeyOf(r);
        if r in textResults {
          var j :| 0 <= j < |textResults| && textResults[j] == r;
        } else {
          var j :| 0 <= j < |imageResults| && imageResults[j] == r;
        }
        var k := IndexOfKey(merged, key).value;
        assert combined[k] == Combined(merged[k]);
        assert combined[k] in multiset(sorted);
        assert DocKeyOf(combined[k]) == key;
      }
    }
  }

  /** A hybrid search names each document at most once, ranks by combined
      score and returns at most `top_k` results; each result scores
      `text_weight` times the score of the last text result for its document
      plus `1 - text_weight` times that of the last image result, a side
      without one counting 0, and carries the first document found under its
      id; with `top_k` at least the number of side results, nothing found by
      either side is missing. */
  lemma HybridShape(text: Option<string>, imagePath: Option<string>, textWeight: real, topK: int,
                    collection: seq<Document>, textSimilarity: Document -> real, imageSimilarity: Document -> real)
    ensures var textResults := SideResults(text, TextSide, topK, collection, textSimilarity);
            var imageResults := SideResults(imagePath, ImageSide, topK, collection, imageSimilarity);
            var out := Ranked(Merged(text, imagePath, textWeight, topK, collection, textSimilarity, imageSimilarity), topK);
            && DistinctBy(out, DocKeyOf)
            && SortedDesc(out, Score)
            && (topK >= 0 ==> |out| <= topK)
            && (forall r :: r in out ==>
                  && r.score == SideScore(textResults, DocKeyOf(r), textWeight) + SideScore(imageResults, DocKeyOf(r), 1.0 - textWeight)
                  && r.distance == 1.0 - r.score
                  && FirstFiled(textResults, imageResults, DocKeyOf(r)).Some?
                  && r.document == FirstFiled(textResults, imageResults, DocKeyOf(r)).value.document)
            && (topK >= |textResults| + |imageResults| ==>
                  forall r :: r in textResults + imageResults ==> exists o :: o in out && DocKeyOf(o) == DocKeyOf(r))
  {
    var textResults := SideResults(text, TextSide, topK, collection, textSimilarity);
    var imageResults := SideResults(imagePath, ImageSide, topK, collection, imageSimilarity);
    MergedWellFormed(text, imagePath, textWeight, topK, collection, textSimilarity, imageSimilarity);
    RankedShape(Merged(text, imagePath, textWeight, topK, collection, textSimilarity, imageSimilarity), topK);
    RankedMerge(textResults, imageResults, textWeight, topK);
  }
}
