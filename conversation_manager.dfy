/** `ConversationManager` in `conversation_manager.py`: the `conversations`
    collection with its upsert on (question, answer, timestamp), the ranked
    search over stored conversations, and deletion by id. Embeddings are
    inputs; the similarity of each stored conversation to the query is a
    function the search receives. */
module ConversationManager {
  import opened Wrappers
  import opened Text
  import opened Ranking

  /** A MongoDB `_id`: a generated ObjectId (numbered here) or a string. */
  datatype DocId = ObjectId(n: nat) | StrId(s: string)

  /** `str(ObjectId)`: 24 characters, rendered here in decimal. */
  function OidText(n: nat): string
  {
    PadStart(NatToString(n), 24, '0')
  }

  function IdText(id: DocId): string
  {
    match id
    case ObjectId(n) => OidText(n)
    case StrId(s) => s
  }

  /** The text of an ObjectId determines it. */
  lemma OidTextReadsBack(n: nat)
    ensures AllDigits(OidText(n)) && ParseDigits(OidText(n)) == n
  {
    var s := NatToString(n);
    ParseNatToString(n);
    if |s| < 24 {
      ParseLeadingZeros(24 - |s|, s);
    }
  }

  lemma OidTextInjective(n: nat, m: nat)
    ensures OidText(n) == OidText(m) <==> n == m
  {
    OidTextReadsBack(n);
    OidTextReadsBack(m);
  }

  datatype ConvDoc = ConvDoc(
    id: DocId,
    userId: Option<string>,
    conversationId: Option<string>,
    question: string,
    answer: string,
    questionImage: Option<string>,
    timestamp: real,
    questionEmbedding: Option<seq<real>>,
    answerEmbedding: Option<seq<real>>,
    combinedEmbedding: Option<seq<real>>,
    createdAt: real)

  /** The upsert filter `{question, answer, timestamp}`. */
  predicate HasKey(d: ConvDoc, question: string, answer: string, timestamp: real)
  {
    d.question == question && d.answer == answer && d.timestamp == timestamp
  }

  /** The first document the filter matches. */
  function FindKey(collection: seq<ConvDoc>, question: string, answer: string, timestamp: real): (r: Option<nat>)
    ensures r.None? <==> forall i :: 0 <= i < |collection| ==> !HasKey(collection[i], question, answer, timestamp)
    ensures r.Some? ==> r.value < |collection| && HasKey(collection[r.value], question, answer, timestamp)
                        && forall i :: 0 <= i < r.value ==> !HasKey(collection[i], question, answer, timestamp)
  {
    if collection == [] then None
    else if HasKey(collection[0], question, answer, timestamp) then Some(0)
    else
      var r := FindKey(collection[1..], question, answer, timestamp);
      assert forall i :: 1 <= i < |collection| ==> collection[i] == collection[1..][i - 1];
      if r.Some? then Some(r.value + 1) else None
  }

  lemma FindKeyAt(collection: seq<ConvDoc>, question: string, answer: string, timestamp: real, i: nat)
    requires i < |collection| && HasKey(collection[i], question, answer, timestamp)
    requires forall j :: 0 <= j < i ==> !HasKey(collection[j], question, answer, timestamp)
    ensures FindKey(collection, question, answer, timestamp) == Some(i)
  {
  }

  /** What one save writes: the `$set` fields. */
  datatype Saving = Saving(
    question: string,
    answer: string,
    questionImage: Option<string>,
    timestamp: real,
    questionEmbedding: seq<real>,
    answerEmbedding: seq<real>,
    combinedEmbedding: seq<real>,
    createdAt: real)

  /** `$set` on an existing document: `_id`, `user_id` and `conversation_id`
      are kept. */
  function Apply(d: ConvDoc, s: Saving): ConvDoc
  {
    d.(question := s.question, answer := s.answer, questionImage := s.questionImage, timestamp := s.timestamp,
       questionEmbedding := Some(s.questionEmbedding), answerEmbedding := Some(s.answerEmbedding),
       combinedEmbedding := Some(s.combinedEmbedding), createdAt := s.createdAt)
  }

  /** The document an upsert inserts: the filter and the `$set` fields only. */
  function Inserted(n: nat, s: Saving): ConvDoc
  {
    ConvDoc(ObjectId(n), None, None, s.question, s.answer, s.questionImage, s.timestamp,
            Some(s.questionEmbedding), Some(s.answerEmbedding), Some(s.combinedEmbedding), s.createdAt)
  }

  datatype SaveOutcome = SaveOutcome(collection: seq<ConvDoc>, nextOid: nat, id: string)

  /** `save_conversation`: update the first document with the same question,
      answer and timestamp and return its id, or insert a new one under a
      fresh ObjectId and return that. */
  function Saved(collection: seq<ConvDoc>, nextOid: nat, s: Saving): SaveOutcome
  {
    match FindKey(collection, s.question, s.answer, s.timestamp)
    case Some(i) => SaveOutcome(collection[i := Apply(collection[i], s)], nextOid, IdText(collection[i].id))
    case None => SaveOutcome(collection + [Inserted(nextOid, s)], nextOid + 1, OidText(nextOid))
  }

  /** Ids are unique and every ObjectId was handed out before `nextOid`. */
  predicate IdsFresh(collection: seq<ConvDoc>, nextOid: nat)
  {
    && (forall i, j :: 0 <= i < j < |collection| ==> collection[i].id != collection[j].id)
    && (forall i :: 0 <= i < |collection| && collection[i].id.ObjectId? ==> collection[i].id.n < nextOid)
  }

  /** At most one document per upsert key. */
  predicate KeysUnique(collection: seq<ConvDoc>)
  {
    forall i, j :: 0 <= i < j < |collection| ==>
      !HasKey(collection[j], collection[i].question, collection[i].answer, collection[i].timestamp)
  }

  /** A save changes at most one document, adds at most one, and the returned
      id is that document's; every other document is kept. */
  lemma SaveTouchesOne(collection: seq<ConvDoc>, nextOid: nat, s: Saving)
    ensures var o := Saved(collection, nextOid, s);
            && |collection| <= |o.collection| <= |collection| + 1
            && (exists k :: 0 <= k < |o.collection| && IdText(o.collection[k].id) == o.id
                  && HasKey(o.collection[k], s.question, s.answer, s.timestamp)
                  && o.collection[k].combinedEmbedding == Some(s.combinedEmbedding)
                  && forall i :: 0 <= i < |collection| && i != k ==> o.collection[i] == collection[i])
  {
    var o := Saved(collection, nextOid, s);
    match FindKey(collection, s.question, s.answer, s.timestamp)
    case Some(i) =>
      assert IdText(o.collection[i].id) == o.id;
    case None =>
      assert IdText(o.collection[|collection|].id) == o.id;
  }

  /** Saving the same (question, answer, timestamp) again adds no document and
      returns the same id. */
  lemma SaveAgainSameId(collection: seq<ConvDoc>, nextOid: nat, s: Saving, t: Saving)
    requires t.question == s.question && t.answer == s.answer && t.timestamp == s.timestamp
    ensures var first := Saved(collection, nextOid, s);
            var second := Saved(first.collection, first.nextOid, t);
            |second.collection| == |first.collection| && second.nextOid == first.nextOid && second.id == first.id
  {
    var first := Saved(collection, nextOid, s);
    match FindKey(collection, s.question, s.answer, s.timestamp)
    case Some(i) =>
      assert forall j :: 0 <= j < i ==> first.collection[j] == collection[j];
      FindKeyAt(first.collection, s.question, s.answer, s.timestamp, i);
    case None =>
      assert forall j :: 0 <= j < |collection| ==> first.collection[j] == collection[j];
      FindKeyAt(first.collection, s.question, s.answer, s.timestamp, |collection|);
  }

  /** Saves keep ids unique and ObjectIds fresh, and keep one document per key. */
  lemma SaveKeepsInvariants(collection: seq<ConvDoc>, nextOid: nat, s: Saving)
    ensures var o := Saved(collection, nextOid, s);
            (IdsFresh(collection, nextOid) ==> IdsFresh(o.collection, o.nextOid))
            && (KeysUnique(collection) ==> KeysUnique(o.collection))
  {
  }

  class ConversationManager {
    var collection: seq<ConvDoc>
    var nextOid: nat

    ghost predicate Valid()
      reads this
    {
      IdsFresh(collection, nextOid)
    }

    constructor(stored: seq<ConvDoc>, nextOid: nat)
      requires IdsFresh(stored, nextOid)
      ensures Valid() && collection == stored && this.nextOid == nextOid
    {
      collection := stored;
      this.nextOid := nextOid;
    }

    method SaveConversation(s: Saving) returns (id: string)
      requires Valid()
      modifies this
      ensures Valid()
      ensures var o := Saved(old(collection), old(nextOid), s);
              collection == o.collection && nextOid == o.nextOid && id == o.id
    {
      SaveKeepsInvariants(collection, nextOid, s);
      var existing := FindKey(collection, s.question, s.answer, s.timestamp);
      if existing.None? {
        collection := collection + [Inserted(nextOid, s)];
        id := OidText(nextOid);
        nextOid := nextOid + 1;
      } else {
        var i := existing.value;
        collection := collection[i := Apply(collection[i], s)];
        id := IdText(collection[i].id);
      }
    }

    /** `search_conversations`, the loop over every stored conversation. */
    method SearchConversations(query: Option<string>, topK: int, similarity: ConvDoc -> Similarity)
      returns (r: Result<seq<ConvResult>, string>)
      ensures r == Searched(collection, query, topK, similarity)
    {
      if !(query.Some? && query.value != "") {
        return Failure("Query must be a valid string");
      }
      if IsBlankPy(query.value) {
        return Success([]);
      }
      var conversations := collection;
      if |conversations| == 0 {
        assert Hits(conversations, similarity) == [];
        return Success([]);
      }
      var results: seq<ConvResult> := [];
      for i := 0 to |conversations|
        invariant results == Hits(conversations[..i], similarity)
      {
        assert conversations[..i + 1][..i] == conversations[..i];
        var conv := conversations[i];
        if conv.id == StrId("") {
          continue;
        }
        if conv.userId.None? || conv.conversationId.None? {
          continue;
        }
        if conv.combinedEmbedding.None? || conv.combinedEmbedding.value == [] {
          continue;
        }
        var score := match similarity(conv) case Finite(v) => v case _ => 0.0;
        results := results + [ConvResult(IdText(conv.id), conv.question, conv.answer, conv.questionImage, score, conv.timestamp)];
      }
      assert conversations[..|conversations|] == conversations;
      results := SortDesc(results, ResultScore);
      return Success(PySliceTo(results, topK));
    }

    /** `delete_conversation`, with the id looked up by its text. */
    method DeleteConversation(conversationId: string) returns (deleted: bool)
      requires Valid()
      modifies this
      ensures Valid()
      ensures var o := DeletedById(old(collection), conversationId);
              collection == o.collection && deleted == o.deleted
      ensures nextOid == old(nextOid)
    {
      DeleteKeepsIdsFresh(collection, nextOid, IdTextIs(conversationId));
      var o := DeletedById(collection, conversationId);
      collection := o.collection;
      deleted := o.deleted;
    }
  }

  /** The result of similarity for one stored conversation. */
  datatype Similarity = Finite(value: real) | NotFinite | Raised

  datatype ConvResult = ConvResult(
    conversationId: string,
    question: string,
    answer: string,
    questionImage: Option<string>,
    score: real,
    timestamp: real)

  function ResultScore(r: ConvResult): real { r.score }

  /** A stored conversation the search can score: a truthy `_id`, the fields
      `ConversationData` requires (`user_id`, `conversation_id`), and a
      non-empty combined embedding. */
  predicate Listable(d: ConvDoc)
  {
    && d.id != StrId("")
    && d.userId.Some? && d.conversationId.Some?
    && d.combinedEmbedding.Some? && d.combinedEmbedding.value != []
  }

  /** A NaN, infinite or failed similarity counts as 0. */
  function ScoreOf(s: Similarity): real
  {
    match s
    case Finite(v) => v
    case _ => 0.0
  }

  function ResultOf(d: ConvDoc, similarity: ConvDoc -> Similarity): ConvResult
  {
    ConvResult(IdText(d.id), d.question, d.answer, d.questionImage, ScoreOf(similarity(d)), d.timestamp)
  }

  function Hits(docs: seq<ConvDoc>, similarity: ConvDoc -> Similarity): seq<ConvResult>
  {
    if docs == [] then []
    else
      var last := docs[|docs| - 1];
      Hits(docs[..|docs| - 1], similarity) + (if Listable(last) then [ResultOf(last, similarity)] else [])
  }

  /** What `search_conversations` returns: an error for a falsy or non-string
      query, nothing for a blank one, otherwise every listable conversation
      scored, ranked and cut to `top_k`. */
  function Searched(collection: seq<ConvDoc>, query: Option<string>, topK: int, similarity: ConvDoc -> Similarity)
    : Result<seq<ConvResult>, string>
  {
    if !(query.Some? && query.value != "") then Failure("Query must be a valid string")
    else if IsBlankPy(query.value) then Success([])
    else Success(PySliceTo(SortDesc(Hits(collection, similarity), ResultScore), topK))
  }

  lemma {:induction false} HitsExactly(docs: seq<ConvDoc>, similarity: ConvDoc -> Similarity)
    ensures |Hits(docs, similarity)| <= |docs|
    ensures forall r :: r in Hits(docs, similarity) <==>
              exists d :: d in docs && Listable(d) && r == ResultOf(d, similarity)
    decreases |docs|
  {
    if docs != [] {
      var init := docs[..|docs| - 1];
      HitsExactly(init, similarity);
      assert docs == init + [docs[|docs| - 1]];
      assert forall d :: d in docs <==> d in init || d == docs[|docs| - 1];
    }
  }

  /** A falsy query is an error and a blank one finds nothing. Otherwise the
      results are ranked, at most `top_k`, each one a listable conversation
      with its similarity (0 when not finite); there is no threshold, so with
      `top_k` at least the collection size every listable conversation is
      returned. */
  lemma SearchShape(collection: seq<ConvDoc>, query: Option<string>, topK: int, similarity: ConvDoc -> Similarity)
    ensures Searched(collection, query, topK, similarity).Failure? <==> !(query.Some? && query.value != "")
    ensures query.Some? && query.value != "" && IsBlankPy(query.value) ==> Searched(collection, query, topK, similarity) == Success([])
    ensures Searched(collection, query, topK, similarity).Success? ==>
              var out := Searched(collection, query, topK, similarity).value;
              && SortedDesc(out, ResultScore)
              && (topK >= 0 ==> |out| <= topK)
              && (forall r :: r in out ==> exists d :: d in collection && Listable(d) && r == ResultOf(d, similarity))
              && (query.Some? && !IsBlankPy(query.value) && topK >= |collection| ==>
                    forall d :: d in collection && Listable(d) ==> ResultOf(d, similarity) in out)
  {
    var hits := Hits(collection, similarity);
    HitsExactly(collection, similarity);
    SortDescSorted(hits, ResultScore);
    var sorted := SortDesc(hits, ResultScore);
    PrefixKeeps(sorted, topK, ResultScore, ResultKey);
    assert forall r :: r in sorted <==> r in hits by {
      forall r
        ensures r in sorted <==> r in hits
      {
        assert r in sorted <==> r in multiset(sorted);
      }
    }
    if topK >= |collection| {
      assert PySliceTo(sorted, topK) == sorted;
    }
  }

  function ResultKey(r: ConvResult): string { r.conversationId }

  /** The collection's own saves insert documents without `user_id`, so a
      collection built only by them is never listed. */
  lemma OwnSavesAreNeverListed(collection: seq<ConvDoc>, nextOid: nat, s: Saving, similarity: ConvDoc -> Similarity)
    requires forall i :: 0 <= i < |collection| ==> collection[i].userId.None?
    ensures var after := Saved(collection, nextOid, s).collection;
            && (forall i :: 0 <= i < |after| ==> after[i].userId.None?)
            && Hits(after, similarity) == []
  {
    var after := Saved(collection, nextOid, s).collection;
    HitsExactly(after, similarity);
    if Hits(after, similarity) != [] {
      var r := Hits(after, similarity)[0];
      assert r in Hits(after, similarity);
    }
  }

  datatype DeleteOutcome = DeleteOutcome(collection: seq<ConvDoc>, deleted: bool)

  /** A `delete_one` filter on `_id`: equal to a stored value, or (as the ids
      a save returns are written) having that text. */
  datatype IdFilter = IdIs(id: DocId) | IdTextIs(text: string)

  predicate Matches(f: IdFilter, d: ConvDoc)
  {
    match f
    case IdIs(id) => d.id == id
    case IdTextIs(text) => IdText(d.id) == text
  }

  /** The first document a delete filter matches. */
  function FirstMatch(collection: seq<ConvDoc>, f: IdFilter): (r: Option<nat>)
    ensures r.None? <==> forall i :: 0 <= i < |collection| ==> !Matches(f, collection[i])
    ensures r.Some? ==> r.value < |collection| && Matches(f, collection[r.value])
                        && forall i :: 0 <= i < r.value ==> !Matches(f, collection[i])
  {
    if collection == [] then None
    else if Matches(f, collection[0]) then Some(0)
    else
      var r := FirstMatch(collection[1..], f);
      assert forall i :: 1 <= i < |collection| ==> collection[i] == collection[1..][i - 1];
      if r.Some? then Some(r.value + 1) else None
  }

  /** `delete_one`: remove the first matching document, if any. */
  function RemoveFirst(collection: seq<ConvDoc>, f: IdFilter): (o: DeleteOutcome)
    ensures o.deleted <==> exists i :: 0 <= i < |collection| && Matches(f, collection[i])
    ensures o.deleted ==> |o.collection| == |collection| - 1
    ensures !o.deleted ==> o.collection == collection
  {
    match FirstMatch(collection, f)
    case None => DeleteOutcome(collection, false)
    case Some(i) => DeleteOutcome(collection[..i] + collection[i + 1..], true)
  }

  /** Removing a document keeps the ids unique and below the next id. */
  lemma DeleteKeepsIdsFresh(collection: seq<ConvDoc>, nextOid: nat, f: IdFilter)
    requires IdsFresh(collection, nextOid)
    ensures IdsFresh(RemoveFirst(collection, f).collection, nextOid)
  {
    var m := FirstMatch(collection, f);
    if m.Some? {
      RemoveAtKeepsIdsFresh(collection, nextOid, m.value);
    }
  }

  lemma RemoveAtKeepsIdsFresh(collection: seq<ConvDoc>, nextOid: nat, i: nat)
    requires IdsFresh(collection, nextOid) && i < |collection|
    ensures IdsFresh(collection[..i] + collection[i + 1..], nextOid)
  {
    var rest := collection[..i] + collection[i + 1..];
    assert forall k :: 0 <= k < |rest| ==> rest[k] == collection[if k < i then k else k + 1];
  }

  /** `delete_one({"_id": conversation_id})` as written: the string is compared
      with the stored `_id` itself. */
  function DeletedAsWritten(collection: seq<ConvDoc>, conversationId: string): DeleteOutcome
  {
    RemoveFirst(collection, IdIs(StrId(conversationId)))
  }

  /** The id a save returns does not delete that conversation: its `_id` is an
      ObjectId and never equals the string. */
  lemma SavedIdIsNotDeletable(collection: seq<ConvDoc>, nextOid: nat, s: Saving)
    requires forall i :: 0 <= i < |collection| ==> collection[i].id.ObjectId?
    ensures var o := Saved(collection, nextOid, s);
            DeletedAsWritten(o.collection, o.id) == DeleteOutcome(o.collection, false)
  {
    var o := Saved(collection, nextOid, s);
    assert forall i :: 0 <= i < |o.collection| ==> o.collection[i].id.ObjectId?;
  }

  /** Deleting by id as the returned ids are written: the first document whose
      `_id` has that text. */
  function DeletedById(collection: seq<ConvDoc>, conversationId: string): DeleteOutcome
  {
    RemoveFirst(collection, IdTextIs(conversationId))
  }

  /** Among ObjectIds that are unique, deleting by an id's text removes that
      conversation and leaves none with the same id. */
  lemma DeleteByUniqueId(c: seq<ConvDoc>, id: string)
    requires forall i :: 0 <= i < |c| ==> c[i].id.ObjectId?
    requires forall i, j :: 0 <= i < j < |c| ==> c[i].id != c[j].id
    requires exists k :: 0 <= k < |c| && IdText(c[k].id) == id
    ensures var d := DeletedById(c, id);
            && d.deleted && |d.collection| == |c| - 1
            && forall j :: 0 <= j < |d.collection| ==> IdText(d.collection[j].id) != id
  {
    var i := FirstMatch(c, IdTextIs(id)).value;
    forall j | 0 <= j < |c| && j != i
      ensures !Matches(IdTextIs(id), c[j])
    {
      DistinctIdTexts(c, i, j);
    }
    RemoveOnlyMatch(c, IdTextIs(id));
  }

  /** When the first match is the only one, removing it leaves no match. */
  lemma RemoveOnlyMatch(c: seq<ConvDoc>, f: IdFilter)
    requires FirstMatch(c, f).Some?
    requires forall j :: 0 <= j < |c| && j != FirstMatch(c, f).value ==> !Matches(f, c[j])
    ensures var d := RemoveFirst(c, f);
            && d.deleted && |d.collection| == |c| - 1
            && forall j :: 0 <= j < |d.collection| ==> !Matches(f, d.collection[j])
  {
    var i := FirstMatch(c, f).value;
    var rest := c[..i] + c[i + 1..];
    assert RemoveFirst(c, f).collection == rest;
    forall j | 0 <= j < |rest|
      ensures !Matches(f, rest[j])
    {
      assert rest[j] == c[if j < i then j else j + 1];
    }
  }

  /** Distinct ObjectIds have distinct texts. */
  lemma DistinctIdTexts(c: seq<ConvDoc>, i: nat, k: nat)
    requires i < |c| && k < |c| && i != k
    requires c[i].id.ObjectId? && c[k].id.ObjectId? && c[i].id != c[k].id
    ensures IdText(c[i].id) != IdText(c[k].id)
  {
    OidTextInjective(c[i].id.n, c[k].id.n);
  }

  /** The id a save returns deletes one conversation, and when ids are unique
      none with that id is left. */
  lemma SavedIdIsDeletable(collection: seq<ConvDoc>, nextOid: nat, s: Saving)
    requires IdsFresh(collection, nextOid)
    requires forall i :: 0 <= i < |collection| ==> collection[i].id.ObjectId?
    ensures var o := Saved(collection, nextOid, s);
            var d := DeletedById(o.collection, o.id);
            && d.deleted && |d.collection| == |o.collection| - 1
            && forall j :: 0 <= j < |d.collection| ==> IdText(d.collection[j].id) != o.id
  {
    var o := Saved(collection, nextOid, s);
    SaveTouchesOne(collection, nextOid, s);
    SaveKeepsInvariants(collection, nextOid, s);
    assert forall i :: 0 <= i < |o.collection| ==> o.collection[i].id.ObjectId?;
    DeleteByUniqueId(o.collection, o.id);
  }
}
