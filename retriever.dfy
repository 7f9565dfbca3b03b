/** The document store behind the vector search (`RegulatoryRetriever`): the
    texts and source names of the loaded documents in two parallel lists,
    the loop that turns the nearest-neighbour answer of the index into
    search results, and the lookup of a document by its source. The
    embedding model and the FAISS index are not modelled: the index's answer
    is a parameter of the search. */
module Retriever {
  import opened Common

  /** A loaded regulatory document. */
  datatype Document = Document(source: string, text: string)

  /** One search result: the source, the text cut to its first 1000
      characters, the distance reported by the index, and the whole text. */
  datatype SearchResult = SearchResult(source: string, text: string, score: real, fullText: string)

  const PreviewLength: nat := 1000

  /** `text[:1000]`. */
  function Preview(text: string): (p: string)
    ensures |p| <= |text| && |p| <= PreviewLength && p == text[..|p|]
    ensures |text| <= PreviewLength ==> p == text
    ensures |text| > PreviewLength ==> |p| == PreviewLength
  {
    if |text| <= PreviewLength then text else text[..PreviewLength]
  }

  /** `[doc["text"] for doc in documents]`. */
  function TextsOf(documents: seq<Document>): (texts: seq<string>)
    ensures |texts| == |documents| && forall i :: 0 <= i < |documents| ==> texts[i] == documents[i].text
  {
    seq(|documents|, i requires 0 <= i < |documents| => documents[i].text)
  }

  /** `[doc["source"] for doc in documents]`. */
  function SourcesOf(documents: seq<Document>): (sources: seq<string>)
    ensures |sources| == |documents| && forall i :: 0 <= i < |documents| ==> sources[i] == documents[i].source
  {
    seq(|documents|, i requires 0 <= i < |documents| => documents[i].source)
  }

  /** Python list indexing: a negative index counts from the end; None is
      the IndexError of an index out of range either way. */
  function PyIndex(length: nat, idx: int): (i: Option<nat>)
    ensures i.Some? <==> -(length as int) <= idx < length
    ensures i.Some? ==> i.value < length && (idx >= 0 ==> i.value == idx) && (idx < 0 ==> i.value == length + idx)
  {
    if 0 <= idx < length then Some(idx)
    else if -(length as int) <= idx < 0 then Some(length + idx)
    else None
  }

  const IndexErrorText: string := "list index out of range"

  /** The result built for the document at a position of the lists. */
  function HitAt(texts: seq<string>, sources: seq<string>, i: nat, distance: real): SearchResult
    requires i < |texts| && i < |sources|
  {
    SearchResult(sources[i], Preview(texts[i]), distance, texts[i])
  }

  /** The result loop of `search` over the index's `(idx, distance)` pairs:
      a pair passes when `idx < len(documents)`, and its result reads both
      lists at `idx`, which raises IndexError when that index is out of their
      range. */
  function SearchResults(texts: seq<string>, sources: seq<string>, count: nat, neighbours: seq<(int, real)>): Result<seq<SearchResult>, string>
    requires |texts| == |sources|
  {
    if neighbours == [] then Success([])
    else
      match SearchResults(texts, sources, count, neighbours[..|neighbours| - 1])
      case Failure(e) => Failure(e)
      case Success(front) =>
        var (idx, distance) := neighbours[|neighbours| - 1];
        if idx >= count then Success(front)
        else
          match PyIndex(|sources|, idx)
          case None => Failure(IndexErrorText)
          case Some(i) => Success(front + [HitAt(texts, sources, i, distance)])
  }

  class RegulatoryRetriever {
    var documents: seq<Document>
    var texts: seq<string>
    var sources: seq<string>

    /** The two lists are parallel: the i-th text belongs to the i-th
        source. */
    predicate Valid()
      reads this
    {
      |texts| == |sources|
    }

    /** The lists describe the documents the retriever was given (and not
        those of an earlier run's cache). */
    predicate Current()
      reads this
    {
      texts == TextsOf(documents) && sources == SourcesOf(documents)
    }

    /** `__init__`: the lists come from the cache file when there is one,
        written by an earlier run from the documents it had, and otherwise
        from the documents. */
    constructor (documents: seq<Document>, cachedFrom: Option<seq<Document>>)
      ensures Valid() && this.documents == documents
      ensures cachedFrom.None? ==> Current()
      ensures cachedFrom.Some? ==> texts == TextsOf(cachedFrom.value) && sources == SourcesOf(cachedFrom.value)
    {
      this.documents := documents;
      var listed := if cachedFrom.Some? then cachedFrom.value else documents;
      texts := TextsOf(listed);
      sources := SourcesOf(listed);
    }

    /** `search`, from the pairs the index returned. */
    method Search(neighbours: seq<(int, real)>) returns (result: Result<seq<SearchResult>, string>)
      requires Valid()
      ensures result == SearchResults(texts, sources, |documents|, neighbours)
    {
      var results: seq<SearchResult> := [];
      var k := 0;
      while k < |neighbours|
        invariant 0 <= k <= |neighbours|
        invariant SearchResults(texts, sources, |documents|, neighbours[..k]) == Success(results)
      {
        assert neighbours[..k + 1][..k] == neighbours[..k];
        var (idx, distance) := neighbours[k];
        if idx < |documents| {
          var i := PyIndex(|sources|, idx);
          if i.None? {
            FailureStops(texts, sources, |documents|, neighbours, k + 1);
            return Failure(IndexErrorText);
          }
          results := results + [HitAt(texts, sources, i.value, distance)];
        }
        k := k + 1;
      }
      assert neighbours[..k] == neighbours;
      return Success(results);
    }

    /** `get_document_by_source`: the first document with that source, or
        None when there is none. */
    method GetDocumentBySource(source: string) returns (doc: Option<Document>)
      requires Valid()
      ensures doc.None? <==> source !in sources
      ensures doc.Some? ==> exists i :: (0 <= i < |sources| && sources[i] == source
        && doc.value == Document(source, texts[i]) && forall j :: 0 <= j < i ==> sources[j] != source)
    {
      var i := 0;
      while i < |sources|
        invariant 0 <= i <= |sources|
        invariant forall j :: 0 <= j < i ==> sources[j] != source
      {
        if sources[i] == source {
          return Some(Document(sources[i], texts[i]));
        }
        i := i + 1;
      }
      return None;
    }
  }

  /** Once a pair raises IndexError, the search ends with that error. */
  lemma {:induction false} FailureStops(texts: seq<string>, sources: seq<string>, count: nat, neighbours: seq<(int, real)>, k: nat)
    requires |texts| == |sources| && k <= |neighbours|
    requires SearchResults(texts, sources, count, neighbours[..k]).Failure?
    ensures SearchResults(texts, sources, count, neighbours) == SearchResults(texts, sources, count, neighbours[..k])
    decreases |neighbours| - k
  {
    if k < |neighbours| {
      assert neighbours[..k + 1][..k] == neighbours[..k];
      FailureStops(texts, sources, count, neighbours, k + 1);
    } else {
      assert neighbours[..k] == neighbours;
    }
  }

  /** The search as written keeps the index's order: an answer split in two
      gives the results of the first part followed by those of the second,
      and fails when either part does. */
  lemma {:induction false} SearchResultsAppend(texts: seq<string>, sources: seq<string>, count: nat,
    a: seq<(int, real)>, b: seq<(int, real)>)
    requires |texts| == |sources|
    ensures SearchResults(texts, sources, count, a + b) ==
      match SearchResults(texts, sources, count, a)
      case Failure(e) => Failure(e)
      case Success(x) =>
        match SearchResults(texts, sources, count, b)
        case Failure(e) => Failure(e)
        case Success(y) => Success(x + y)
    decreases |b|
  {
    if b == [] {
      assert a + b == a;
      if SearchResults(texts, sources, count, a).Success? {
        var x := SearchResults(texts, sources, count, a).value;
        assert x + [] == x;
      }
    } else {
      var init := b[..|b| - 1];
      assert (a + b)[..|a + b| - 1] == a + init;
      assert (a + b)[|a + b| - 1] == b[|b| - 1];
      SearchResultsAppend(texts, sources, count, a, init);
      var (idx, distance) := b[|b| - 1];
      if SearchResults(texts, sources, count, a).Success? && SearchResults(texts, sources, count, init).Success?
        && idx < count && PyIndex(|sources|, idx).Some? {
        var x, y := SearchResults(texts, sources, count, a).value, SearchResults(texts, sources, count, init).value;
        var hit := HitAt(texts, sources, PyIndex(|sources|, idx).value, distance);
        assert (x + y) + [hit] == x + (y + [hit]);
      }
    }
  }

  /** With lists that describe the given documents, the search fails only
      on an index below minus the number of documents. */
  lemma {:induction false} CurrentSearchFailsIff(documents: seq<Document>, neighbours: seq<(int, real)>)
    ensures SearchResults(TextsOf(documents), SourcesOf(documents), |documents|, neighbours).Failure? <==>
      exists k :: 0 <= k < |neighbours| && neighbours[k].0 < -|documents|
  {
    if neighbours != [] {
      var init := neighbours[..|neighbours| - 1];
      CurrentSearchFailsIff(documents, init);
      assert forall k :: 0 <= k < |init| ==> init[k] == neighbours[k];
    }
  }

  /** What the search evidently means to do: keep the pairs whose index
      names a document, and read that document. */
  function IntendedSearch(documents: seq<Document>, neighbours: seq<(int, real)>): seq<SearchResult> {
    if neighbours == [] then []
    else
      var (idx, distance) := neighbours[|neighbours| - 1];
      IntendedSearch(documents, neighbours[..|neighbours| - 1])
      + (if 0 <= idx < |documents| then [HitAt(TextsOf(documents), SourcesOf(documents), idx, distance)] else [])
  }

  /** Every intended result is the document an index pair names, with that
      pair's distance, and every pair naming a document gives one. */
  lemma {:induction false} IntendedSearchSpec(documents: seq<Document>, neighbours: seq<(int, real)>)
    ensures |IntendedSearch(documents, neighbours)| <= |neighbours|
    ensures forall r :: r in IntendedSearch(documents, neighbours) <==>
      exists k :: 0 <= k < |neighbours| && 0 <= neighbours[k].0 < |documents|
        && r == SearchResult(documents[neighbours[k].0].source, Preview(documents[neighbours[k].0].text),
          neighbours[k].1, documents[neighbours[k].0].text)
  {
    if neighbours != [] {
      var init := neighbours[..|neighbours| - 1];
      IntendedSearchSpec(documents, init);
      assert forall k :: 0 <= k < |init| ==> init[k] == neighbours[k];
    }
  }

  /** One pair gives the document it names, with its distance, or nothing. */
  lemma IntendedSearchOne(documents: seq<Document>, idx: int, distance: real)
    ensures IntendedSearch(documents, [(idx, distance)]) ==
      if 0 <= idx < |documents| then [SearchResult(documents[idx].source, Preview(documents[idx].text), distance, documents[idx].text)]
      else []
  {
    assert [(idx, distance)][..0] == [];
  }

  /** The intended search keeps the index's order and multiplicity: the
      results of an answer split in two are those of the first part followed
      by those of the second. With IntendedSearchOne this fixes the results
      pair by pair. */
  lemma {:induction false} IntendedSearchAppend(documents: seq<Document>, a: seq<(int, real)>, b: seq<(int, real)>)
    ensures IntendedSearch(documents, a + b) == IntendedSearch(documents, a) + IntendedSearch(documents, b)
    decreases |b|
  {
    if b == [] {
      assert a + b == a;
    } else {
      var init := b[..|b| - 1];
      assert (a + b)[..|a + b| - 1] == a + init;
      assert (a + b)[|a + b| - 1] == b[|b| - 1];
      IntendedSearchAppend(documents, a, init);
    }
  }

  /** On indices that are not negative the search as written and the
      intended one agree. */
  lemma {:induction false} SearchAgreesOnNaturalIndices(documents: seq<Document>, neighbours: seq<(int, real)>)
    requires forall k :: 0 <= k < |neighbours| ==> neighbours[k].0 >= 0
    ensures SearchResults(TextsOf(documents), SourcesOf(documents), |documents|, neighbours)
      == Success(IntendedSearch(documents, neighbours))
  {
    if neighbours != [] {
      var init := neighbours[..|neighbours| - 1];
      assert forall k :: 0 <= k < |init| ==> init[k] == neighbours[k];
      SearchAgreesOnNaturalIndices(documents, init);
      var (idx, distance) := neighbours[|neighbours| - 1];
      var front := IntendedSearch(documents, init);
      if idx < |documents| {
        assert PyIndex(|documents|, idx) == Some(idx);
        assert IntendedSearch(documents, neighbours) == front + [HitAt(TextsOf(documents), SourcesOf(documents), idx, distance)];
      } else {
        assert neighbours[|neighbours| - 1].0 >= |documents|;
        assert SearchResults(TextsOf(documents), SourcesOf(documents), |documents|, neighbours) == Success(front);
        assert IntendedSearch(documents, neighbours) == front + [];
        assert front + [] == front;
      }
    }
  }

  /** The index pads its answer with the label -1 when asked for more
      neighbours than it holds. The guard `idx < len(documents)` lets -1
      through, and Python reads it as the last document: a result the index
      never returned. */
  lemma PaddingReturnsLastDocument(documents: seq<Document>, distance: real)
    requires documents != []
    ensures var last := documents[|documents| - 1];
      SearchResults(TextsOf(documents), SourcesOf(documents), |documents|, [(-1, distance)])
        == Success([SearchResult(last.source, Preview(last.text), distance, last.text)])
    ensures IntendedSearch(documents, [(-1, distance)]) == []
  {
    var n := |documents|;
    var texts, sources := TextsOf(documents), SourcesOf(documents);
    assert [(-1, distance)][..0] == [];
    assert PyIndex(n, -1) == Some(n - 1);
    var hit := HitAt(texts, sources, n - 1, distance);
    assert hit == SearchResult(sources[n - 1], Preview(texts[n - 1]), distance, texts[n - 1]);
    assert SearchResults(texts, sources, n, [(-1, distance)]) == Success([] + [hit]);
    assert [] + [hit] == [hit];
  }
}
