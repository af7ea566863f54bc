/** The open buffers and the generation counter that identifies their state. */
module Documents {
  import opened Prelude
  import opened Paths

  datatype Document = Document(text: string, version: Option<int>)

  type Buffers = map<Url, Document>

  /** The value of the whole buffer store. */
  datatype Store = Store(documents: Buffers, generation: nat)

  datatype Edit =
    | Opened(url: Url, text: string, version: Option<int>)
    | Changed(url: Url, text: string, version: Option<int>)
    | Closed(url: Url)

  /** The buffers an analysis sees: those whose URL names a file, and their generation. */
  datatype Capture = Capture(generation: nat, buffers: Buffers)

  const EMPTY := Store(map[], 0)

  function FileBuffers(documents: Buffers): Buffers {
    map url | url in documents && url.FileUrl? :: documents[url]
  }

  function CaptureOf(store: Store): Capture {
    Capture(store.generation, FileBuffers(store.documents))
  }

  /** Whether the edit touches the store: a change or close of an unopened URL is ignored. */
  predicate Effective(store: Store, edit: Edit) {
    edit.Opened? || edit.url in store.documents
  }

  function Apply(store: Store, edit: Edit): Store {
    if !Effective(store, edit) then store
    else Store(
      match edit {
        case Closed(url) => store.documents - {url}
        case _ => store.documents[edit.url := Document(edit.text, edit.version)]
      },
      store.generation + 1)
  }

  function ApplyAll(store: Store, edits: seq<Edit>): Store
    decreases |edits|
  {
    if edits == [] then store else ApplyAll(Apply(store, edits[0]), edits[1..])
  }

  lemma {:induction false} ApplyAllSplits(store: Store, first: seq<Edit>, second: seq<Edit>)
    ensures ApplyAll(store, first + second) == ApplyAll(ApplyAll(store, first), second)
    decreases |first|
  {
    if first == [] {
      assert first + second == second;
    } else {
      assert (first + second)[1..] == first[1..] + second;
      ApplyAllSplits(Apply(store, first[0]), first[1..], second);
    }
  }

  lemma {:induction false} GenerationGrows(store: Store, edits: seq<Edit>)
    ensures store.generation <= ApplyAll(store, edits).generation
    ensures store.generation == ApplyAll(store, edits).generation ==> ApplyAll(store, edits) == store
    decreases |edits|
  {
    if edits != [] {
      GenerationGrows(Apply(store, edits[0]), edits[1..]);
    }
  }

  lemma OneMoreEdit(edits: seq<Edit>)
    requires edits != []
    ensures ApplyAll(EMPTY, edits) == Apply(ApplyAll(EMPTY, edits[..|edits| - 1]), edits[|edits| - 1])
  {
    var before, last := edits[..|edits| - 1], [edits[|edits| - 1]];
    assert edits == before + last;
    ApplyAllSplits(EMPTY, before, last);
    assert ApplyAll(ApplyAll(EMPTY, before), last) == ApplyAll(Apply(ApplyAll(EMPTY, before), last[0]), last[1..]);
  }

  /** Edit `i` opens the URL, and no later one closes it. */
  predicate StaysOpen(edits: seq<Edit>, i: nat, url: Url) {
    && i < |edits| && edits[i].Opened? && edits[i].url == url
    && forall j :: i < j < |edits| ==> edits[j] != Closed(url)
  }

  /** Edit `i` is the last that speaks of the URL. */
  predicate LastOf(edits: seq<Edit>, i: nat, url: Url) {
    i < |edits| && edits[i].url == url && forall j :: i < j < |edits| ==> edits[j].url != url
  }

  lemma OpenOneEditLonger(edits: seq<Edit>, i: nat, url: Url)
    requires i + 1 < |edits|
    ensures StaysOpen(edits, i, url) <==> StaysOpen(edits[..|edits| - 1], i, url) && edits[|edits| - 1] != Closed(url)
  {
    var n := |edits| - 1;
    if StaysOpen(edits[..n], i, url) && edits[n] != Closed(url) {
      forall j | i < j < |edits|
        ensures edits[j] != Closed(url)
      {
        assert j < n ==> edits[..n][j] == edits[j];
      }
    }
  }

  lemma LastOneEditLonger(edits: seq<Edit>, i: nat, url: Url)
    requires i + 1 < |edits| && LastOf(edits, i, url)
    ensures LastOf(edits[..|edits| - 1], i, url) && edits[|edits| - 1].url != url
  {
  }

  /** A buffer is open exactly if an edit opened it that no later one closed. */
  lemma {:induction false} OpenBuffersIff(edits: seq<Edit>, url: Url)
    ensures url in ApplyAll(EMPTY, edits).documents <==> exists i: nat :: StaysOpen(edits, i, url)
    decreases |edits|
  {
    if edits != [] {
      var n := |edits| - 1;
      OpenBuffersIff(edits[..n], url);
      OneMoreEdit(edits);
      if i: nat :| StaysOpen(edits[..n], i, url) && edits[n] != Closed(url) {
        OpenOneEditLonger(edits, i, url);
      }
      if i: nat :| StaysOpen(edits, i, url) && i < n {
        OpenOneEditLonger(edits, i, url);
      }
      if edits[n].Opened? && edits[n].url == url {
        assert StaysOpen(edits, n, url);
      }
    }
  }

  /** And it holds the text and version of the last edit that spoke of it. */
  lemma {:induction false} StoreHoldsTheLastEdit(edits: seq<Edit>, i: nat, url: Url)
    requires url in ApplyAll(EMPTY, edits).documents && LastOf(edits, i, url)
    ensures !edits[i].Closed? && ApplyAll(EMPTY, edits).documents[url] == Document(edits[i].text, edits[i].version)
    decreases |edits|
  {
    OneMoreEdit(edits);
    if i + 1 < |edits| {
      LastOneEditLonger(edits, i, url);
      StoreHoldsTheLastEdit(edits[..|edits| - 1], i, url);
    }
  }

  /** An equal generation at two moments of one editing history means equal buffers: the
      O(1) freshness compare is as good as comparing every buffer. */
  lemma GenerationIdentifiesBuffers(edits: seq<Edit>, i: nat, j: nat)
    requires i <= |edits| && j <= |edits|
    requires ApplyAll(EMPTY, edits[..i]).generation == ApplyAll(EMPTY, edits[..j]).generation
    ensures ApplyAll(EMPTY, edits[..i]) == ApplyAll(EMPTY, edits[..j])
  {
    var lo, hi := if i <= j then i else j, if i <= j then j else i;
    assert edits[..hi] == edits[..lo] + edits[lo..hi];
    ApplyAllSplits(EMPTY, edits[..lo], edits[lo..hi]);
    GenerationGrows(ApplyAll(EMPTY, edits[..lo]), edits[lo..hi]);
  }

  class Documents {
    var documents: Buffers
    var generation: nat
    /** The buffers at each generation so far. */
    ghost var log: seq<Buffers>

    ghost function View(): Store
      reads this
    {
      Store(documents, generation)
    }

    ghost predicate Valid()
      reads this
    {
      |log| == generation + 1 && log[generation] == documents
    }

    /** The capture was taken from this store, now or at some moment before. */
    ghost predicate Took(capture: Capture)
      reads this
    {
      capture.generation < |log| && capture.buffers == FileBuffers(log[capture.generation])
    }

    constructor ()
      ensures View() == EMPTY && Valid()
    {
      documents := map[];
      generation := 0;
      log := [map[]];
    }

    method OpenWithVersion(url: Url, text: string, version: Option<int>)
      requires Valid()
      modifies this
      ensures View() == Apply(old(View()), Opened(url, text, version))
      ensures Valid() && old(log) <= log
    {
      documents := documents[url := Document(text, version)];
      generation := generation + 1;
      log := log + [documents];
    }

    method ChangeWithVersion(url: Url, text: string, version: Option<int>)
      requires Valid()
      modifies this
      ensures View() == Apply(old(View()), Changed(url, text, version))
      ensures Valid() && old(log) <= log
    {
      if url in documents {
        documents := documents[url := Document(text, version)];
        generation := generation + 1;
        log := log + [documents];
      }
    }

    method Close(url: Url)
      requires Valid()
      modifies this
      ensures View() == Apply(old(View()), Closed(url))
      ensures Valid() && old(log) <= log
    {
      if url in documents {
        documents := documents - {url};
        generation := generation + 1;
        log := log + [documents];
      }
    }

    method AnalysisSnapshot() returns (capture: Capture)
      requires Valid()
      ensures capture == CaptureOf(View()) && Took(capture)
    {
      capture := Capture(generation, map url | url in documents && url.FileUrl? :: documents[url]);
    }

    /** A capture that matches is what capturing now would give; one that does not was taken before
        an edit that has taken effect since. */
    method MatchesGeneration(capture: Capture) returns (same: bool)
      requires Valid() && Took(capture)
      ensures same ==> capture == CaptureOf(View())
      ensures !same ==> capture.generation < generation
    {
      same := generation == capture.generation;
    }
  }
}
