/** The screening assistant page, pages/ScreeningCopilot.tsx: a search guard, and the save
    dialog that extracts the distinct source links and a one-sentence business summary from
    the assistant's answer and saves the entity, with an enriched address, as a customer or a
    restricted party. The assistant's answer (text and grounding sources) is an input. */
module Copilot {
  import opened Types
  import opened Seqs
  import opened Strings
  import opened Collections
  import opened DataContext

  /** A grounding source: its `web.uri`, or "" when it has none. */
  datatype Chunk = Chunk(uri: string)

  /** What `searchEntity` gave: the answer text ("" when missing) and the grounding sources
      (`None` when the answer carries no grounding metadata), or an exception. */
  datatype SearchResponse = Answered(text: string, grounding: Option<seq<Chunk>>) | Failed

  datatype SaveCategory = SaveCustomer | SaveRpl

  const NoInformation := "No information found."
  const FetchFailed := "Failed to fetch information. Please check your API Key or internet connection."
  /** Longest summary kept before the ellipsis. */
  const SummaryLimit := 150

  // ---------------------------------------------------------------------------
  // Links

  /** The links pushed by the `forEach`: each source's uri, when it has one, in order. */
  function ChunkUris(chunks: seq<Chunk>): (r: seq<string>)
    ensures forall x :: x in r ==> x != ""
  {
    if chunks == [] then []
    else
      var last := chunks[|chunks| - 1];
      ChunkUris(chunks[..|chunks| - 1]) + (if last.uri != "" then [last.uri] else [])
  }

  lemma {:induction false} ChunkUrisFrom(chunks: seq<Chunk>)
    ensures forall x :: x in ChunkUris(chunks) <==> x != "" && exists i :: 0 <= i < |chunks| && chunks[i].uri == x
  {
    if chunks != [] {
      var init := chunks[..|chunks| - 1];
      ChunkUrisFrom(init);
      assert forall i :: 0 <= i < |init| ==> init[i] == chunks[i];
    }
  }

  /** The loop of `openSaveModal` over the grounding sources. */
  method CollectLinks(chunks: seq<Chunk>) returns (links: seq<string>)
    ensures links == ChunkUris(chunks)
  {
    links := [];
    var i := 0;
    while i < |chunks|
      invariant 0 <= i <= |chunks|
      invariant links == ChunkUris(chunks[..i])
    {
      assert chunks[..i + 1][..i] == chunks[..i];
      if chunks[i].uri != "" {
        links := links + [chunks[i].uri];
      }
      i := i + 1;
    }
    assert chunks[..|chunks|] == chunks;
  }

  predicate Distinct(s: seq<string>)
  {
    forall i, j :: 0 <= i < j < |s| ==> s[i] != s[j]
  }

  /** `Array.from(new Set(links))`: every link once, at its first occurrence. */
  function Unique(s: seq<string>): (r: seq<string>)
    ensures forall x :: x in r <==> x in s
    ensures Distinct(r)
    ensures IsSubsequence(r, s)
    ensures s != [] ==> r != [] && r[0] == s[0]
    ensures forall i, j :: 0 <= i < j < |r| ==> FirstIndex(s, r[i]) < FirstIndex(s, r[j])
    decreases |s|
  {
    if s == [] then []
    else
      var keep := (x: string) => x != s[0];
      var u := Unique(Filter(s[1..], keep));
      UniqueStep(s, keep, u, [s[0]] + u);
      UniqueStepOrder(s, keep, u, [s[0]] + u);
      [s[0]] + u
  }

  /** One step of `Unique`: the first link followed by the distinct links of the rest with
      every copy of it removed is the distinct links of the whole. */
  lemma UniqueStep(s: seq<string>, keep: string -> bool, u: seq<string>, r: seq<string>)
    requires s != [] && r == [s[0]] + u
    requires forall x :: keep(x) == (x != s[0])
    requires forall x :: x in u <==> x in Filter(s[1..], keep)
    requires Distinct(u) && IsSubsequence(u, Filter(s[1..], keep))
    ensures forall x :: x in r <==> x in s
    ensures Distinct(r) && IsSubsequence(r, s) && r[0] == s[0]
  {
    SubsequenceTransitive(u, Filter(s[1..], keep), s[1..]);
    assert r[1..] == u;
    forall j | 0 < j < |r|
      ensures r[j] == u[j - 1] && r[j] != s[0]
    {
      assert u[j - 1] in u;
    }
  }

  /** ... and it lists the links in the order of their first occurrence. */
  lemma UniqueStepOrder(s: seq<string>, keep: string -> bool, u: seq<string>, r: seq<string>)
    requires s != [] && r == [s[0]] + u
    requires forall x :: x in u ==> x in Filter(s[1..], keep) && x != s[0]
    requires forall i, j :: 0 <= i < j < |u| ==> FirstIndex(Filter(s[1..], keep), u[i]) < FirstIndex(Filter(s[1..], keep), u[j])
    requires forall x :: x in r ==> x in s
    ensures forall i, j :: 0 <= i < j < |r| ==> FirstIndex(s, r[i]) < FirstIndex(s, r[j])
  {
    forall i, j | 0 <= i < j < |r|
      ensures FirstIndex(s, r[i]) < FirstIndex(s, r[j])
    {
      assert r[j] == u[j - 1] && r[j] in u;
      if i == 0 {
        FirstIndexAfterHead(s, r[j]);
      } else {
        assert r[i] == u[i - 1] && r[i] in u;
        PairOrder(s, keep, r[i], r[j]);
      }
    }
  }

  lemma PairOrder(s: seq<string>, keep: string -> bool, a: string, b: string)
    requires s != [] && a != s[0] && b != s[0]
    requires a in Filter(s[1..], keep) && b in Filter(s[1..], keep)
    requires FirstIndex(Filter(s[1..], keep), a) < FirstIndex(Filter(s[1..], keep), b)
    ensures FirstIndex(s, a) < FirstIndex(s, b)
  {
    FilterKeepsFirstOrder(s[1..], keep, a, b);
    FirstIndexAfterHead(s, a);
    FirstIndexAfterHead(s, b);
  }

  lemma FirstIndexAfterHead(s: seq<string>, x: string)
    requires s != [] && x in s[1..] && x != s[0]
    ensures FirstIndex(s, x) == 1 + FirstIndex(s[1..], x)
  {
  }

  /** Links that are already distinct are kept as they are. */
  lemma {:induction false} UniqueOfDistinct(s: seq<string>)
    requires Distinct(s)
    ensures Unique(s) == s
    decreases |s|
  {
    if s != [] {
      var keep := (x: string) => x != s[0];
      forall x | x in s[1..]
        ensures keep(x)
      {
        var j :| 0 <= j < |s[1..]| && s[1..][j] == x;
        assert s[j + 1] == x;
      }
      FilterKeepsAll(s[1..], keep);
      assert Distinct(s[1..]) by {
        forall i, j | 0 <= i < j < |s[1..]|
          ensures s[1..][i] != s[1..][j]
        {
          assert s[i + 1] != s[j + 1];
        }
      }
      UniqueOfDistinct(s[1..]);
    }
  }

  // ---------------------------------------------------------------------------
  // Summary

  /** A sentence that reads like a description of the business. */
  predicate Describes(sentence: string)
  {
    Contains(Lower(sentence), "is a") || Contains(Lower(sentence), "specializes")
  }

  /** `sentences.find(...)`, as a position. */
  function FindDescribing(sentences: seq<string>): (r: Option<nat>)
    ensures r.Some? ==> r.value < |sentences| && Describes(sentences[r.value])
    ensures r.Some? ==> forall j :: 0 <= j < r.value ==> !Describes(sentences[j])
    ensures r.None? ==> forall j :: 0 <= j < |sentences| ==> !Describes(sentences[j])
  {
    if sentences == [] then None
    else if Describes(sentences[0]) then Some(0)
    else
      var rest := FindDescribing(sentences[1..]);
      if rest.None? then None else Some(rest.value + 1)
  }

  /** The chosen sentence: the first that describes, else the first one. */
  function Candidate(sentences: seq<string>): (r: string)
    requires |sentences| >= 1
    ensures r in sentences
    ensures Describes(r) <==> exists j :: 0 <= j < |sentences| && Describes(sentences[j])
  {
    match FindDescribing(sentences)
    case Some(i) => sentences[i]
    case None => sentences[0]
  }

  /** `candidate.substring(0, 150) + (candidate.length > 150 ? '...' : '')` */
  function Truncate(candidate: string): (r: string)
    ensures |r| <= SummaryLimit + 3
    ensures |candidate| <= SummaryLimit ==> r == candidate
    ensures |candidate| > SummaryLimit ==> |r| == SummaryLimit + 3 && r[..SummaryLimit] == candidate[..SummaryLimit] && r[SummaryLimit..] == "..."
  {
    if |candidate| <= SummaryLimit then candidate else candidate[..SummaryLimit] + "..."
  }

  /** The markdown markers stripped from the answer. */
  const Markdown := {'#', '*', '`'}

  /** The summary proposed for an answer (`None`: no answer yet). */
  function Summary(result: Option<string>): (r: string)
    ensures |r| <= SummaryLimit + 3
  {
    var plainText := RemoveChars(if result.Some? then result.value else "", Markdown);
    Truncate(Candidate(Split(plainText, ". ")))
  }

  /** The summary never holds a markdown marker: they are stripped before splitting, and the
      ellipsis holds none. */
  lemma SummaryHasNoMarkdown(result: Option<string>)
    ensures forall c :: c in Summary(result) ==> c !in Markdown
  {
    var plainText := RemoveChars(if result.Some? then result.value else "", Markdown);
    var sentences := Split(plainText, ". ");
    SplitChars(plainText, ". ");
    var candidate := Candidate(sentences);
    assert forall c :: c in candidate ==> c in plainText;
    if |candidate| > SummaryLimit {
      var r := Truncate(candidate);
      assert r == candidate[..SummaryLimit] + "...";
      assert forall c :: c in candidate[..SummaryLimit] ==> c in candidate;
    }
  }

  /** A short first sentence without a description is taken whole. */
  lemma ShortPlainAnswerIsItsOwnSummary(text: string)
    requires |text| <= SummaryLimit
    requires forall c :: c in text ==> c !in Markdown
    requires !Contains(text, ". ") && !Describes(text)
    ensures Summary(Some(text)) == text
  {
    RemoveNothing(text, Markdown);
    SplitWithoutSeparator(text, ". ");
  }

  lemma {:induction false} RemoveNothing(s: string, drop: set<char>)
    requires forall c :: c in s ==> c !in drop
    ensures RemoveChars(s, drop) == s
  {
    if s != [] {
      assert s[0] in s;
      assert forall c :: c in s[1..] ==> c in s;
      RemoveNothing(s[1..], drop);
      assert s == [s[0]] + s[1..];
    }
  }

  lemma {:induction false} SplitWithoutSeparator(s: string, sep: string)
    requires sep != [] && !Contains(s, sep)
    ensures Split(s, sep) == [s]
    decreases |s|
  {
    if |s| >= |sep| {
      assert !StartsWith(s, sep);
      SplitWithoutSeparator(s[1..], sep);
      assert s == [s[0]] + s[1..];
    }
  }

  // ---------------------------------------------------------------------------
  // Saving

  /** `${address} \nWebsite: ${selectedLink || 'N/A'} \nBusiness: ${businessSummary}` */
  function EnrichedAddress(address: string, link: string, summary: string): (r: string)
  {
    address + " \nWebsite: " + (if link != "" then link else "N/A") + " \nBusiness: " + summary
  }

  /** The enriched address opens with the typed address, names the link (or N/A) right after
      the website label, and ends with the summary. */
  lemma EnrichedAddressParts(address: string, link: string, summary: string)
    ensures var r := EnrichedAddress(address, link, summary);
      var shown := if link != "" then link else "N/A";
      && StartsWith(r, address + " \nWebsite: ")
      && OccursAt(r, shown, |address| + 11)
      && |r| >= |summary| && r[|r| - |summary|..] == summary
  {
    var shown := if link != "" then link else "N/A";
    var r := EnrichedAddress(address, link, summary);
    OccursBetween(address + " \nWebsite: ", shown, " \nBusiness: " + summary);
    assert r == (address + " \nWebsite: ") + shown + (" \nBusiness: " + summary);
    assert r == (address + " \nWebsite: " + shown + " \nBusiness: ") + summary;
  }

  /** The record saved from the dialog. */
  function SavedEntity(newId: string, name: string, address: string, link: string, summary: string): (e: Entity)
    ensures e.id == newId && e.name == name && e.website == link && e.businessSummary == summary
    ensures e.address == EnrichedAddress(address, link, summary)
  {
    Entity(newId, name, EnrichedAddress(address, link, summary), link, summary, "")
  }

  function TargetList(c: SaveCategory): EntityList
  {
    match c
    case SaveCustomer => CustomerList
    case SaveRpl => RplList
  }

  class CopilotPage {
    const provider: Provider
    var name: string
    var address: string
    var loading: bool
    var result: Option<string>
    var grounding: Option<seq<Chunk>>
    var error: Option<string>
    var isSaveModalOpen: bool
    /** 1: choose customer or RPL; 2: confirm the details. */
    var saveStep: nat
    var saveCategory: Option<SaveCategory>
    var availableLinks: seq<string>
    var selectedLink: string
    var businessSummary: string

    constructor (provider: Provider)
      ensures this.provider == provider
      ensures name == "" && address == "" && !loading && result == None && grounding == None && error == None
      ensures !isSaveModalOpen && saveStep == 1 && saveCategory == None
      ensures availableLinks == [] && selectedLink == "" && businessSummary == ""
    {
      this.provider := provider;
      name, address := "", "";
      loading := false;
      result, grounding, error := None, None, None;
      isSaveModalOpen := false;
      saveStep := 1;
      saveCategory := None;
      availableLinks, selectedLink, businessSummary := [], "", "";
    }

    /** `handleSearch` once the assistant has answered: nothing happens unless both name and
        address are filled in; an answer replaces result and sources, a failure leaves them
        empty and sets the error. */
    method HandleSearch(response: SearchResponse)
      modifies this
      ensures old(name) == "" || old(address) == "" ==> unchanged(this)
      ensures old(name) != "" && old(address) != "" ==>
        && !loading
        && (response.Answered? ==>
              && result == Some(if response.text != "" then response.text else NoInformation)
              && grounding == response.grounding && error == None)
        && (response.Failed? ==> result == None && grounding == None && error == Some(FetchFailed))
      ensures name == old(name) && address == old(address)
      ensures isSaveModalOpen == old(isSaveModalOpen) && saveCategory == old(saveCategory)
    {
      if name == "" || address == "" {
        return;
      }
      loading := true;
      error, result, grounding := None, None, None;
      match response {
        case Answered(text, g) =>
          result := Some(if text != "" then text else NoInformation);
          grounding := g;
        case Failed =>
          error := Some(FetchFailed);
      }
      loading := false;
    }

    /** `handleClear` */
    method HandleClear()
      modifies this
      ensures name == "" && address == "" && result == None && grounding == None && error == None
      ensures !isSaveModalOpen
      ensures saveCategory == old(saveCategory) && selectedLink == old(selectedLink) && businessSummary == old(businessSummary)
    {
      name, address := "", "";
      result, grounding, error := None, None, None;
      isSaveModalOpen := false;
    }

    /** `openSaveModal`: the distinct links of the sources, the first one preselected (or none),
        the proposed summary, and the dialog opened at its first step. */
    method OpenSaveModal()
      modifies this
      ensures var links := ChunkUris(if old(grounding).Some? then old(grounding).value else []);
        && availableLinks == Unique(links)
        && selectedLink == (if links != [] then links[0] else "")
      ensures businessSummary == Summary(old(result))
      ensures saveCategory == None && saveStep == 1 && isSaveModalOpen
      ensures name == old(name) && address == old(address) && result == old(result) && grounding == old(grounding)
    {
      var links := CollectLinks(if grounding.Some? then grounding.value else []);
      var uniqueLinks := Unique(links);
      availableLinks := uniqueLinks;
      selectedLink := if |uniqueLinks| > 0 then uniqueLinks[0] else "";
      businessSummary := Summary(result);
      saveCategory := None;
      saveStep := 1;
      isSaveModalOpen := true;
    }

    /** The dialog's first step: choosing customer or RPL moves on to the confirmation. */
    method ChooseCategory(c: SaveCategory)
      modifies this
      ensures saveCategory == Some(c) && saveStep == 2
      ensures isSaveModalOpen == old(isSaveModalOpen) && selectedLink == old(selectedLink) && businessSummary == old(businessSummary)
      ensures name == old(name) && address == old(address)
    {
      saveCategory := Some(c);
      saveStep := 2;
    }

    /** `handleConfirmSave` with the generated id `newId`: without a category nothing happens;
        otherwise the entity is appended to the chosen list and the dialog closes. */
    method HandleConfirmSave(newId: string)
      requires provider.Valid()
      modifies this, provider
      ensures provider.Valid()
      ensures old(saveCategory) == None ==> unchanged(this) && unchanged(provider)
      ensures old(saveCategory).Some? ==>
        && provider.EntityCommitted(TargetList(old(saveCategory).value),
             Append(old(provider.Snapshot().Entities(TargetList(saveCategory.value))),
                    SavedEntity(newId, old(name), old(address), old(selectedLink), old(businessSummary))))
        && !isSaveModalOpen
      ensures old(saveCategory).Some? ==>
        && name == old(name) && address == old(address) && loading == old(loading)
        && result == old(result) && grounding == old(grounding) && error == old(error)
        && saveStep == old(saveStep) && saveCategory == old(saveCategory)
        && availableLinks == old(availableLinks) && selectedLink == old(selectedLink)
        && businessSummary == old(businessSummary)
    {
      if saveCategory.None? {
        return;
      }
      var entityData := SavedEntity(newId, name, address, selectedLink, businessSummary);
      match saveCategory.value {
        case SaveCustomer =>
          provider.AddEntity(CustomerList, entityData);
        case SaveRpl =>
          provider.AddEntity(RplList, entityData);
      }
      isSaveModalOpen := false;
    }
  }
}
