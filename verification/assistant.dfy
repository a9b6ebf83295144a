/**
 The assistant panel: the query input, the history of answered queries
 (newest first), submitting a query and picking one of the sample queries.
 A submitted answer is handed to the page, which makes its ids the grid's
 restriction.
 */
module Assistant {
  import opened Options
  import opened Seqs
  import opened Text
  import opened Catalog
  import opened Evaluator
  import opened Matcher
  import opened Session
  import Samples

  /** The panel's state: the text in the input box and the answered queries, newest first. */
  datatype Panel = Panel(query: string, history: seq<QueryResult>)

  const InitialPanel: Panel := Panel("", [])

  /**
   How the awaited matcher call ends. The matcher itself never fails, but the
   panel has an error path for a call that rejects, and the model keeps it.
   */
  datatype Outcome = Settles | Rejects

  /** `!query.trim()`: the input holds nothing but whitespace. */
  predicate IsBlank(query: string) {
    |Trim(query)| == 0
  }

  /**
   `handleQuery()`: a blank input does nothing; otherwise the answer is put at
   the head of the history, its ids are handed on and the input is cleared.
   A rejected call leaves the panel as it was and hands nothing on. The second
   component is the argument of `onQueryResults`, when it is called.
   */
  function HandleQuery(p: Panel, outcome: Outcome): (r: (Panel, Option<seq<string>>))
    ensures IsBlank(p.query) || outcome == Rejects ==> r.0 == p && r.1 == None
    ensures !IsBlank(p.query) && outcome == Settles ==>
      && r.0.query == ""
      && |r.0.history| == |p.history| + 1
      && r.0.history[0].query == p.query
      && r.0.history[1..] == p.history
      && r.1 == Some(r.0.history[0].results)
      && |r.1.value| > 0
  {
    if IsBlank(p.query) then (p, None)
    else
      match outcome
      case Rejects => (p, None)
      case Settles =>
        var answer := ProcessAIQuery(p.query);
        (Panel("", [answer] + p.history), Some(answer.results))
  }

  /** Submitting is a no-op exactly when the input is all whitespace (or empty). */
  lemma HandleQueryNoOpIffBlank(p: Panel)
    ensures HandleQuery(p, Settles).0 == p
      <==> forall k :: 0 <= k < |p.query| ==> IsWhitespace(p.query[k])
  {
    TrimEmptyIffBlank(p.query);
    if !IsBlank(p.query) {
      assert |HandleQuery(p, Settles).0.history| != |p.history|;
    }
  }

  /** A settled submission records the matcher's answer to the text that was in the box. */
  lemma HandleQueryRecordsAnswer(p: Panel)
    requires !IsBlank(p.query)
    ensures HandleQuery(p, Settles).0.history[0] == ProcessAIQuery(p.query)
    ensures HandleQuery(p, Settles).1 == Some(ProcessAIQuery(p.query).results)
  {
  }

  /** `handleSampleQuery(sample)`: the sample replaces the input; nothing is submitted. */
  function HandleSampleQuery(p: Panel, sample: string): (r: Panel)
    ensures r.query == sample && r.history == p.history
  {
    p.(query := sample)
  }

  /** The sample buttons are offered only while nothing has been answered yet. */
  predicate SamplesShown(p: Panel) {
    |p.history| == 0
  }

  /**
   The samples are on offer after a submission exactly when they were before
   and the submission recorded nothing (blank or rejected).
   */
  lemma SamplesShownAfterSubmit(p: Panel, outcome: Outcome)
    ensures SamplesShown(HandleQuery(p, outcome).0)
        <==> SamplesShown(p) && (IsBlank(p.query) || outcome == Rejects)
  {
  }

  /** Picking a text and submitting it, once per text, every call settling. */
  function SubmitAll(p: Panel, queries: seq<string>): Panel
    decreases |queries|
  {
    if |queries| == 0 then p
    else SubmitAll(HandleQuery(HandleSampleQuery(p, queries[0]), Settles).0, queries[1..])
  }

  /** The answers a run of submissions adds to the history, newest first; blank texts add nothing. */
  function Log(queries: seq<string>): (r: seq<QueryResult>)
    ensures |r| <= |queries|
    ensures (forall i :: 0 <= i < |queries| ==> !IsBlank(queries[i])) ==> |r| == |queries|
    ensures forall e :: e in r ==> e.query in queries && !IsBlank(e.query)
    ensures forall e :: e in r ==> e == ProcessAIQuery(e.query)
    decreases |queries|
  {
    if |queries| == 0 then []
    else
      var rest := Log(queries[1..]);
      assert forall q :: q in queries[1..] ==> q in queries;
      NoneBlankTail(queries);
      if IsBlank(queries[0]) then
        BlankEntryIsEmpty(queries[0]);
        rest + Entry(queries[0])
      else
        EntryRecordsAnswer(queries[0]);
        AnswerKeepsAnswers(rest, ProcessAIQuery(queries[0]));
        rest + Entry(queries[0])
  }

  /** When no text of a run is blank, no text of its tail is. */
  lemma NoneBlankTail(queries: seq<string>)
    requires |queries| > 0
    ensures (forall i :: 0 <= i < |queries| ==> !IsBlank(queries[i]))
        ==> forall i :: 0 <= i < |queries[1..]| ==> !IsBlank(queries[1..][i])
  {
  }

  /** What one submission adds to the history: its answer, or nothing for a blank text. */
  function Entry(query: string): seq<QueryResult> {
    if IsBlank(query) then [] else [ProcessAIQuery(query)]
  }

  /** A blank text records nothing. */
  lemma BlankEntryIsEmpty(query: string)
    requires IsBlank(query)
    ensures Entry(query) == []
  {
  }

  /** A text that is not blank records one answer, the matcher's to that text. */
  lemma EntryRecordsAnswer(query: string)
    requires !IsBlank(query)
    ensures Entry(query) == [ProcessAIQuery(query)]
  {
  }

  /** Adding an answer to records that each answer their own text keeps that so. */
  lemma AnswerKeepsAnswers(rest: seq<QueryResult>, a: QueryResult)
    requires forall e :: e in rest ==> e == ProcessAIQuery(e.query)
    requires a == ProcessAIQuery(a.query)
    ensures forall e :: e in rest + [a] ==> e == ProcessAIQuery(e.query)
  {
    forall e | e in rest + [a] ensures e == ProcessAIQuery(e.query) {
      if e != a {
        assert e in rest;
      }
    }
  }

  lemma AppendAssoc<T>(a: seq<T>, b: seq<T>, c: seq<T>)
    ensures a + (b + c) == a + b + c
  {
  }

  lemma SubmitOneHistory(p: Panel, query: string)
    ensures HandleQuery(HandleSampleQuery(p, query), Settles).0.history == Entry(query) + p.history
  {
  }

  /** The history after a run of submissions is the run's answers, newest first, on top of the old history. */
  lemma {:induction false} SubmitAllHistory(p: Panel, queries: seq<string>)
    ensures SubmitAll(p, queries).history == Log(queries) + p.history
    decreases |queries|
  {
    if |queries| > 0 {
      var p1 := HandleQuery(HandleSampleQuery(p, queries[0]), Settles).0;
      SubmitOneHistory(p, queries[0]);
      SubmitAllHistory(p1, queries[1..]);
      assert SubmitAll(p, queries) == SubmitAll(p1, queries[1..]);
      assert Log(queries) == Log(queries[1..]) + Entry(queries[0]);
      AppendAssoc(Log(queries[1..]), Entry(queries[0]), p.history);
    }
  }

  /** A text that starts with a visible character is not blank. */
  lemma NotBlankByHead(s: string)
    requires |s| > 0 && !IsWhitespace(s[0])
    ensures !IsBlank(s)
  {
    TrimEmptyIffBlank(s);
  }

  /** Each of the five samples is non-blank, so picking it and submitting it always records an answer. */
  lemma SamplesAreNotBlank()
    ensures forall i :: 0 <= i < |Samples.SampleQueries| ==> !IsBlank(Samples.SampleQueries[i])
  {
    var qs := Samples.SampleQueries;
    forall i | 0 <= i < |qs| ensures !IsBlank(qs[i]) {
      NotBlankByHead(qs[i]);
    }
  }

  /**
   One step of the page with the panel: the panel handles the submission and,
   when it hands ids on, the page takes them as its restriction.
   */
  function Submit(page: Page, p: Panel, outcome: Outcome): (r: (Page, Panel))
    ensures r.1 == HandleQuery(p, outcome).0
    ensures HandleQuery(p, outcome).1 == None ==> r.0 == page
  {
    var (p', handed) := HandleQuery(p, outcome);
    match handed
    case None => (page, p')
    case Some(ids) => (HandleAIQueryResults(page, ids), p')
  }

  /**
   After a settled, non-blank submission the grid shows exactly the catalog
   cards the matcher named for the query, whatever filters were set before.
   */
  lemma SubmitShowsMatchedCards(page: Page, p: Panel)
    requires !IsBlank(p.query)
    ensures Visible(Submit(page, p, Settles).0) == Filter(Cards, AiKeep(ProcessAIQuery(p.query).results))
  {
    AIQueryResultsShowReturnedCards(page, ProcessAIQuery(p.query).results);
  }

  /** A blank or rejected submission leaves the grid as it was. */
  lemma FailedSubmitKeepsGrid(page: Page, p: Panel, outcome: Outcome)
    requires IsBlank(p.query) || outcome == Rejects
    ensures Visible(Submit(page, p, outcome).0) == Visible(page)
    ensures Submit(page, p, outcome).1 == p
  {
  }

}
