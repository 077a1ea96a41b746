/**
 * The relational tables the core reads and writes: conversation summaries and personas.
 * Rows are kept in creation order, so "ordered by `created_at` descending, first" is the
 * last matching row.
 */
module Store {
  import opened Wrappers

  /** A `conversation_summaries` row (timestamps aside). */
  datatype SummaryRow = SummaryRow(conversationId: string, summary: string, tokensEstimate: Option<int>)

  /** A `personas` row: its owner, its name and its optional description. */
  datatype PersonaRow = PersonaRow(userId: string, name: string, description: Option<string>)

  /** The index of the most recently created summary row of a conversation, if there is one. */
  function LatestIndex(rows: seq<SummaryRow>, conversationId: string): (r: Option<nat>)
    ensures r.Some? ==> r.value < |rows| && rows[r.value].conversationId == conversationId
    ensures r.Some? ==> forall j :: r.value < j < |rows| ==> rows[j].conversationId != conversationId
    ensures r.None? <==> forall j :: 0 <= j < |rows| ==> rows[j].conversationId != conversationId
  {
    if rows == [] then None
    else if rows[|rows| - 1].conversationId == conversationId then Some(|rows| - 1)
    else LatestIndex(rows[..|rows| - 1], conversationId)
  }

  /** `get_conversation_summary`: the text of the latest summary row of the conversation. */
  function LatestSummary(rows: seq<SummaryRow>, conversationId: string): Option<string>
  {
    match LatestIndex(rows, conversationId)
    case None => None
    case Some(i) => Some(rows[i].summary)
  }

  /**
   * The table after `save_conversation_summary`: the latest row of the conversation gets the new
   * text and token estimate, or, when the conversation has none, a new row is added.
   */
  function SummarySaved(rows: seq<SummaryRow>, conversationId: string, text: string, tokens: Option<int>): seq<SummaryRow>
  {
    match LatestIndex(rows, conversationId)
    case None => rows + [SummaryRow(conversationId, text, tokens)]
    case Some(i) => rows[i := SummaryRow(conversationId, text, tokens)]
  }

  /** Reading a conversation's summary right after saving it gives the saved text. */
  lemma SaveThenGet(rows: seq<SummaryRow>, conversationId: string, text: string, tokens: Option<int>)
    ensures LatestSummary(SummarySaved(rows, conversationId, text, tokens), conversationId) == Some(text)
  {
    var after := SummarySaved(rows, conversationId, text, tokens);
    match LatestIndex(rows, conversationId)
    case None =>
      assert after[|after| - 1].conversationId == conversationId;
    case Some(i) =>
      assert forall j :: i < j < |after| ==> after[j] == rows[j];
      LatestIsLast(after, conversationId, i);
  }

  /** A matching row with no matching row after it is the latest one. */
  lemma {:induction false} LatestIsLast(rows: seq<SummaryRow>, conversationId: string, i: nat)
    requires i < |rows| && rows[i].conversationId == conversationId
    requires forall j :: i < j < |rows| ==> rows[j].conversationId != conversationId
    ensures LatestIndex(rows, conversationId) == Some(i)
  {
    if i < |rows| - 1 {
      LatestIsLast(rows[..|rows| - 1], conversationId, i);
    }
  }

  /** Saving one conversation's summary leaves every other conversation's summary as it was. */
  lemma SaveIsolated(rows: seq<SummaryRow>, conversationId: string, text: string, tokens: Option<int>, other: string)
    requires other != conversationId
    ensures LatestSummary(SummarySaved(rows, conversationId, text, tokens), other) == LatestSummary(rows, other)
  {
    var after := SummarySaved(rows, conversationId, text, tokens);
    assert forall j :: 0 <= j < |after| && after[j].conversationId == other ==> j < |rows| && after[j] == rows[j];
    assert forall j :: 0 <= j < |rows| && rows[j].conversationId == other ==> after[j] == rows[j];
    match LatestIndex(rows, other)
    case None =>
    case Some(k) =>
      LatestIsLast(after, other, k);
  }

  /** The table gains one row exactly when the conversation had no summary; otherwise its size is unchanged. */
  lemma SaveGrowsOnlyWhenNew(rows: seq<SummaryRow>, conversationId: string, text: string, tokens: Option<int>)
    ensures |SummarySaved(rows, conversationId, text, tokens)| == |rows| + (if LatestSummary(rows, conversationId).None? then 1 else 0)
  {
  }

  /** Saving the same summary twice leaves the table as saving it once does. */
  lemma SaveIdempotent(rows: seq<SummaryRow>, conversationId: string, text: string, tokens: Option<int>)
    ensures SummarySaved(SummarySaved(rows, conversationId, text, tokens), conversationId, text, tokens)
         == SummarySaved(rows, conversationId, text, tokens)
  {
    var once := SummarySaved(rows, conversationId, text, tokens);
    match LatestIndex(rows, conversationId)
    case None =>
      LatestIsLast(once, conversationId, |rows|);
    case Some(i) =>
      assert forall j :: i < j < |once| ==> once[j] == rows[j];
      LatestIsLast(once, conversationId, i);
  }

  /** `.filter(user_id == u, name == n).first()` on the persona table: the first matching row. */
  function FirstPersona(rows: seq<PersonaRow>, userId: string, name: string): (r: Option<PersonaRow>)
    ensures r.Some? ==> r.value in rows && r.value.userId == userId && r.value.name == name
    ensures r.None? <==> forall p :: p in rows ==> !(p.userId == userId && p.name == name)
  {
    if rows == [] then None
    else if rows[0].userId == userId && rows[0].name == name then Some(rows[0])
    else FirstPersona(rows[1..], userId, name)
  }

  /**
   * The database behind a session. `reachable` is false for a database whose queries raise
   * (a lost connection, a missing table).
   */
  class Database {
    const reachable: bool
    var summaries: seq<SummaryRow>
    var personas: seq<PersonaRow>

    constructor (reachable: bool, summaries: seq<SummaryRow>, personas: seq<PersonaRow>)
      ensures this.reachable == reachable && this.summaries == summaries && this.personas == personas
    {
      this.reachable := reachable;
      this.summaries := summaries;
      this.personas := personas;
    }
  }

  /** What a query on an unreachable database raises. */
  const UNREACHABLE := "database is unreachable"
}
