/**
 * Contextual memory in its in-process configuration (no Redis, no vector store): a short-term
 * list of the last ten messages, persona preferences in a dict, conversation summaries in the
 * database, and the context bundle built from all of them.
 */
module Memory {
  import opened Wrappers
  import opened Text
  import opened Values
  import opened Store

  // ---------------- sequences ----------------

  function Reverse<T>(s: seq<T>): (r: seq<T>)
    ensures |r| == |s|
    ensures forall i :: 0 <= i < |s| ==> r[i] == s[|s| - 1 - i]
  {
    if s == [] then [] else [s[|s| - 1]] + Reverse(s[..|s| - 1])
  }

  /** Each value serialised by `json.dumps`. */
  function Dumped(fmt: Formats, ms: seq<Json>): (r: seq<string>)
    ensures |r| == |ms| && forall i :: 0 <= i < |ms| ==> r[i] == fmt.dumps(ms[i])
  {
    seq(|ms|, i requires 0 <= i < |ms| => fmt.dumps(ms[i]))
  }

  /** The loop of `get_short_term`: each entry `json.loads` accepts, in order; the others are skipped. */
  function Decoded(fmt: Formats, raw: seq<string>): (r: seq<Json>)
    ensures |r| <= |raw|
  {
    if raw == [] then []
    else
      Decoded(fmt, raw[..|raw| - 1]) + match fmt.loads(raw[|raw| - 1]) case Some(j) => [j] case None => []
  }

  /** Decoding what was dumped gives the values back, when `loads` inverts `dumps`. */
  lemma {:induction false} DecodeDumped(fmt: Formats, ms: seq<Json>)
    requires RoundTrips(fmt) && forall m :: m in ms ==> WellFormed(m)
    ensures Decoded(fmt, Dumped(fmt, ms)) == ms
  {
    if ms != [] {
      var last := ms[|ms| - 1];
      assert Dumped(fmt, ms)[..|ms| - 1] == Dumped(fmt, ms[..|ms| - 1]);
      DecodeDumped(fmt, ms[..|ms| - 1]);
      assert fmt.loads(fmt.dumps(last)) == Some(last);
      assert ms == ms[..|ms| - 1] + [last];
    }
  }

  // ---------------- the in-process list ----------------

  /**
   * The list `lpush` then `ltrim(key, 0, 9)` leave: the new entry first, then the previous
   * entries, ten at most.
   */
  function Pushed(items: seq<string>, value: string): (r: seq<string>)
    ensures |r| == Min(|items| + 1, 10)
    ensures r[0] == value && r[1..] == items[..|r| - 1]
  {
    Slice([value] + items, 0, 10)
  }

  /** The list after `add_short_term` of each entry of `vs` in turn. */
  function PushedAll(items: seq<string>, vs: seq<string>): seq<string>
  {
    if vs == [] then items else Pushed(PushedAll(items, vs[..|vs| - 1]), vs[|vs| - 1])
  }

  /** The list keeps the ten most recent entries, newest first. */
  lemma {:induction false} PushedAllWindow(items: seq<string>, vs: seq<string>)
    requires |items| <= 10
    ensures PushedAll(items, vs) == Prefix(Reverse(vs) + items, 10)
  {
    if vs != [] {
      var front := vs[..|vs| - 1];
      var v := vs[|vs| - 1];
      PushedAllWindow(items, front);
      var x := Reverse(front) + items;
      assert Reverse(vs) == [v] + Reverse(front);
      assert [v] + (Reverse(front) + items) == Reverse(vs) + items;
      PrefixUnderCons(v, x, 10);
      calc {
        PushedAll(items, vs);
        Pushed(PushedAll(items, front), v);
        Slice([v] + Prefix(x, 10), 0, 10);
        Prefix([v] + Prefix(x, 10), 10);
        Prefix(Reverse(vs) + items, 10);
      }
    }
  }

  /** Cutting the tail before or after putting an element in front makes no difference. */
  lemma PrefixUnderCons<T>(v: T, x: seq<T>, n: nat)
    requires n >= 1
    ensures Prefix([v] + Prefix(x, n), n) == Prefix([v] + x, n)
  {
    var lhs, rhs := Prefix([v] + Prefix(x, n), n), Prefix([v] + x, n);
    assert |lhs| == |rhs| == Min(n, |x| + 1);
    forall i | 0 <= i < |lhs| ensures lhs[i] == rhs[i] {
      if i > 0 {
        assert lhs[i] == x[i - 1];
      }
    }
  }

  lemma ReverseDumped(fmt: Formats, ms: seq<Json>)
    ensures Reverse(Dumped(fmt, ms)) == Dumped(fmt, Reverse(ms))
  {
  }

  lemma PrefixDumped(fmt: Formats, ms: seq<Json>, k: int)
    ensures Prefix(Dumped(fmt, ms), k) == Dumped(fmt, Prefix(ms, k))
  {
  }

  /**
   * After messages `ms` were added to an empty short-term list, `get_short_term(u, n)` returns
   * the newest `max(1, n)` of them (ten at most), newest first.
   */
  lemma ShortTermRecall(fmt: Formats, ms: seq<Json>, n: int)
    requires RoundTrips(fmt) && forall m :: m in ms ==> WellFormed(m)
    ensures Decoded(fmt, Slice(PushedAll([], Dumped(fmt, ms)), 0, Max(0, n - 1) + 1))
         == Prefix(Reverse(ms), Min(10, Max(1, n)))
  {
    var k := Max(0, n - 1) + 1;
    var rev := Reverse(ms);
    var window := Prefix(rev, 10);
    PushedAllWindow([], Dumped(fmt, ms));
    assert Reverse(Dumped(fmt, ms)) + [] == Reverse(Dumped(fmt, ms));
    ReverseDumped(fmt, ms);
    PrefixDumped(fmt, rev, 10);
    assert PushedAll([], Dumped(fmt, ms)) == Dumped(fmt, window);
    PrefixDumped(fmt, window, k);
    assert Slice(Dumped(fmt, window), 0, k) == Dumped(fmt, Prefix(window, k));
    DecodeDumped(fmt, Prefix(window, k));
    PrefixPrefix(rev, 10, k);
  }

  lemma PrefixPrefix<T>(s: seq<T>, m: nat, k: nat)
    ensures Prefix(Prefix(s, m), k) == Prefix(s, Min(m, k))
  {
  }

  /** `_InMemoryList`: the list that stands in for Redis; it ignores the key, so all users share it. */
  class InMemoryList {
    var items: seq<string>

    constructor ()
      ensures items == []
    {
      items := [];
    }

    /** `lpush`: insert at the front. */
    method LPush(key: string, value: string)
      modifies this
      ensures items == [value] + old(items)
    {
      items := [value] + items;
    }

    /** `ltrim(key, start, end)`: keep `items[start : end + 1]`. */
    method LTrim(key: string, start: int, end: int)
      modifies this
      ensures items == Slice(old(items), start, end + 1)
    {
      items := Slice(items, start, end + 1);
    }

    /** `lrange(key, start, end)`: `items[start : end + 1]`. */
    function LRange(key: string, start: int, end: int): (r: seq<string>)
      reads this
      ensures start == 0 && end >= 0 ==> r == items[..Min(end + 1, |items|)]
    {
      Slice(items, start, end + 1)
    }
  }

  // ---------------- persona preferences ----------------

  /** `f"prefs:{user_id}:{persona_id}"`. */
  function PrefKey(userId: string, personaId: string): string
  {
    "prefs:" + userId + ":" + personaId
  }

  /** Two strings joined around a separator that the first never contains split back uniquely. */
  lemma SeparatedInjective(a: string, b: string, c: string, d: string, sep: char)
    requires sep !in a && sep !in c
    requires a + [sep] + b == c + [sep] + d
    ensures a == c && b == d
  {
    var s := a + [sep] + b;
    assert s[|a|] == sep && s[|c|] == sep;
    assert forall i :: 0 <= i < |a| ==> s[i] == a[i];
    assert forall i :: 0 <= i < |c| ==> s[i] == c[i];
    assert |a| == |c|;
    assert a == s[..|a|] && c == s[..|c|];
    assert b == s[|a| + 1..] && d == s[|c| + 1..];
  }

  /** Preference keys of users whose ids contain no ':' never collide. */
  lemma PrefKeyInjective(u1: string, p1: string, u2: string, p2: string)
    requires ':' !in u1 && ':' !in u2
    requires PrefKey(u1, p1) == PrefKey(u2, p2)
    ensures u1 == u2 && p1 == p2
  {
    var prefix := "prefs:";
    assert PrefKey(u1, p1) == prefix + (u1 + [':'] + p1);
    assert PrefKey(u2, p2) == prefix + (u2 + [':'] + p2);
    assert (prefix + (u1 + [':'] + p1))[|prefix|..] == u1 + [':'] + p1;
    assert (prefix + (u2 + [':'] + p2))[|prefix|..] == u2 + [':'] + p2;
    SeparatedInjective(u1, p1, u2, p2, ':');
  }

  /** With a ':' in the user id, two different (user, persona) pairs share one key. */
  lemma PrefKeyCollision()
    ensures PrefKey("a:b", "c") == PrefKey("a", "b:c")
  {
  }

  /** `get_persona_preference` on the dict store: nothing for a missing or empty entry, else what `json.loads` gives. */
  function PrefLookup(store: map<string, string>, fmt: Formats, userId: string, personaId: string): (r: Option<Json>)
    ensures PrefKey(userId, personaId) !in store ==> r.None?
    ensures r.Some? ==> fmt.loads(store[PrefKey(userId, personaId)]) == r
  {
    var key := PrefKey(userId, personaId);
    if key !in store || store[key] == "" then None else fmt.loads(store[key])
  }

  /** Reading preferences right after setting them gives them back. */
  lemma PrefRoundTrip(store: map<string, string>, fmt: Formats, userId: string, personaId: string, prefs: Json)
    requires RoundTrips(fmt) && WellFormed(prefs)
    ensures PrefLookup(store[PrefKey(userId, personaId) := fmt.dumps(prefs)], fmt, userId, personaId) == Some(prefs)
  {
    assert fmt.loads(fmt.dumps(prefs)) == Some(prefs) && fmt.dumps(prefs) != "";
  }

  /** Setting one user's preferences leaves every other user's preferences (ids without ':') as they were. */
  lemma PrefIsolated(store: map<string, string>, fmt: Formats, u: string, p: string, prefs: Json, u2: string, p2: string)
    requires ':' !in u && ':' !in u2 && (u, p) != (u2, p2)
    ensures PrefLookup(store[PrefKey(u, p) := fmt.dumps(prefs)], fmt, u2, p2) == PrefLookup(store, fmt, u2, p2)
  {
    if PrefKey(u, p) == PrefKey(u2, p2) {
      PrefKeyInjective(u, p, u2, p2);
    }
  }

  // ---------------- the context bundle ----------------

  /** The dict `build_full_context` returns. */
  datatype ContextBundle = ContextBundle(
    recentMessages: seq<Json>,
    relevantHistory: seq<Json>,
    personaPreferences: Option<Json>,
    conversationSummary: string,
    contextTokensEstimate: nat)

  /** `f"المحادثة رقم {conversation_id} - {n} رسائل"`: the summary used when none is stored. */
  function PlaceholderSummary(conversationId: string, n: nat): string
  {
    "المحادثة رقم " + conversationId + " - " + IntToString(n) + " رسائل"
  }

  /** The summary the context reports: a stored, non-empty summary, or else the placeholder. */
  function ChosenSummary(stored: Option<string>, conversationId: string, n: nat): (r: string)
    ensures r != ""
    ensures stored.Some? && stored.value != "" ==> r == stored.value
    ensures stored.None? || stored.value == "" ==> r == PlaceholderSummary(conversationId, n)
  {
    if stored.Some? && stored.value != "" then stored.value else PlaceholderSummary(conversationId, n)
  }

  /**
   * `build_full_context`, as a function of the short-term list, the preference store and the
   * summary read from the database (`None` without a database, on error or when none is stored).
   */
  function ContextOf(items: seq<string>, prefs: map<string, string>, fmt: Formats, stored: Option<string>,
                     userId: string, query: string, conversationId: string): (r: ContextBundle)
    ensures |r.recentMessages| <= 5 && r.relevantHistory == []
    ensures r.personaPreferences == PrefLookup(prefs, fmt, userId, "aether")
    ensures r.conversationSummary == ChosenSummary(stored, conversationId, |r.recentMessages|)
    ensures r.recentMessages == Decoded(fmt, Slice(items, 0, 5))
    ensures r.contextTokensEstimate == |Words(fmt.repr(JList(r.recentMessages)))| + |Words(query)|
  {
    var recent := Decoded(fmt, Slice(items, 0, 5));
    ContextBundle(
      recent,
      [],
      PrefLookup(prefs, fmt, userId, "aether"),
      ChosenSummary(stored, conversationId, |recent|),
      |Words(fmt.repr(JList(recent)))| + |Words(query)|)
  }

  /** After messages `ms` were added to a fresh memory, the context holds the newest five, newest first. */
  lemma ContextRecall(fmt: Formats, ms: seq<Json>, prefs: map<string, string>, stored: Option<string>,
                      userId: string, query: string, conversationId: string)
    requires RoundTrips(fmt) && forall m :: m in ms ==> WellFormed(m)
    ensures ContextOf(PushedAll([], Dumped(fmt, ms)), prefs, fmt, stored, userId, query, conversationId).recentMessages
         == Prefix(Reverse(ms), 5)
  {
    ShortTermRecall(fmt, ms, 5);
  }

  /** The summary stored for a conversation in the database, if there is a database and it answers. */
  function StoredSummary(db: Database?, conversationId: string): Option<string>
    reads db
  {
    if db == null || !db.reachable then None else LatestSummary(db.summaries, conversationId)
  }

  /** `ContextualMemory` with its in-process fallbacks: a shared in-memory list and a preference dict. */
  class ContextualMemory {
    const fmt: Formats
    const shortTerm: InMemoryList
    var personaMemory: map<string, string>

    constructor (fmt: Formats)
      ensures this.fmt == fmt && fresh(shortTerm) && shortTerm.items == [] && personaMemory == map[]
    {
      this.fmt := fmt;
      shortTerm := new InMemoryList();
      personaMemory := map[];
    }

    /** `add_short_term`: serialise, push to the front, keep ten. The key names the user but the list ignores it. */
    method AddShortTerm(userId: string, message: Json)
      modifies shortTerm
      ensures shortTerm.items == Pushed(old(shortTerm.items), fmt.dumps(message))
    {
      var key := "st:" + userId;
      shortTerm.LPush(key, fmt.dumps(message));
      shortTerm.LTrim(key, 0, 9);
    }

    /** `get_short_term`: the first `max(1, last_n)` entries, those that decode, newest first. */
    method GetShortTerm(userId: string, lastN: int) returns (out: seq<Json>)
      ensures out == Decoded(fmt, Slice(shortTerm.items, 0, Max(0, lastN - 1) + 1))
      ensures |out| <= Max(1, lastN)
    {
      var raw := shortTerm.LRange("st:" + userId, 0, Max(0, lastN - 1));
      out := [];
      var i := 0;
      while i < |raw|
        invariant 0 <= i <= |raw|
        invariant out == Decoded(fmt, raw[..i])
      {
        assert raw[..i + 1][..i] == raw[..i];
        match fmt.loads(raw[i]) {
          case Some(j) => out := out + [j];
          case None =>
        }
        i := i + 1;
      }
      assert raw[..|raw|] == raw;
    }

    /** `add_to_vector_store` with the vector store disabled: returns at once, changing nothing. */
    method AddToVectorStore(userId: string, conversationId: string, text: string)
    {
    }

    /** `vector_search` with the vector store disabled: no hits. */
    method VectorSearch(query: string, userId: string, topK: int) returns (hits: seq<Json>)
      ensures hits == []
    {
      hits := [];
    }

    /** `set_persona_preference` on the dict store. */
    method SetPersonaPreference(userId: string, personaId: string, preferences: Json)
      modifies this
      ensures personaMemory == old(personaMemory)[PrefKey(userId, personaId) := fmt.dumps(preferences)]
    {
      personaMemory := personaMemory[PrefKey(userId, personaId) := fmt.dumps(preferences)];
    }

    /** `get_persona_preference` on the dict store. */
    function GetPersonaPreference(userId: string, personaId: string): (r: Option<Json>)
      reads this
      ensures r == PrefLookup(personaMemory, fmt, userId, personaId)
      ensures PrefKey(userId, personaId) !in personaMemory ==> r.None?
    {
      PrefLookup(personaMemory, fmt, userId, personaId)
    }

    /** `save_conversation_summary`: update the conversation's latest row or add one, then commit. */
    method SaveConversationSummary(db: Database, conversationId: string, summaryText: string, tokensEstimate: Option<int>)
      returns (r: Outcome<SummaryRow>)
      modifies db
      ensures db.reachable ==> r == Returned(SummaryRow(conversationId, summaryText, tokensEstimate))
      ensures db.reachable ==> db.summaries == SummarySaved(old(db.summaries), conversationId, summaryText, tokensEstimate)
      ensures !db.reachable ==> r == Raised(UNREACHABLE) && db.summaries == old(db.summaries)
      ensures db.personas == old(db.personas)
    {
      if !db.reachable {
        return Raised(UNREACHABLE);
      }
      db.summaries := SummarySaved(db.summaries, conversationId, summaryText, tokensEstimate);
      r := Returned(SummaryRow(conversationId, summaryText, tokensEstimate));
    }

    /** `get_conversation_summary`: the latest summary text, or `None`; raises when the database does. */
    function GetConversationSummary(db: Database, conversationId: string): (r: Outcome<Option<string>>)
      reads db
      ensures r.Returned? <==> db.reachable
      ensures r.Returned? ==> r.value == LatestSummary(db.summaries, conversationId)
    {
      if db.reachable then Returned(LatestSummary(db.summaries, conversationId)) else Raised(UNREACHABLE)
    }

    /** `build_full_context`. The vector store is off, so the relevant history is empty. */
    method BuildFullContext(userId: string, query: string, conversationId: string, db: Database?)
      returns (ctx: ContextBundle)
      ensures ctx == ContextOf(shortTerm.items, personaMemory, fmt, StoredSummary(db, conversationId), userId, query, conversationId)
    {
      var recent := GetShortTerm(userId, 5);
      var hits := VectorSearch(query, userId, 3);
      var prefs := GetPersonaPreference(userId, "aether");
      var summary: Option<string> := None;
      if db != null {
        var fetched := GetConversationSummary(db, conversationId);
        if fetched.Returned? {
          summary := fetched.value;
        }
      }
      var chosen := if summary.Some? && summary.value != "" then summary.value
                    else PlaceholderSummary(conversationId, |recent|);
      ctx := ContextBundle(recent, hits, prefs, chosen,
                           |Words(fmt.repr(JList(recent)))| + |Words(query)|);
    }
  }
}
