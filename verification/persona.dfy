/**
 * Persona loading: a default profile, then an optional stored override of name and prompt,
 * then optional stored preferences (a tone appended to the prompt, a list of blocked tools).
 */
module Persona {
  import opened Wrappers
  import opened Values
  import opened Store
  import opened Memory

  /** The profile's `tool_policy` dict: `{"allow_all": ..., "blocked_tools": [...]}`. */
  datatype ToolPolicy = ToolPolicy(allowAll: bool, blockedTools: seq<Json>)

  /** `PersonaProfile`. */
  datatype PersonaProfile = PersonaProfile(personaId: string, name: string, systemPrompt: string, toolPolicy: ToolPolicy)

  const DEFAULT_PERSONA_ID := "aether"

  const DEFAULT_NAME := "أثير"

  const DEFAULT_SYSTEM_PROMPT := "أنت أثير (Athir) — وكيل عام.\n\nمهمتك: مساعدة المستخدم بشكل عملي وذكي، وتفويض المهام للأدوات عند الحاجة.\nقواعد:\n1) إذا طُلب بحث: استخدم web_search ثم لخّص النتائج.\n2) إذا طُلب ترجمة: استخدم translation.\n3) إذا لم تكن هناك حاجة لأداة: أجب مباشرة.\n4) احترم خطة المستخدم: free/premium/enterprise.\n5) لا تنفذ أي فعل خطير بدون تأكيد.\n"

  /** The separator put in front of a tone preference. */
  const TONE_HEADER := "\n\nنبرة الرد: "

  /** Stage one: the default profile; an empty id becomes "aether". */
  function DefaultProfile(personaId: string): (p: PersonaProfile)
    ensures p.personaId == if personaId == "" then DEFAULT_PERSONA_ID else personaId
    ensures p.personaId != ""
    ensures p.name == DEFAULT_NAME && p.systemPrompt == DEFAULT_SYSTEM_PROMPT
    ensures p.toolPolicy == ToolPolicy(true, [])
  {
    PersonaProfile(if personaId == "" then DEFAULT_PERSONA_ID else personaId, DEFAULT_NAME, DEFAULT_SYSTEM_PROMPT, ToolPolicy(true, []))
  }

  /** Stage two: a stored persona row replaces the name, and the prompt when its description is non-empty. */
  function ApplyOverride(p: PersonaProfile, row: PersonaRow): (r: PersonaProfile)
    ensures r.personaId == p.personaId && r.toolPolicy == p.toolPolicy
    ensures r.name == row.name
    ensures r.systemPrompt == if row.description.Some? && row.description.value != "" then row.description.value else p.systemPrompt
  {
    var named := p.(name := row.name);
    if row.description.Some? && row.description.value != "" then named.(systemPrompt := row.description.value) else named
  }

  /**
   * Stage three, `_apply_preferences`: a truthy `tone` is appended to the prompt after the tone
   * header, and a non-empty list `blocked_tools` replaces the blocked list and turns `allow_all`
   * off. Preferences that are not a dict raise, as `prefs.get` does.
   */
  function ApplyPreferences(p: PersonaProfile, prefs: Json, fmt: Formats): (r: Outcome<PersonaProfile>)
    ensures r.Raised? <==> !prefs.JObj?
    ensures r.Returned? ==> r.value.personaId == p.personaId && r.value.name == p.name
    ensures r.Returned? ==>
      var tone := Get(prefs.fields, "tone");
      r.value.systemPrompt == if tone.Some? && Truthy(tone.value) then p.systemPrompt + TONE_HEADER + Str(tone.value, fmt) else p.systemPrompt
    ensures r.Returned? ==>
      var blocked := Get(prefs.fields, "blocked_tools");
      r.value.toolPolicy == if blocked.Some? && blocked.value.JList? && blocked.value.items != [] then ToolPolicy(false, blocked.value.items) else p.toolPolicy
  {
    if !prefs.JObj? then
      Raised("'" + TypeName(prefs) + "' object has no attribute 'get'")
    else
      var tone := Get(prefs.fields, "tone");
      var toned := if tone.Some? && Truthy(tone.value) then p.(systemPrompt := p.systemPrompt + TONE_HEADER + Str(tone.value, fmt)) else p;
      var blocked := Get(prefs.fields, "blocked_tools");
      Returned(if blocked.Some? && blocked.value.JList? && blocked.value.items != [] then toned.(toolPolicy := ToolPolicy(false, blocked.value.items)) else toned)
  }

  /** The three stages in order; `row` is the override found, `prefs` the preferences read (either may be absent). */
  function Merge(personaId: string, row: Option<PersonaRow>, prefs: Option<Json>, fmt: Formats): Outcome<PersonaProfile>
  {
    var base := DefaultProfile(personaId);
    var overridden := if row.Some? then ApplyOverride(base, row.value) else base;
    if prefs.Some? && Truthy(prefs.value) then ApplyPreferences(overridden, prefs.value, fmt) else Returned(overridden)
  }

  /** With nothing stored, loading gives the default profile. */
  lemma MergeDefault(personaId: string, fmt: Formats)
    ensures Merge(personaId, None, None, fmt) == Returned(DefaultProfile(personaId))
  {
  }

  /** Loading never changes the persona id, and falsy preferences (missing, empty, zero) change nothing. */
  lemma MergeKeepsId(personaId: string, row: Option<PersonaRow>, prefs: Option<Json>, fmt: Formats)
    ensures Merge(personaId, row, prefs, fmt).Returned? ==>
              Merge(personaId, row, prefs, fmt).value.personaId == DefaultProfile(personaId).personaId
    ensures prefs.None? || !Truthy(prefs.value) ==>
              Merge(personaId, row, prefs, fmt) == Merge(personaId, row, None, fmt)
  {
  }

  /** Loading raises only for preferences that are truthy but not a dict (a non-empty list or string, a non-zero number, `true`). */
  lemma MergeRaisesOnlyForNonDict(personaId: string, row: Option<PersonaRow>, prefs: Option<Json>, fmt: Formats)
    ensures Merge(personaId, row, prefs, fmt).Raised? <==> prefs.Some? && Truthy(prefs.value) && !prefs.value.JObj?
  {
  }

  /** The override row a database yields: none without a database or when its query fails. */
  function OverrideRow(db: Database?, userId: string, personaId: string): Option<PersonaRow>
    reads db
  {
    if db == null || !db.reachable then None else FirstPersona(db.personas, userId, personaId)
  }

  /** The preferences read for the profile's id: none without a memory. */
  function StoredPrefs(memory: ContextualMemory?, userId: string, personaId: string): Option<Json>
    reads memory
  {
    if memory == null then None else memory.GetPersonaPreference(userId, DefaultProfile(personaId).personaId)
  }

  /**
   * `PersonaManager.load_persona`: the default profile, the stored row for (user, persona id)
   * if the database answers, then the preferences stored under the profile's id. A failing
   * database is ignored; preferences that are truthy but not a dict make it raise.
   */
  method LoadPersona(userId: string, personaId: string, memory: ContextualMemory?, db: Database?, fmt: Formats)
    returns (r: Outcome<PersonaProfile>)
    ensures r == Merge(personaId, OverrideRow(db, userId, personaId), StoredPrefs(memory, userId, personaId), fmt)
  {
    var persona := DefaultProfile(personaId);
    if db != null && db.reachable {
      var row := FirstPersona(db.personas, userId, personaId);
      if row.Some? {
        persona := persona.(name := row.value.name);
        if row.value.description.Some? && row.value.description.value != "" {
          persona := persona.(systemPrompt := row.value.description.value);
        }
      }
    }
    if memory != null {
      var prefs := memory.GetPersonaPreference(userId, persona.personaId);
      if prefs.Some? && Truthy(prefs.value) {
        return ApplyPreferences(persona, prefs.value, fmt);
      }
    }
    r := Returned(persona);
  }

  /** A stored override row carries the requested name, since the lookup filters on it. */
  lemma OverrideNameIsRequested(db: Database, userId: string, personaId: string)
    requires OverrideRow(db, userId, personaId).Some?
    ensures OverrideRow(db, userId, personaId).value.name == personaId
    ensures OverrideRow(db, userId, personaId).value.userId == userId
  {
  }
}
