/** The chat's choice of system prompt for a learning module
    (lib/gemini/modulePrompts.ts). The prompt texts themselves are content,
    not logic: a prompt is modelled by which entry of the table was chosen,
    or by the topic interpolated into the generic template. */
module ModulePrompts {

  /** The keys of the specialised-prompt table, in declaration order. */
  const AvailableModules: seq<string> :=
    ["budgeting", "investing", "saving", "debt", "retirement", "goals"]

  datatype Prompt =
    | Specialist(key: string)      // the table's entry for `key`
    | TopicFocused(topic: string)  // the generic template, mentioning `topic`

  function LowerChar(c: char): char
  {
    if 'A' <= c <= 'Z' then (c as int + 32) as char else c
  }

  predicate IsLower(s: string)
  {
    forall i :: 0 <= i < |s| ==> !('A' <= s[i] <= 'Z')
  }

  /** `String.prototype.toLowerCase`, on the letters the keys are made of. */
  function ToLower(s: string): (r: string)
    ensures |r| == |s| && IsLower(r)
    ensures forall i :: 0 <= i < |s| ==> r[i] == LowerChar(s[i])
    ensures IsLower(s) ==> r == s
  {
    if s == [] then [] else [LowerChar(s[0])] + ToLower(s[1..])
  }

  /** `hasModulePrompt`: is there a specialised prompt for this topic? */
  predicate HasModulePrompt(topic: string)
  {
    ToLower(topic) in AvailableModules
  }

  /** `getModulePrompt`: the table entry for the lower-cased topic, or the
      generic template built around the topic as the caller wrote it. */
  function GetModulePrompt(topic: string): (p: Prompt)
    ensures p.Specialist? ==> p.key in AvailableModules
  {
    var key := ToLower(topic);
    if key in AvailableModules then Specialist(key) else TopicFocused(topic)
  }

  /** Lower-casing twice is lower-casing once. */
  lemma ToLowerIdempotent(s: string)
    ensures ToLower(ToLower(s)) == ToLower(s)
  {
  }

  /** The two entry points agree: a specialised prompt is returned exactly
      when `hasModulePrompt` holds, and it is the entry for the lower-cased
      topic; otherwise the template carries the topic verbatim. */
  lemma PromptChoice(topic: string)
    ensures HasModulePrompt(topic) <==> GetModulePrompt(topic).Specialist?
    ensures HasModulePrompt(topic) ==> GetModulePrompt(topic) == Specialist(ToLower(topic))
    ensures !HasModulePrompt(topic) ==> GetModulePrompt(topic) == TopicFocused(topic)
  {
  }

  /** Every listed module has a prompt, reached by its own name. */
  lemma AvailableModulesHavePrompts(k: string)
    requires k in AvailableModules
    ensures HasModulePrompt(k) && GetModulePrompt(k) == Specialist(k)
  {
    assert IsLower(k);
  }

  /** The listed keys are distinct and already lower case. */
  lemma AvailableModulesWellFormed()
    ensures |AvailableModules| == 6
    ensures forall i, j :: 0 <= i < j < |AvailableModules| ==> AvailableModules[i] != AvailableModules[j]
    ensures forall i :: 0 <= i < |AvailableModules| ==> IsLower(AvailableModules[i])
  {
  }

  /** For a known module the lookup ignores case: any spelling that lower-cases
      to the same key selects the same prompt, and membership itself is
      insensitive to case. */
  lemma {:induction false} CaseInsensitive(topic: string, other: string)
    requires ToLower(topic) == ToLower(other)
    ensures HasModulePrompt(topic) == HasModulePrompt(other)
    ensures HasModulePrompt(topic) ==> GetModulePrompt(topic) == GetModulePrompt(other)
  {
  }

  /** Lower-casing works one character at a time from the front. */
  lemma ToLowerCons(c: char, s: string)
    ensures ToLower([c] + s) == [LowerChar(c)] + ToLower(s)
  {
    assert ([c] + s)[1..] == s;
  }

  function UpperChar(c: char): char
  {
    if 'a' <= c <= 'z' then (c as int - 32) as char else c
  }

  /** A lower-case word written with a capital first letter lower-cases
      back to itself. */
  lemma CapitalisedLowersBack(k: string)
    requires |k| > 0 && IsLower(k) && 'a' <= k[0] <= 'z'
    ensures ToLower([UpperChar(k[0])] + k[1..]) == k
  {
    assert IsLower(k[1..]);
    ToLowerCons(UpperChar(k[0]), k[1..]);
    assert [k[0]] + k[1..] == k;
  }

  /** The example from the chat client: "Budgeting" and "budgeting" get the
      same specialised prompt. */
  lemma SameSpecialistForBothSpellings()
    ensures GetModulePrompt("Budgeting") == GetModulePrompt("budgeting") == Specialist("budgeting")
  {
    assert "Budgeting" == [UpperChar("budgeting"[0])] + "budgeting"[1..];
    assert IsLower("budgeting");
    CapitalisedLowersBack("budgeting");
    assert AvailableModules[0] == "budgeting";
    AvailableModulesHavePrompts("budgeting");
  }

  /** An unknown topic keeps its own spelling in the generic template: no
      key starts with the lower-cased first letter of "Taxes". */
  lemma UnknownTopicKeepsSpelling()
    ensures GetModulePrompt("Taxes") == TopicFocused("Taxes")
  {
    var key := ToLower("Taxes");
    assert key[0] == 't';
    forall i | 0 <= i < |AvailableModules|
      ensures AvailableModules[i] != key
    {
      assert AvailableModules[i][0] != 't';
    }
  }
}
