/** The closed set of moods (the keys of `MOOD_AUDIO` in main.js) and how the mood of a
    model reply becomes the current mood. */
module Moods {
  import opened Js

  /** The keys of `MOOD_AUDIO`. The audio shift and speed values are not modelled. */
  const MoodKeys: set<string> :=
    {"NEUTRAL", "AFFECTIONATE", "CRYPTIC", "WARNING", "JOYFUL", "CURIOUS", "SAD", "GLITCH"}

  /** Names every plain JavaScript object inherits from `Object.prototype`; looking one of
      them up on `MOOD_AUDIO` yields a truthy value although it is not a mood. */
  const InheritedNames: set<string> :=
    {"constructor", "hasOwnProperty", "isPrototypeOf", "propertyIsEnumerable",
     "toLocaleString", "toString", "valueOf", "__proto__", "__defineGetter__",
     "__defineSetter__", "__lookupGetter__", "__lookupSetter__"}

  /** `MOOD_AUDIO[m]` is truthy. */
  predicate AudioEntryTruthy(m: string) {
    m in MoodKeys || m in InheritedNames
  }

  /** `if (json.mood && MOOD_AUDIO[json.mood]) currentMood = json.mood; else currentMood = "NEUTRAL"`.
      A reply mood that is a key of `MOOD_AUDIO` (GLITCH included) is taken over; every
      other string, and an absent mood, gives NEUTRAL — except an inherited property
      name, which passes the lookup and is taken over as it is. */
  function MoodAfterReply(mood: Option<string>): (r: string)
    ensures mood.Some? && mood.value in MoodKeys ==> r == mood.value
    ensures mood.Some? && mood.value !in MoodKeys && mood.value !in InheritedNames ==> r == "NEUTRAL"
    ensures mood.None? ==> r == "NEUTRAL"
    ensures r in MoodKeys || (mood.Some? && r == mood.value && r in InheritedNames)
  {
    if Truthy(mood) && AudioEntryTruthy(mood.value) then mood.value else "NEUTRAL"
  }

  /** Outside the inherited names the current mood always lies in the closed set. */
  lemma MoodStaysInClosedSet(mood: Option<string>)
    requires mood.None? || mood.value !in InheritedNames
    ensures MoodAfterReply(mood) in MoodKeys
  {
  }

  /** An unrecognised mood such as EXCITED falls back to NEUTRAL. */
  lemma UnknownMoodIsNeutral()
    ensures MoodAfterReply(Some("EXCITED")) == "NEUTRAL"
  {
  }

  /** The lookup is not an own-key test: "toString" passes it and becomes the mood. */
  lemma InheritedNamePassesLookup()
    ensures MoodAfterReply(Some("toString")) == "toString"
    ensures "toString" !in MoodKeys
  {
  }
}
