/**
  The fixed list of "system role" presets the chat bot can be given, and the
  preset that is active when the page is first shown.
 */
module Presets {

  /** The presets offered by the role selector, in display order. */
  const RoleContents: seq<string> := [
    "Explain things like you're talking to a software professional with 20 years of experience.",
    "Provide details as if you're instructing a student in a classroom.",
    "Discuss the topic as if you're presenting to a group of senior engineers.",
    "Answer like you are a cowboy"
  ]

  /** A value the role selector can produce: one of its option values. */
  predicate IsPreset(value: string) {
    value in RoleContents
  }

  /** The preset selected before the user touches the selector. */
  function DefaultPreset(): (p: string)
    ensures IsPreset(p)
    ensures p == RoleContents[0]
  {
    RoleContents[0]
  }

  /** The option values are pairwise distinct, so each is a usable list key
      and selecting a value identifies exactly one option. */
  lemma PresetsDistinct()
    ensures forall i, j :: 0 <= i < j < |RoleContents| ==> RoleContents[i] != RoleContents[j]
  {
  }
}
