/** Turning a clicked project card into a key of the project table: the
    card's id with its first `"project-"` removed, as `String.replace` does
    with a string pattern, looked up among the table's own keys. */
module ProjectLookup {
  import opened Wrappers

  /** The prefix that card ids carry. */
  const CardPrefix: string := "project-"

  /** The keys of the project table (its descriptions are page content). */
  const ProjectKeys: set<string> := {"dentalstock", "autolabai", "perezoso"}

  /** `pat` occurs in `s` starting at position `i`. */
  predicate OccursAt(s: string, pat: string, i: int)
  {
    0 <= i && i + |pat| <= |s| && s[i..i + |pat|] == pat
  }

  /** The first position at or after `from` where `pat` occurs in `s`. */
  function FindFrom(s: string, pat: string, from: nat): (r: Option<nat>)
    requires from <= |s|
    ensures r.Some? ==> from <= r.value && OccursAt(s, pat, r.value)
    ensures r.Some? ==> forall j :: from <= j < r.value ==> !OccursAt(s, pat, j)
    ensures r.None? ==> forall j :: from <= j ==> !OccursAt(s, pat, j)
    decreases |s| - from
  {
    if from + |pat| > |s| then None
    else if s[from..from + |pat|] == pat then Some(from)
    else FindFrom(s, pat, from + 1)
  }

  /** `s` with its first occurrence of `pat` replaced by `rep`; `s` itself
      when `pat` does not occur. */
  function ReplaceFirst(s: string, pat: string, rep: string): (r: string)
    ensures forall i :: OccursAt(s, pat, i) && (forall j :: 0 <= j < i ==> !OccursAt(s, pat, j)) ==>
      r == s[..i] + rep + s[i + |pat|..]
    ensures (forall j :: 0 <= j ==> !OccursAt(s, pat, j)) ==> r == s
  {
    match FindFrom(s, pat, 0)
    case None => s
    case Some(i) => s[..i] + rep + s[i + |pat|..]
  }

  /** The table key derived from a card id. */
  function CardKey(cardId: string): (key: string)
    ensures key == cardId <==> forall j :: 0 <= j ==> !OccursAt(cardId, CardPrefix, j)
    ensures key != cardId ==> |key| == |cardId| - |CardPrefix|
  {
    ReplaceFirst(cardId, CardPrefix, "")
  }

  /** The key is the id with exactly its first `"project-"` cut out: the
      parts before and after that occurrence are kept, and an id without
      one is kept whole. */
  lemma CardKeyCutsFirstOccurrence(cardId: string, i: nat)
    requires OccursAt(cardId, CardPrefix, i)
    requires forall j :: 0 <= j < i ==> !OccursAt(cardId, CardPrefix, j)
    ensures CardKey(cardId) == cardId[..i] + cardId[i + |CardPrefix|..]
    ensures |CardKey(cardId)| == |cardId| - |CardPrefix|
  {
  }

  /** An id in which `"project-"` never occurs is its own key. */
  lemma CardKeyWithoutPrefix(cardId: string)
    requires forall j :: 0 <= j ==> !OccursAt(cardId, CardPrefix, j)
    ensures CardKey(cardId) == cardId
  {
  }

  /** Putting the prefix in front of a key and deriving the key back gives
      the key again, whatever the key contains. */
  lemma CardKeyOfPrefixed(key: string)
    ensures CardKey(CardPrefix + key) == key
  {
  }

  /** The project a card opens, if the table has one for its key. */
  function Lookup(cardId: string): (r: Option<string>)
    ensures r.Some? <==> CardKey(cardId) in ProjectKeys
    ensures r.Some? ==> r.value == CardKey(cardId)
  {
    var key := CardKey(cardId);
    if key in ProjectKeys then Some(key) else None
  }

  /** A card `project-<key>` opens the project `<key>` exactly when the
      table has that key. */
  lemma LookupPrefixed(key: string)
    ensures Lookup(CardPrefix + key) == if key in ProjectKeys then Some(key) else None
  {
    CardKeyOfPrefixed(key);
  }
}
