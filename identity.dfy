/**
 * Whose data a storage key belongs to. The app builds per-user keys from
 * whichever identifying field of the signed-in user is set, falling back
 * to "guest".
 */
module Identity {

  /**
   * The identifying fields of a user record. A field that is missing,
   * `null` or empty is "" here: every reader combines them with `||`,
   * which treats all three alike.
   */
  datatype Who = Who(email: string, username: string, id: string, name: string)

  /** No signed-in user: `user` is `null`, so every field reads as missing. */
  const Nobody: Who := Who("", "", "", "")

  /** `a || b || ... || dflt` over strings: the first non-empty candidate, else `dflt`. */
  function FirstNonEmpty(cands: seq<string>, dflt: string): (r: string)
    ensures (forall k :: 0 <= k < |cands| ==> cands[k] == "") ==> r == dflt
    ensures forall k :: (0 <= k < |cands| && cands[k] != "" && forall j :: 0 <= j < k ==> cands[j] == "") ==> r == cands[k]
    ensures r == dflt || r in cands
    decreases |cands|
  {
    if cands == [] then dflt
    else if cands[0] != "" then cands[0]
    else
      var r := FirstNonEmpty(cands[1..], dflt);
      assert forall k :: 1 <= k < |cands| ==> cands[k] == cands[1..][k - 1];
      r
  }

  /** The fallback is used only when every candidate is empty. */
  lemma FirstNonEmptyNonEmpty(cands: seq<string>, dflt: string)
    requires dflt != ""
    ensures FirstNonEmpty(cands, dflt) != ""
  {
  }
}
