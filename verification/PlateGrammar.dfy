/** The plate grammar of infer_rknn_plate.py. A character is its index in the recogniser's
    alphabet, which lists 31 provinces, 10 digits, 24 letters (no I, no O), 8 special characters
    and the blank, without repeats. */
module PlateGrammar {

  type Class = n: nat | n < 74

  const BLANK: Class := 73
  const XUE: Class := 65
  const GUA: Class := 66

  predicate IsProvince(c: Class) { c < 31 }
  predicate IsLetter(c: Class) { 41 <= c < 65 }
  predicate IsAlnum(c: Class) { 31 <= c < 65 }
  predicate IsSpecial(c: Class) { 65 <= c < 73 }

  /** `Unknown` stands for any other name that starts with "unknown". */
  datatype PlateType = Blue | Green | Yellow | Black | Special7 | Unknown8 | Unknown | Other(name: string)

  datatype Grammar = Grammar(plate: PlateType, tractor: bool)

  /** `target_len_for_type` */
  function TargetLen(g: Grammar): (n: nat)
    ensures n in {7, 8}
  {
    if g.plate in {Green, Unknown8} || g.tractor then 8 else 7
  }

  /** `char_allowed` */
  predicate CharAllowed(c: Class, pos: nat, g: Grammar) {
    if pos == 0 then IsProvince(c)
    else if pos == 1 then if g.plate == Special7 then IsAlnum(c) else IsLetter(c)
    else if g.plate == Black then IsAlnum(c) || IsSpecial(c)
    else if g.tractor || g.plate == Yellow then IsAlnum(c) || c in {XUE, GUA}
    else if g.plate == Special7 then IsAlnum(c) || IsSpecial(c)
    else IsAlnum(c)
  }

  /** `is_valid_prefix` */
  predicate IsValidPrefix(w: seq<Class>, g: Grammar) {
    && |w| <= TargetLen(g)
    && forall pos | 0 <= pos < |w| :: w[pos] != BLANK && CharAllowed(w[pos], pos, g)
  }

  /** `prefix_matches_forced` */
  predicate MatchesForced(w: seq<Class>, forced: seq<Class>) {
    if forced == [] then true
    else if |w| <= |forced| then w == forced[..|w|]
    else w[..|forced|] == forced
  }

  /** A word the search may still carry. */
  predicate Fits(w: seq<Class>, g: Grammar, forced: seq<Class>) {
    |w| <= TargetLen(g) && MatchesForced(w, forced) && IsValidPrefix(w, g)
  }

  /** The three checks are prefix-closed: what is pruned could never have been completed. */
  lemma FitsPrefix(w: seq<Class>, x: Class, g: Grammar, forced: seq<Class>)
    requires Fits(w + [x], g, forced)
    ensures Fits(w, g, forced)
  {
    var v := w + [x];
    assert forall pos | 0 <= pos < |w| :: w[pos] == v[pos];
    if |v| <= |forced| {
      assert w == v[..|w|] == forced[..|w|];
    } else if forced != [] {
      assert v[..|forced|] == w[..|forced|];
    }
  }

  /** A non-empty fitting word starts with a forced province, and a fitting word at least as long
      as the forced prefix starts with all of it. */
  lemma ForcedKept(w: seq<Class>, g: Grammar, forced: seq<Class>)
    requires Fits(w, g, forced)
    ensures |forced| == 1 && w != [] ==> w[0] == forced[0]
    ensures |forced| <= |w| ==> forced <= w
  {
  }

  /** A fitting word of full length is a word of the type's grammar. */
  predicate IsPlate(w: seq<Class>, g: Grammar) {
    |w| == TargetLen(g) && IsValidPrefix(w, g)
  }
}
