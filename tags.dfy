/** The tag normaliser: the canonical form in which a free-text skill tag is
    stored in the skill vocabulary. */
module Tags {
  import opened Strings

  /** `CleanTag`: lower-case the tag, then turn every space into a hyphen.
      The result has the tag's length, no upper-case letter and no space. */
  function CleanTag(tag: string): (r: string)
    ensures |r| == |tag|
    ensures forall i :: 0 <= i < |tag| ==> r[i] == if tag[i] == ' ' then '-' else LowerChar(tag[i])
    ensures NoUpper(r) && ' ' !in r
  {
    Replace(ToLower(tag), ' ', '-')
  }

  /** A cleaned tag is already clean. */
  lemma CleanTagIdempotent(tag: string)
    ensures CleanTag(CleanTag(tag)) == CleanTag(tag)
  {
  }

  /** "Go Lang" becomes "go-lang". */
  lemma CleanTagExample()
    ensures CleanTag("Go Lang") == "go-lang"
  {
    var r := CleanTag("Go Lang");
    assert r[0] == 'g' && r[1] == 'o' && r[2] == '-' && r[3] == 'l';
  }
}
