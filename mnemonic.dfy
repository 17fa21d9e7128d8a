// The word-count check run before a mnemonic is generated.
module Mnemonic {

  import opened GoTypes

  /** The three rejections, in the order they are checked. */
  datatype WordCountError =
    | TooFew(given: int)       // "must be 12 or more"
    | TooMany(given: int)      // "must be 24 or less"
    | NotMultipleOfThree       // "must be a multiple of 3"

  /** Default of the `--words` flag. */
  const DefaultWords: int := 24

  /** The accepted word counts. */
  const ValidCounts: set<int> := {12, 15, 18, 21, 24}

  /**
   * The validation done before generation: `None` means the count is accepted.
   * The two range checks are made before the multiple-of-three check, so an
   * out-of-range count is always reported as out of range.
   */
  function ValidateWordCount(words: int64): (r: Option<WordCountError>)
    ensures r == Some(TooFew(words)) <==> words < 12
    ensures r == Some(TooMany(words)) <==> words > 24
    ensures r == Some(NotMultipleOfThree) <==> 12 <= words <= 24 && words % 3 != 0
    ensures r == None <==> words in ValidCounts
  {
    if words < 12 then Some(TooFew(words))
    else if words > 24 then Some(TooMany(words))
    // Go's % truncates, but here 12 <= words, so it agrees with Dafny's.
    else if words % 3 != 0 then Some(NotMultipleOfThree)
    else None
  }

  /** The flag's default passes the validation. */
  lemma DefaultIsValid()
    ensures ValidateWordCount(DefaultWords) == None
  {
  }

  /** A count that is out of range and not a multiple of three gets the range error. */
  lemma RangeCheckedFirst(words: int64)
    requires words < 12 || words > 24
    ensures ValidateWordCount(words) != Some(NotMultipleOfThree)
  {
  }
}
