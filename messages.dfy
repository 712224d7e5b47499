/**
 * The Message entity: an immutable pair of the (already prefixed) text and
 * its type label. The source's field `type` is called `kind` here, because
 * `type` is a reserved word in Dafny.
 */
module Messages {
  datatype Message = Message(content: string, kind: string)

  /** `p` is a prefix of `s`. */
  predicate StartsWith(s: string, p: string)
  {
    |p| <= |s| && s[..|p|] == p
  }
}
