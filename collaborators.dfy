/**
 * What the generator obtains from outside itself, given as values: the files
 * it reads and the changelog library it calls.
 */
module Collaborators {
  import opened Wrappers
  import opened Configurations

  /**
   * A readable file: its text, and its root element when the text is
   * well-formed XML (None when parsing it fails).
   */
  datatype FileBody<N> = FileBody(text: string, root: Option<N>)

  /**
   * A parsed changelog, opaque beyond its number of releases and the root of
   * what the XHTML writer produces for it once that output is parsed back
   * (None when that output does not parse).
   */
  datatype ChangelogModel<N> = ChangelogModel(releaseCount: nat, rendered: Option<N>)

  /**
   * The changelog library: whether a parser provider and an XHTML writer
   * provider are installed, and what the parser yields for each readable
   * changelog file (None when it fails to parse). A path that is not a key
   * cannot be opened.
   */
  datatype ChangelogServices<N> = ChangelogServices(
    parserPresent: bool,
    writerPresent: bool,
    files: map<Path, Option<ChangelogModel<N>>>)
}
