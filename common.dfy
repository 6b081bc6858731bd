/**
 * Provenance shared by every node of the bound AST.
 *
 * The Python class `common.SourceLocation` is not part of this model; only its
 * observable content, a (file, line, column) triple, is kept.
 */
module Common {

  /** Where in which IDL document a node came from; used for diagnostics only. */
  datatype SourceLocation = SourceLocation(fileName: string, line: int, column: int)
}
