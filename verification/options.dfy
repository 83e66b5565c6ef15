/** The optional-value type used for a recipe's enrichment list and for parse results. */
module Options {

  datatype Option<+T> = None | Some(value: T)
}
