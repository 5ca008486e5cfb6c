/** The logical operators of a program. */
module LogicalOperators {
  datatype Operator = And | Or | Coalesce
}
