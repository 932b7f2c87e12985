/** The workflow data values that operations exchange through net variables. */
module WorkflowValues {
  datatype Value = Int(i: int) | Str(s: string) | List(items: seq<Value>)
}
