/** The payloads that travel on the bus.  The bus itself never looks inside them. */
module Messages {

  type ProposalId = nat

  /** The Go type of a payload struct, its correlation id, and the proposal it is about. */
  datatype Body = Body(typeName: string, proposal: ProposalId, correlation: string)

  /** A publisher may hand over the struct, a pointer to it, or a nil pointer of its type. */
  datatype Event = Value(body: Body) | Pointer(body: Body) | NilPointer(typeName: string)
}
