/**
 * Chat messages as the pipeline sends them to a language model. Every model
 * call is an uninterpreted function from a message list to its reply.
 */
module Chat {
  datatype Message = SystemMessage(content: string) | HumanMessage(content: string)
}
