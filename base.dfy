/** The plain data definitions of src/base.py that the completion core uses. */
module Base {
  /** One chat message: who speaks (`role`) and what is said (`content`). Immutable. */
  datatype Message = Message(role: string, content: string)
}
