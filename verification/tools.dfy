/** The drawing tools the toolbar offers; the active one decides how pointer events are read. */
module Tools {

  datatype Action = Select | Rectangle | Circle | Arrow | Scribble {

    /** Every tool except Select creates a shape on pointer-down. */
    predicate Draws() {
      !Select?
    }
  }
}
