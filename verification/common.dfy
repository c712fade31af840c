/** Small value types shared by every module of the model. */
module Common {

  datatype Option<+T> = None | Some(value: T)

  datatype Result<+T, +E> = Ok(value: T) | Err(error: E)

  /** The three ways an atomic file replacement can end: it never became visible,
      it became visible and then reported an error, or it succeeded. */
  datatype SaveOutcome = NotPublished | PublishedWithError | Published {
    predicate Visible() {
      !NotPublished?
    }
  }
}
