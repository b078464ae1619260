/** Failure-carrying values shared by the loss and the position-encoding models. */
module Results {

  datatype Option<+T> = None | Some(value: T)

  /** The exceptions the modelled code raises. */
  datatype Error =
    | MissingField(name: string)                   // `assert 'pred_logits' in outputs` fails
    | IndexOutOfRange                              // an embedding lookup past the table's rows
    | ShapeMismatch                                // torch.stack of tensors of different shapes
    | EmptyCat                                     // torch.cat of an empty list of tensors
    | UnsupportedPositionEmbedding(option: string) // the builder's ValueError

  datatype Result<+T> = Ok(value: T) | Err(error: Error)
}
