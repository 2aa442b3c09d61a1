/** Failure values shared by the token stream and the parser.  The source signals
    these by throwing; here every operation that can fail returns a Result. */
module Outcomes {
  import opened Tokens

  datatype Option<+T> = None | Some(value: T)

  /** The exceptions the core throws.  EmptyOutputBack stands for the one place where
      the source has undefined behaviour instead of an exception: ShuntAlgo asks for
      the last output token while the output is still empty. */
  datatype Error =
    | UnexpectedEndOfTokenStream
    | UnexpectedToken(expected: TokenType, received: TokenType)
    | MismatchedParenthesis
    | EmptyOutputBack

  datatype Result<+T> = Ok(value: T) | Err(error: Error)
}
