/** Values shared by every part of the model: optional values, error-carrying
    results, identifiers, instants and the HTTP status codes the handlers answer. */
module Common {

  datatype Option<+T> = None | Some(value: T)

  datatype Result<+T, +E> = Ok(value: T) | Err(error: E)

  /** A UUID, held as the canonical text `uuid.UUID.String()` prints. */
  type Uuid = string

  /** An instant of the server clock, in the clock's own unit. */
  type Time = int

  const StatusOK := 200
  const StatusCreated := 201
  const StatusAccepted := 202
  const StatusNoContent := 204
  const StatusBadRequest := 400
  const StatusUnauthorized := 401
  const StatusForbidden := 403
  const StatusNotFound := 404
  const StatusInternalServerError := 500
}
