/** The HTTP status codes the handlers and middlewares answer with (`net/http`'s constants). */
module HttpStatus {
  const StatusOK := 200
  const StatusCreated := 201
  const StatusBadRequest := 400
  const StatusUnauthorized := 401
  const StatusNotFound := 404
  const StatusMethodNotAllowed := 405
  const StatusInternalServerError := 500
}
