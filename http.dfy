/** What a handler sends: a status code and a JSON body, which is either the
    `{ message }` object of an error reply or the payload itself. */
module Http {

  datatype Body<D> = Message(text: string) | Json(data: D)

  datatype Response<D> = Response(status: int, body: Body<D>)

  /** `res.status(status).json({ message })`. */
  function Error<D>(status: int, message: string): Response<D> {
    Response(status, Message(message))
  }

  /** The catch-all reply of every handler's `catch` block. */
  const InternalError := "Erro interno"
}
