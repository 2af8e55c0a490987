/** The response envelope shared by every route: a transport status and a
    `PlungerResponse` body (`src/model/response.rs`). */
module Response {
  import opened RustStd

  /** The three HTTP statuses the routes use. */
  datatype Status = Ok | BadRequest | InternalServerError

  /** `PlungerResponse<T>`: a message and optional details. */
  datatype PlungerResponse<T> = PlungerResponse(message: string, details: Option<T>)

  /** The `(Status, Json<PlungerResponse<T>>)` pair a route returns. */
  datatype Reply<T> = Reply(status: Status, body: PlungerResponse<T>)

  /** A reply that carries only a message. */
  function MessageOnly<T>(status: Status, message: string): Reply<T> {
    Reply(status, PlungerResponse(message, None))
  }
}
