/** What a request handler sends back: a status code with a JSON payload. */
module Http {

  /**
   * `Ok` is a success status with its `data`, `Err` an error status with its
   * `message`, and `NoResponse` a handler that ends without ever answering.
   */
  datatype Reply<+T> =
    | Ok(status: nat, data: T)
    | Err(status: nat, message: string)
    | NoResponse

  const NotFound := "Not found"
}
