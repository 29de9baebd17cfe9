/** The error values a tRPC procedure throws (`new TRPCError({ code, message })`). */
module Trpc {

  datatype Code = BadRequest | Unauthorized | Forbidden | NotFound | Conflict | InternalServerError

  datatype TrpcError = TrpcError(code: Code, message: string)
}
