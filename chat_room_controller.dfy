/**
 * The chat service's controller for chat rooms (`ChatRoomController`): how it
 * turns the auth service's token-validation response into a user id, and how
 * the two endpoints gate their call into the chat-room service on it. The
 * auth client is a function from the request's token to the response body it
 * returns; the service call is returned as a value instead of being made.
 */
module ChatRoom {
  import opened Wrappers

  /** The body of the auth service's answer (`TokenValidationResponse`). */
  datatype TokenValidationResponse = TokenValidationResponse(isValid: bool, userId: Option<string>)

  /** The chat service's error codes that `getUserId` throws in a `GlobalException`. */
  datatype ErrorCode = InvalidTokenBody | UserIdNotExist | InvalidToken

  /** The auth client: from an `Authorization` header to the validation response's body, if any. */
  type AuthClient = string -> Option<TokenValidationResponse>

  /** The call `createChatRoom` makes into the chat-room service. */
  datatype CreateChatRoomCall<Request> = CreateChatRoomCall(request: Request, userId: string)

  /** The call `exitChatRoom` makes into the chat-room service. */
  datatype ExitChatRoomCall = ExitChatRoomCall(chatRoomId: string, userId: string)

  /**
   * `getUserId`: a missing body, then a missing user id, then an invalid
   * token, are the three failures, checked in that order; otherwise the user
   * id of the body is the result.
   */
  function GetUserId(body: Option<TokenValidationResponse>): (r: Result<string, ErrorCode>)
    ensures r == Failure(InvalidTokenBody) <==> body.None?
    ensures r == Failure(UserIdNotExist) <==> body.Some? && body.value.userId.None?
    ensures r == Failure(InvalidToken) <==> body.Some? && body.value.userId.Some? && !body.value.isValid
    ensures r.Success? <==> body.Some? && body.value.userId.Some? && body.value.isValid
    ensures r.Success? ==> body.value.userId == Some(r.value)
  {
    match body
    case None => Failure(InvalidTokenBody)
    case Some(response) =>
      match response.userId
      case None => Failure(UserIdNotExist)
      case Some(userId) =>
        if !response.isValid then Failure(InvalidToken) else Success(userId)
  }

  /** `createChatRoom`: the service is called only with the user id a valid response reported. */
  function CreateChatRoom<Request>(request: Request, token: string, validateToken: AuthClient)
    : (r: Result<CreateChatRoomCall<Request>, ErrorCode>)
    ensures r.Success? <==> GetUserId(validateToken(token)).Success?
    ensures r.Failure? ==> Failure(r.error) == GetUserId(validateToken(token))
    ensures r.Success? ==> r.value.request == request
                           && validateToken(token).Some? && validateToken(token).value.isValid
                           && validateToken(token).value.userId == Some(r.value.userId)
  {
    match GetUserId(validateToken(token))
    case Failure(e) => Failure(e)
    case Success(userId) => Success(CreateChatRoomCall(request, userId))
  }

  /** `exitChatRoom`: the same gate, for leaving the room named in the path. */
  function ExitChatRoom(chatRoomId: string, token: string, validateToken: AuthClient)
    : (r: Result<ExitChatRoomCall, ErrorCode>)
    ensures r.Success? <==> GetUserId(validateToken(token)).Success?
    ensures r.Failure? ==> Failure(r.error) == GetUserId(validateToken(token))
    ensures r.Success? ==> r.value.chatRoomId == chatRoomId
                           && validateToken(token).Some? && validateToken(token).value.isValid
                           && validateToken(token).value.userId == Some(r.value.userId)
  {
    match GetUserId(validateToken(token))
    case Failure(e) => Failure(e)
    case Success(userId) => Success(ExitChatRoomCall(chatRoomId, userId))
  }

  /**
   * A body without a user id is USERID_NOT_EXIST even when it is also marked
   * invalid: the case of `GetUserId`'s contract where the order of the user-id
   * and validity checks decides the outcome.
   */
  lemma UserIdCheckedBeforeValidity(isValid: bool)
    ensures GetUserId(Some(TokenValidationResponse(isValid, None))) == Failure(UserIdNotExist)
  {
  }

  /** Both endpoints fail alike on the same token: neither reaches the service without a user id. */
  lemma EndpointsShareTheGate<Request>(request: Request, chatRoomId: string, token: string, validateToken: AuthClient)
    ensures CreateChatRoom(request, token, validateToken).Success? <==> ExitChatRoom(chatRoomId, token, validateToken).Success?
    ensures CreateChatRoom(request, token, validateToken).Success? ==>
              CreateChatRoom(request, token, validateToken).value.userId == ExitChatRoom(chatRoomId, token, validateToken).value.userId
  {
  }
}
