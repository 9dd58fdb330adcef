/**
 * The request-header builder and the error handling of the backend calls
 * (js/modules/api.js). The network round trip itself is not modelled: the
 * answer of each call is given as a Response value.
 */
module Api {
  import opened Wrappers
  import opened Storage

  /** What a backend call produced: a 2xx body, a non-2xx answer whose JSON
    * body may carry a `message`, or a failure of the transport itself. */
  datatype Response<T> = Success(body: T) | Rejected(message: Option<string>) | NetworkError(reason: string)

  /** One entry of an order request body. */
  datatype OrderItem = OrderItem(productId: int, quantity: int)

  /** What a successful login returns: the token and the user record, the
    * latter in the serialized form in which it is stored. */
  datatype AuthData = AuthData(token: string, user: string)

  const ContentType := "Content-Type"
  const Authorization := "Authorization"
  const Json := "application/json"

  const OrderFailed := "Error al crear el pedido"
  const AuthFailed := "Error de autenticación"
  const ApiUnavailable := "API no disponible"

  /** `errorData.message || fallback`: the server's message when it sent a
    * non-empty one, the fallback otherwise. */
  function MessageOr(message: Option<string>, fallback: string): (m: string)
    ensures Truthy(message) ==> m == message.value
    ensures !Truthy(message) ==> m == fallback
    ensures fallback != "" ==> m != ""
  {
    if Truthy(message) then message.value else fallback
  }

  /** The headers getAuthHeaders builds for a stored token. */
  function AuthHeaders(token: Option<string>): (h: map<string, string>)
    ensures ContentType in h && h[ContentType] == Json
    ensures Authorization in h <==> Truthy(token)
    ensures Truthy(token) ==> h[Authorization] == "Bearer " + token.value
    ensures h.Keys <= {ContentType, Authorization}
  {
    if Truthy(token) then map[ContentType := Json, Authorization := "Bearer " + token.value]
    else map[ContentType := Json]
  }

  /** getAuthHeaders: Content-Type always, and a Bearer Authorization header
    * added to the dictionary exactly when a token is stored. */
  method GetAuthHeaders(store: Store) returns (headers: map<string, string>)
    ensures headers == AuthHeaders(store.authToken)
  {
    var token := store.authToken;
    headers := map[ContentType := Json];
    if Truthy(token) {
      headers := headers[Authorization := "Bearer " + token.value];
    }
  }

  /** The fixed headers of the login request: no Authorization header. */
  function LoginHeaders(): (h: map<string, string>)
    ensures Authorization !in h
    ensures h.Keys == {ContentType} && h[ContentType] == Json
  {
    map[ContentType := Json]
  }

  /** fetchProducts: a non-2xx answer becomes "API no disponible" whatever
    * its body says; a transport failure keeps its own message. */
  function FetchProducts<T>(response: Response<T>): (r: Result<T, string>)
    ensures response.Success? <==> r.Ok?
    ensures response.Success? ==> r.value == response.body
    ensures response.Rejected? ==> r == Err(ApiUnavailable)
    ensures response.NetworkError? ==> r == Err(response.reason)
  {
    match response
    case Success(body) => Ok(body)
    case Rejected(_) => Err(ApiUnavailable)
    case NetworkError(reason) => Err(reason)
  }

  /** createOrder: the server's message or "Error al crear el pedido" on a
    * non-2xx answer. */
  function CreateOrder<T>(response: Response<T>): (r: Result<T, string>)
    ensures response.Success? <==> r.Ok?
    ensures response.Success? ==> r.value == response.body
    ensures response.Rejected? ==> r == Err(MessageOr(response.message, OrderFailed))
    ensures response.NetworkError? ==> r == Err(response.reason)
  {
    match response
    case Success(body) => Ok(body)
    case Rejected(message) => Err(MessageOr(message, OrderFailed))
    case NetworkError(reason) => Err(reason)
  }

  /** loginUser: the server's message or "Error de autenticación" on a
    * non-2xx answer. */
  function LoginUser(response: Response<AuthData>): (r: Result<AuthData, string>)
    ensures response.Success? <==> r.Ok?
    ensures response.Success? ==> r.value == response.body
    ensures response.Rejected? ==> r == Err(MessageOr(response.message, AuthFailed))
    ensures response.NetworkError? ==> r == Err(response.reason)
  {
    match response
    case Success(body) => Ok(body)
    case Rejected(message) => Err(MessageOr(message, AuthFailed))
    case NetworkError(reason) => Err(reason)
  }
}
