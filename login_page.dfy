/**
 * `handleLocalLogin`: the input guard, the call to the login endpoint, the
 * user id read from the payload segment of the returned JWS compact token, and
 * the `loading` flag. `atob` followed by `JSON.parse` and the property reads is
 * the partial function `decode`.
 */
module LoginPage {
  import opened Wrappers
  import opened Js
  import opened AuthContext
  import opened Effects

  /** The payload properties the handler reads; a missing one is `Undefined`. */
  datatype Payload = Payload(userId: JsValue, sub: JsValue, id: JsValue)

  /** What `userAPI.login` resolves to: `data.token` and `error`. */
  datatype LoginResponse = LoginResponse(token: Option<string>, error: Option<string>)

  const EmptyFieldsMessage := "이메일과 비밀번호를 입력해주세요."
  const FailurePrefix := "로그인 실패: "
  const SuccessMessage := "로그인 성공!"

  /**
   * `token.split('.')[1]`: the second segment. Without one the value is
   * undefined and `atob` rejects it, so there is nothing to decode.
   */
  function PayloadSegment(token: string): Option<string> {
    var parts := Split(token, '.');
    if |parts| >= 2 then Some(parts[1]) else None
  }

  /**
   * For a JWS compact serialization `header.payload.signature` (section 7.1
   * of RFC 7515; base64url text never contains a dot) the segment read is the
   * payload.
   */
  lemma CompactSerializationPayload(header: string, payload: string, signature: string)
    requires '.' !in header && '.' !in payload
    ensures PayloadSegment(header + "." + payload + "." + signature) == Some(payload)
  {
    assert header + "." + payload + "." + signature == header + ['.'] + (payload + ['.'] + signature);
    SplitAfterPiece(header, payload + ['.'] + signature, '.');
    SplitAfterPiece(payload, signature, '.');
  }

  /** A token without a dot has no payload segment. */
  lemma NoDotNoPayload(token: string)
    requires '.' !in token
    ensures PayloadSegment(token).None?
  {
    SplitNoSeparator(token, '.');
  }

  /** `a || b` */
  function Or(a: JsValue, b: JsValue): JsValue {
    if Truthy(a) then a else b
  }

  /** `String(payload.userId || payload.sub || payload.id || '1')` */
  function UserIdOf(p: Payload): (id: string)
    ensures id != ""
    ensures Truthy(p.userId) ==> id == ToJsString(p.userId)
    ensures !Truthy(p.userId) && Truthy(p.sub) ==> id == ToJsString(p.sub)
    ensures !Truthy(p.userId) && !Truthy(p.sub) && Truthy(p.id) ==> id == ToJsString(p.id)
    ensures !Truthy(p.userId) && !Truthy(p.sub) && !Truthy(p.id) ==> id == "1"
  {
    var v := Or(Or(Or(p.userId, p.sub), p.id), Str("1"));
    TruthyToStringNonEmpty(v);
    ToJsString(v)
  }

  /** The handler gets past the input guard. */
  predicate Submitted(email: string, password: string) {
    email != "" && password != ""
  }

  /** The token and user id the handler passes to `login`, if it calls it. */
  function LoginArguments(email: string, password: string, response: LoginResponse,
                          decode: string -> Option<Payload>): (r: Option<(string, string)>)
    ensures r.Some? <==> Submitted(email, password) && !StrTruthy(response.error) && StrTruthy(response.token)
    ensures r.Some? ==> r.value.0 == response.token.value && r.value.1 != ""
  {
    if !Submitted(email, password) || StrTruthy(response.error) || !StrTruthy(response.token) then None
    else
      var token := response.token.value;
      var payload := match PayloadSegment(token) case None => None case Some(segment) => decode(segment);
      Some((token, if payload.Some? then UserIdOf(payload.value) else "1"))
  }

  /** A token that cannot be decoded is still stored, with the user id `'1'`. */
  lemma UndecodableTokenFallsBack(email: string, password: string, response: LoginResponse,
                                  decode: string -> Option<Payload>)
    requires Submitted(email, password) && !StrTruthy(response.error) && StrTruthy(response.token)
    requires var s := PayloadSegment(response.token.value); s.None? || decode(s.value).None?
    ensures LoginArguments(email, password, response, decode) == Some((response.token.value, "1"))
  {
  }

  /** A decodable JWS token logs in with the id read from its payload segment. */
  lemma DecodedTokenUserId(email: string, password: string, header: string, payload: string, signature: string,
                           error: Option<string>, decode: string -> Option<Payload>)
    requires Submitted(email, password) && !StrTruthy(error)
    requires '.' !in header && '.' !in payload && decode(payload).Some?
    ensures var token := header + "." + payload + "." + signature;
      LoginArguments(email, password, LoginResponse(Some(token), error), decode) ==
        Some((token, UserIdOf(decode(payload).value)))
  {
    CompactSerializationPayload(header, payload, signature);
  }

  class LoginPage {
    var email: string
    var password: string
    var loading: bool

    constructor ()
      ensures email == "" && password == "" && !loading
    {
      email := "";
      password := "";
      loading := false;
    }

    /**
     * `handleLocalLogin` after `userAPI.login` resolved to `response`: the
     * guard sends nothing; otherwise the call is made, `login` is called
     * exactly when a token came back without an error, and `loading` ends false.
     */
    method HandleLocalLogin(auth: AuthProvider, response: LoginResponse, decode: string -> Option<Payload>)
      returns (requested: bool, effects: seq<Effect>)
      modifies this`loading, auth, auth.storage
      ensures requested <==> Submitted(email, password)
      ensures !requested ==> loading == old(loading) && effects == [Alert(EmptyFieldsMessage)]
      ensures requested ==> !loading
      ensures var call := LoginArguments(email, password, response, decode);
        && (call.Some? ==> auth.State() == LoggedIn(old(auth.State()), call.value.0, call.value.1))
        && (call.None? ==> auth.State() == old(auth.State()))
        && (call.Some? ==> effects == [Alert(SuccessMessage), Navigate("/")])
      ensures requested && StrTruthy(response.error) ==> effects == [Alert(FailurePrefix + response.error.value)]
      ensures requested && !StrTruthy(response.error) && !StrTruthy(response.token) ==> effects == []
    {
      if email == "" || password == "" {
        return false, [Alert(EmptyFieldsMessage)];
      }
      loading := true;
      requested := true;
      effects := [];
      if response.error.Some? && response.error.value != "" {
        effects := [Alert(FailurePrefix + response.error.value)];
        loading := false;
        return;
      }
      if response.token.Some? && response.token.value != "" {
        var token := response.token.value;
        var segment := PayloadSegment(token);
        var payload := if segment.Some? then decode(segment.value) else None;
        if payload.Some? {
          auth.Login(token, UserIdOf(payload.value));
        } else {
          auth.Login(token, "1");
        }
        effects := [Alert(SuccessMessage), Navigate("/")];
      }
      loading := false;
    }
  }
}
