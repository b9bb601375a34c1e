/**
 * The session storage of the frontend's authentication service
 * (frontend/src/lib/api/services/auth.service.ts): the access token and the
 * signed-in user kept in the browser's local storage under `access_token`
 * and `user`. The user is stored as JSON; `JSON.stringify` and `JSON.parse`
 * are the parameters `encode` and `decode`, of which the service relies on
 * the round trip (`decode(encode(u)) == u`) and on `encode` never giving "".
 * The API client (frontend/src/lib/api/client.ts) clears the same two keys
 * whenever a request is answered with 401.
 */
module AuthStorage {
  import opened Wrappers

  const TokenKey := "access_token"
  const UserKey := "user"

  /**
   * How a request through the API client ended: the parsed answer, an error
   * status, or no answer at all (the fetch itself failed).
   */
  datatype Reply<T> = Answered(value: T) | Refused(status: int) | Unreachable

  /** The answer `request` treats specially: 401. */
  predicate Unauthorized<T>(reply: Reply<T>)
  {
    reply.Refused? && reply.status == 401
  }

  /** The user record the API returns. */
  datatype User = User(
    id: int, email: string, fullName: Option<string>, isActive: bool, isSuperuser: bool,
    profilePictureUrl: Option<string>)

  /** The JSON codec behaves as `JSON.stringify`/`JSON.parse` do on plain records. */
  ghost predicate RoundTrips(encode: User -> string, decode: string -> User)
  {
    forall u :: decode(encode(u)) == u && encode(u) != ""
  }

  /** The service over one browser's local storage. */
  class AuthService {
    var storage: map<string, string>
    const encode: User -> string
    const decode: string -> User

    ghost predicate Valid()
      reads this
    {
      RoundTrips(encode, decode)
    }

    constructor(storage: map<string, string>, encode: User -> string, decode: string -> User)
      requires RoundTrips(encode, decode)
      ensures Valid() && this.storage == storage && this.encode == encode && this.decode == decode
    {
      this.storage := storage;
      this.encode := encode;
      this.decode := decode;
    }

    /** `getToken`: the stored token, or null. */
    function GetToken(): (t: Option<string>)
      reads this
      ensures t.Some? <==> TokenKey in storage
      ensures t.Some? ==> t.value == storage[TokenKey]
    {
      if TokenKey in storage then Some(storage[TokenKey]) else None
    }

    /** `isAuthenticated`: a token is stored (even an empty one). */
    predicate IsAuthenticated()
      reads this
    {
      GetToken() != None
    }

    /** `getUser`: the parsed stored user; nothing stored, or "", gives null. */
    function GetUser(): (u: Option<User>)
      reads this
      ensures (UserKey !in storage || storage[UserKey] == "") ==> u.None?
      ensures u.Some? ==> u.value == decode(storage[UserKey])
    {
      if UserKey in storage && storage[UserKey] != "" then Some(decode(storage[UserKey])) else None
    }

    /** `setToken`. */
    method SetToken(token: string)
      modifies this`storage
      ensures storage == old(storage)[TokenKey := token]
      ensures GetToken() == Some(token) && IsAuthenticated()
    {
      storage := storage[TokenKey := token];
    }

    /** `removeToken`. */
    method RemoveToken()
      modifies this`storage
      ensures storage == old(storage) - {TokenKey}
      ensures !IsAuthenticated()
    {
      storage := storage - {TokenKey};
    }

    /** `setUser`: stores the user's JSON; reading it back gives the same user. */
    method SetUser(user: User)
      requires Valid()
      modifies this`storage
      ensures storage == old(storage)[UserKey := encode(user)]
      ensures GetUser() == Some(user)
    {
      storage := storage[UserKey := encode(user)];
    }

    /** `removeUser`. */
    method RemoveUser()
      modifies this`storage
      ensures storage == old(storage) - {UserKey}
      ensures GetUser() == None
    {
      storage := storage - {UserKey};
    }

    /** `logout`: removes the token and the user and nothing else. */
    method Logout()
      modifies this`storage
      ensures storage == old(storage) - {TokenKey, UserKey}
      ensures !IsAuthenticated() && GetUser() == None
    {
      RemoveToken();
      RemoveUser();
    }

    /**
     * The API client's `handleUnauthorized` (frontend/src/lib/api/client.ts),
     * run on every 401 answer: the token and the user are removed from the
     * same local storage.
     */
    method HandleUnauthorized()
      modifies this`storage
      ensures storage == old(storage) - {TokenKey, UserKey}
      ensures !IsAuthenticated() && GetUser() == None
    {
      storage := storage - {TokenKey, UserKey};
    }

    /** The API client's `request` after the answer: a 401 signs the browser out, any answer is passed on. */
    method Receive<T>(reply: Reply<T>) returns (value: Option<T>)
      modifies this`storage
      ensures Unauthorized(reply) ==> storage == old(storage) - {TokenKey, UserKey}
      ensures !Unauthorized(reply) ==> storage == old(storage)
      ensures value.Some? <==> reply.Answered?
      ensures reply.Answered? ==> value == Some(reply.value)
    {
      if Unauthorized(reply) {
        HandleUnauthorized();
      }
      value := if reply.Answered? then Some(reply.value) else None;
    }

    /**
     * `login`: the token request (`issued`) goes through the API client, so
     * a refusal with 401 signs the browser out and any other refusal changes
     * nothing. Otherwise the token is stored first, the current user is
     * fetched with that stored token (`me`), again through the client, and
     * the user is stored only when the fetch answers.
     */
    method Login(issued: Reply<string>, me: string -> Reply<User>) returns (user: Option<User>)
      requires Valid()
      modifies this`storage
      ensures !issued.Answered? ==> user.None?
      ensures Unauthorized(issued) ==> storage == old(storage) - {TokenKey, UserKey}
      ensures !issued.Answered? && !Unauthorized(issued) ==> storage == old(storage)
      ensures issued.Answered? ==> (user.Some? <==> me(issued.value).Answered?)
      ensures issued.Answered? && me(issued.value).Answered? ==>
        && user == Some(me(issued.value).value)
        && storage == old(storage)[TokenKey := issued.value][UserKey := encode(user.value)]
        && GetToken() == Some(issued.value) && GetUser() == user
      ensures issued.Answered? && Unauthorized(me(issued.value)) ==>
        storage == old(storage) - {TokenKey, UserKey} && !IsAuthenticated()
      ensures issued.Answered? && !me(issued.value).Answered? && !Unauthorized(me(issued.value)) ==>
        storage == old(storage)[TokenKey := issued.value]
    {
      var token := Receive(issued);
      if token.None? {
        return None;
      }
      SetToken(token.value);
      var stored := GetToken();
      user := Receive(me(stored.value));
      if user.Some? {
        SetUser(user.value);
      }
    }
  }
}
