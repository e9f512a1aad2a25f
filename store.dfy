/** The user collection and the request handlers that read and update it. */
module Store {
  import opened JsValues
  import opened Wishlist
  import opened Users

  /** Every error a handler throws, each with its status code and message. */
  datatype Error =
    | MissingFields
    | PasswordTooShort
    | EmailRegistered
    | MissingCredentials
    | NotSignedUp
    | InvalidCredentials
    | ProfileNotFound
    | UserNotFound

  function Status(e: Error): int
  {
    if e == UserNotFound then 404 else 400
  }

  function Message(e: Error): string
  {
    match e
    case MissingFields => "Please fill in all required fields"
    case PasswordTooShort => "Password must be upto 6 characters"
    case EmailRegistered => "Email has already been registered"
    case MissingCredentials => "Please add email and password"
    case NotSignedUp => "User not found, please signup"
    case InvalidCredentials => "Invalid email or password"
    case ProfileNotFound => "User Not Found"
    case UserNotFound => "User not found"
  }

  const MinPasswordLength: nat := 6
  const CartSaved: string := "Cart Saved"
  const WishlistAdded: string := "Product added to wishlist"
  const WishlistRemoved: string := "Product removed to wishlist"

  /** The 201 body of `registerUser`; `token` is also the cookie value. Tokens are signed over the user id and
      the issue time in seconds that the request supplies (`jwt.sign` embeds it as `iat`). */
  datatype Registered = Registered(id: UserId, name: string, email: string, role: Role, token: string)

  /** The 200 body of `loginUser` and the token put in the cookie. */
  datatype LoggedIn = LoggedIn(user: PublicUser, token: string)

  /** The body of `getWishlist`: the document `_id` and its stored product ids. */
  datatype WishlistView = WishlistView(id: UserId, wishlist: seq<ProductId>)

  /** The validation `registerUser` does before touching the store. */
  function RegistrationError(name: Option<string>, email: Option<string>, password: Option<string>): (e: Option<Error>)
    ensures e == Some(MissingFields) <==> !Truthy(name) || !Truthy(email) || !Truthy(password)
    ensures e == Some(PasswordTooShort) <==>
              Truthy(name) && Truthy(email) && Truthy(password) && |password.value| < MinPasswordLength
    ensures e.None? <==> Truthy(name) && Truthy(email) && Truthy(password) && |password.value| >= MinPasswordLength
  {
    if !Truthy(name) || !Truthy(email) || !Truthy(password) then Some(MissingFields)
    else if |password.value| < MinPasswordLength then Some(PasswordTooShort)
    else None
  }

  class UserStore {
    var users: seq<User>
    var nextId: UserId

    /** Ids and emails are unique, every id was handed out, and no wishlist holds a duplicate. */
    ghost predicate Valid()
      reads this
    {
      && Unique(users)
      && (forall i :: 0 <= i < |users| ==> users[i].id < nextId)
      && (forall i :: 0 <= i < |users| ==> NoDups(users[i].wishlist))
    }

    constructor ()
      ensures Valid() && users == []
    {
      users := [];
      nextId := 0;
    }

    /** A scan of the collection for the first document the filter selects. */
    method Locate(q: Query) returns (r: Option<nat>)
      ensures r == FindOne(users, q)
    {
      var i := 0;
      while i < |users|
        invariant 0 <= i <= |users|
        invariant forall j :: 0 <= j < i ==> !Matches(users[j], q)
      {
        if Matches(users[i], q) {
          return Some(i);
        }
        i := i + 1;
      }
      return None;
    }

    /** Replaces document `k` by `u`, which keeps its id, email, password and role. */
    method Put(k: nat, u: User)
      requires Valid() && k < |users|
      requires u.id == users[k].id && u.email == users[k].email
      requires u.password == users[k].password && u.role == users[k].role
      requires NoDups(u.wishlist)
      modifies this
      ensures Valid() && Grows(old(users), users) && nextId == old(nextId)
      ensures users == old(users)[k := u]
    {
      users := users[k := u];
    }

    /** `registerUser`: validate, reject a taken email, then create the document. */
    method RegisterUser(name: Option<string>, email: Option<string>, password: Option<string>,
                        hash: string -> string, now: int, sign: (UserId, int) -> string)
      returns (r: Result<Registered, Error>)
      requires Valid()
      modifies this
      ensures Valid() && Grows(old(users), users)
      ensures r.Err? ==> Status(r.error) == 400
      ensures RegistrationError(name, email, password).Some? ==>
                r == Err(RegistrationError(name, email, password).value) && users == old(users) && nextId == old(nextId)
      ensures RegistrationError(name, email, password).None? && FindOne(old(users), ByEmail(email.value)).Some? ==>
                r == Err(EmailRegistered) && users == old(users) && nextId == old(nextId)
      ensures RegistrationError(name, email, password).None? && FindOne(old(users), ByEmail(email.value)).None? ==>
                && r == Ok(Registered(old(nextId), name.value, email.value, Standard, sign(old(nextId), now)))
                && users == old(users) + [NewUser(old(nextId), name.value, email.value, hash(password.value))]
                && nextId == old(nextId) + 1
      ensures r.Ok? ==>
                && FindOne(users, ByEmail(r.value.email)) == Some(|old(users)|)
                && FindOne(users, ById(r.value.id)) == Some(|old(users)|)
    {
      var invalid := RegistrationError(name, email, password);
      if invalid.Some? {
        return Err(invalid.value);
      }
      var existing := Locate(ByEmail(email.value));
      if existing.Some? {
        return Err(EmailRegistered);
      }
      var id := nextId;
      var u := NewUser(id, name.value, email.value, hash(password.value));
      assert FindOne(users, ById(id)).None?;
      FindOneAfterAppend(users, u, ById(id));
      users := users + [u];
      nextId := nextId + 1;
      r := Ok(Registered(id, u.name, u.email, u.role, sign(id, now)));
    }

    /** `loginUser`: both fields present, a document with that email, and a password that `compare` accepts. */
    method LoginUser(email: Option<string>, password: Option<string>,
                     compare: (string, string) -> bool, now: int, sign: (UserId, int) -> string)
      returns (r: Result<LoggedIn, Error>)
      requires Valid()
      ensures r.Err? ==> Status(r.error) == 400
      ensures !Truthy(email) || !Truthy(password) ==> r == Err(MissingCredentials)
      ensures Truthy(email) && Truthy(password) ==>
                match FindOne(users, ByEmail(email.value))
                case None => r == Err(NotSignedUp)
                case Some(k) =>
                  r == if compare(password.value, users[k].password)
                       then Ok(LoggedIn(WithoutPassword(users[k]), sign(users[k].id, now)))
                       else Err(InvalidCredentials)
      ensures r.Ok? <==>
                && Truthy(email) && Truthy(password)
                && exists k :: 0 <= k < |users| && users[k].email == email.value && compare(password.value, users[k].password)
    {
      if !Truthy(email) || !Truthy(password) {
        return Err(MissingCredentials);
      }
      var found := Locate(ByEmail(email.value));
      if found.None? {
        return Err(NotSignedUp);
      }
      var k := found.value;
      var u := users[k];
      if compare(password.value, u.password) {
        r := Ok(LoggedIn(WithoutPassword(u), sign(u.id, now)));
      } else {
        forall j | 0 <= j < |users| && users[j].email == email.value
          ensures !compare(password.value, users[j].password)
        {
          FindOwnRecord(users, j, ByEmail(email.value));
        }
        r := Err(InvalidCredentials);
      }
    }

    /** `getUser`: the document of the authenticated id, without its password. */
    method GetUser(actor: UserId) returns (r: Result<PublicUser, Error>)
      ensures r.Err? ==> Status(r.error) == 400 && Message(r.error) == "User Not Found"
      ensures match FindOne(users, ById(actor))
              case None => r == Err(ProfileNotFound)
              case Some(k) => r == Ok(WithoutPassword(users[k]))
      ensures r.Ok? <==> exists k :: 0 <= k < |users| && users[k].id == actor
    {
      var found := Locate(ById(actor));
      if found.None? {
        return Err(ProfileNotFound);
      }
      r := Ok(WithoutPassword(users[found.value]));
    }

    /** `updateUser`: merge name, phone and address into the authenticated user's document. */
    method UpdateUser(actor: UserId, name: Option<string>, phone: Option<string>, address: Option<string>)
      returns (r: Result<ProfileView, Error>)
      requires Valid()
      modifies this
      ensures Valid() && Grows(old(users), users) && nextId == old(nextId)
      ensures r.Err? ==> Status(r.error) == 404 && Message(r.error) == "User not found"
      ensures match FindOne(old(users), ById(actor))
              case None => r == Err(UserNotFound) && users == old(users)
              case Some(k) =>
                && users == old(users)[k := MergeProfile(old(users)[k], name, phone, address)]
                && r == Ok(ProfileOf(users[k]))
    {
      var found := Locate(ById(actor));
      if found.None? {
        return Err(UserNotFound);
      }
      var k := found.value;
      var u := users[k];
      u := u.(name := OrElse(name, u.name), phone := OrElseOpt(phone, u.phone), address := OrElseOpt(address, u.address));
      Put(k, u);
      r := Ok(ProfileOf(u));
    }

    /** `updatePhoto`: overwrite the photo, whatever the request holds. */
    method UpdatePhoto(actor: UserId, photo: Option<string>) returns (r: Result<ProfileView, Error>)
      requires Valid()
      modifies this
      ensures Valid() && Grows(old(users), users) && nextId == old(nextId)
      ensures r.Err? ==> Status(r.error) == 404 && Message(r.error) == "User not found"
      ensures match FindOne(old(users), ById(actor))
              case None => r == Err(UserNotFound) && users == old(users)
              case Some(k) =>
                && users == old(users)[k := old(users)[k].(photo := photo)]
                && r == Ok(ProfileOf(users[k]))
    {
      var found := Locate(ById(actor));
      if found.None? {
        return Err(UserNotFound);
      }
      var k := found.value;
      var u := users[k].(photo := photo);
      Put(k, u);
      r := Ok(ProfileOf(u));
    }

    /** `saveCart`: replace the cart wholesale. */
    method SaveCart(actor: UserId, items: seq<CartItem>) returns (r: Result<string, Error>)
      requires Valid()
      modifies this
      ensures Valid() && Grows(old(users), users) && nextId == old(nextId)
      ensures r.Err? ==> Status(r.error) == 404 && Message(r.error) == "User not found"
      ensures match FindOne(old(users), ById(actor))
              case None => r == Err(UserNotFound) && users == old(users)
              case Some(k) =>
                && users == old(users)[k := old(users)[k].(cartItems := items)]
                && r == Ok(CartSaved)
    {
      var found := Locate(ById(actor));
      if found.None? {
        return Err(UserNotFound);
      }
      var k := found.value;
      Put(k, users[k].(cartItems := items));
      r := Ok(CartSaved);
    }

    /** `getCart`: the stored cart, exactly as last saved. */
    method GetCart(actor: UserId) returns (r: Result<seq<CartItem>, Error>)
      ensures r.Err? ==> Status(r.error) == 404 && Message(r.error) == "User not found"
      ensures match FindOne(users, ById(actor))
              case None => r == Err(UserNotFound)
              case Some(k) => r == Ok(users[k].cartItems)
      ensures r.Ok? <==> exists k :: 0 <= k < |users| && users[k].id == actor
    {
      var found := Locate(ById(actor));
      if found.None? {
        return Err(UserNotFound);
      }
      r := Ok(users[found.value].cartItems);
    }

    /** `addToWishlist`: `$addToSet` on the document with that email; reports success even when none has it. */
    method AddToWishlist(email: string, product: ProductId) returns (message: string)
      requires Valid()
      modifies this
      ensures Valid() && Grows(old(users), users) && nextId == old(nextId)
      ensures message == WishlistAdded
      ensures match FindOne(old(users), ByEmail(email))
              case None => users == old(users)
              case Some(k) => users == old(users)[k := old(users)[k].(wishlist := AddToSet(old(users)[k].wishlist, product))]
    {
      var found := Locate(ByEmail(email));
      if found.Some? {
        var k := found.value;
        AddToSetKeepsNoDups(users[k].wishlist, product);
        Put(k, users[k].(wishlist := AddToSet(users[k].wishlist, product)));
      }
      message := WishlistAdded;
    }

    /** `removeFromWishlist`: `$pull` on the document with that email; reports success even when none has it. */
    method RemoveFromWishlist(email: string, product: ProductId) returns (message: string)
      requires Valid()
      modifies this
      ensures Valid() && Grows(old(users), users) && nextId == old(nextId)
      ensures message == WishlistRemoved
      ensures match FindOne(old(users), ByEmail(email))
              case None => users == old(users)
              case Some(k) => users == old(users)[k := old(users)[k].(wishlist := Pull(old(users)[k].wishlist, product))]
    {
      var found := Locate(ByEmail(email));
      if found.Some? {
        var k := found.value;
        PullKeepsNoDups(users[k].wishlist, product);
        Put(k, users[k].(wishlist := Pull(users[k].wishlist, product)));
      }
      message := WishlistRemoved;
    }

    /** `getWishlist`, without resolving the ids: `null` when no document has the email. */
    method GetWishlist(email: string) returns (r: Option<WishlistView>)
      requires Valid()
      ensures match FindOne(users, ByEmail(email))
              case None => r == None
              case Some(k) => r == Some(WishlistView(users[k].id, users[k].wishlist))
      ensures r.Some? ==> NoDups(r.value.wishlist)
    {
      var found := Locate(ByEmail(email));
      if found.None? {
        return None;
      }
      var u := users[found.value];
      r := Some(WishlistView(u.id, u.wishlist));
    }
  }
}
