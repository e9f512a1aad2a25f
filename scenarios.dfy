/** Sequences of requests against one store, and what their contracts let a client conclude. */
module Scenarios {
  import opened JsValues
  import opened Wishlist
  import opened Users
  import opened Store

  /** A second registration with the same email is refused, and the store keeps the first. */
  method RegisterTwice(store: UserStore, name: Option<string>, email: Option<string>, password: Option<string>,
                       hash: string -> string, firstAt: int, secondAt: int, sign: (UserId, int) -> string)
    returns (first: Result<Registered, Error>, second: Result<Registered, Error>)
    requires store.Valid()
    modifies store
    ensures store.Valid()
    ensures first.Ok? ==> second == Err(EmailRegistered) && |store.users| == |old(store.users)| + 1
  {
    first := store.RegisterUser(name, email, password, hash, firstAt, sign);
    second := store.RegisterUser(name, email, password, hash, secondAt, sign);
  }

  /** Registering and then logging in with the same credentials yields the new document, without its password,
      and a token signed for its id at the login time. */
  method RegisterThenLogin(store: UserStore, name: Option<string>, email: Option<string>, password: Option<string>,
                           hash: string -> string, compare: (string, string) -> bool,
                           registeredAt: int, loginAt: int, sign: (UserId, int) -> string)
    returns (registered: Result<Registered, Error>, login: Result<LoggedIn, Error>)
    requires store.Valid()
    requires password.Some? ==> compare(password.value, hash(password.value))
    modifies store
    ensures store.Valid()
    ensures registered.Ok? ==>
              && login.Ok? && password.Some?
              && login.value.user == WithoutPassword(NewUser(registered.value.id, registered.value.name, registered.value.email, hash(password.value)))
              && login.value.token == sign(registered.value.id, loginAt)
  {
    registered := store.RegisterUser(name, email, password, hash, registeredAt, sign);
    login := store.LoginUser(email, password, compare, loginAt, sign);
  }

  /** Saving `first` and then `second` leaves exactly `second`: the cart is replaced, never merged. */
  method ReplaceCartTwice(store: UserStore, actor: UserId, first: seq<CartItem>, second: seq<CartItem>)
    returns (r: Result<seq<CartItem>, Error>)
    requires store.Valid()
    modifies store
    ensures store.Valid()
    ensures FindOne(old(store.users), ById(actor)).Some? ==> r == Ok(second)
    ensures FindOne(old(store.users), ById(actor)).None? ==> r == Err(UserNotFound) && store.users == old(store.users)
  {
    ghost var before := store.users;
    var _ := store.SaveCart(actor, first);
    ghost var middle := store.users;
    if FindOne(before, ById(actor)).Some? {
      var k := FindOne(before, ById(actor)).value;
      FindOneAfterUpdate(before, k, middle[k], ById(actor));
    }
    var _ := store.SaveCart(actor, second);
    if FindOne(before, ById(actor)).Some? {
      var k := FindOne(before, ById(actor)).value;
      FindOneAfterUpdate(middle, k, store.users[k], ById(actor));
    }
    r := store.GetCart(actor);
  }

  /** Adding a product twice keeps one copy; removing it once then leaves none. */
  method RepeatWishlistRequests(store: UserStore, email: string, product: ProductId)
    returns (afterAdds: Option<WishlistView>, afterRemove: Option<WishlistView>)
    requires store.Valid()
    modifies store
    ensures store.Valid()
    ensures FindOne(old(store.users), ByEmail(email)).None? ==> afterAdds == None && afterRemove == None
    ensures afterAdds.Some? ==> multiset(afterAdds.value.wishlist)[product] == 1
    ensures afterRemove.Some? ==> product !in afterRemove.value.wishlist
    ensures FindOne(old(store.users), ByEmail(email)).Some? ==>
              && afterAdds.Some? && afterRemove.Some?
              && afterRemove.value.wishlist == Pull(old(store.users)[FindOne(old(store.users), ByEmail(email)).value].wishlist, product)
  {
    ghost var before := store.users;
    var _ := store.AddToWishlist(email, product);
    ghost var once := store.users;
    var _ := store.AddToWishlist(email, product);
    ghost var twice := store.users;
    afterAdds := store.GetWishlist(email);
    if FindOne(before, ByEmail(email)).Some? {
      var k := FindOne(before, ByEmail(email)).value;
      FindOneAfterUpdate(before, k, once[k], ByEmail(email));
      FindOneAfterUpdate(once, k, twice[k], ByEmail(email));
      AddToSetIdempotent(before[k].wishlist, product);
      assert product in twice[k].wishlist;
      NoDupsCountsOne(twice[k].wishlist, product);
    }
    var _ := store.RemoveFromWishlist(email, product);
    afterRemove := store.GetWishlist(email);
    if FindOne(before, ByEmail(email)).Some? {
      var k := FindOne(before, ByEmail(email)).value;
      FindOneAfterUpdate(twice, k, store.users[k], ByEmail(email));
      PullAfterAdd(before[k].wishlist, product);
    }
  }
}
