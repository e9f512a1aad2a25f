/** The user document, the views of it the handlers send back, and how a record is found. */
module Users {
  import opened JsValues
  import opened Wishlist

  /** The document `_id`; the store hands out fresh ones. */
  type UserId = nat

  /** The role field; its default comes from the user schema. */
  datatype Role = Standard | Admin

  /** One line of the cart as the client sends it. */
  datatype CartItem = CartItem(product: ProductId, quantity: int)

  /** A stored user document. `password` holds what the schema stored for the raw password. */
  datatype User = User(
    id: UserId,
    name: string,
    email: string,
    password: string,
    role: Role,
    phone: Option<string>,
    address: Option<string>,
    photo: Option<string>,
    cartItems: seq<CartItem>,
    wishlist: seq<ProductId>)

  /** A user document read with `.select("-password")`: every field but the password. */
  datatype PublicUser = PublicUser(
    id: UserId,
    name: string,
    email: string,
    role: Role,
    phone: Option<string>,
    address: Option<string>,
    photo: Option<string>,
    cartItems: seq<CartItem>,
    wishlist: seq<ProductId>)

  /** The six fields `updateUser` and `updatePhoto` answer with. */
  datatype ProfileView = ProfileView(
    id: UserId,
    name: string,
    email: string,
    phone: Option<string>,
    photo: Option<string>,
    address: Option<string>)

  function WithoutPassword(u: User): PublicUser
  {
    PublicUser(u.id, u.name, u.email, u.role, u.phone, u.address, u.photo, u.cartItems, u.wishlist)
  }

  function ProfileOf(u: User): ProfileView
  {
    ProfileView(u.id, u.name, u.email, u.phone, u.photo, u.address)
  }

  /** Projecting out the password loses the password and nothing else. */
  lemma WithoutPasswordForgetsOnlyPassword(u: User, v: User)
    ensures WithoutPassword(u) == WithoutPassword(v) <==> u.(password := v.password) == v
  {
  }

  /** A freshly created document: empty cart and wishlist, profile scalars unset, default role. */
  function NewUser(id: UserId, name: string, email: string, password: string): User
  {
    User(id, name, email, password, Standard, None, None, None, [], [])
  }

  /** `value || fallback` for the required `name` field. */
  function OrElse(value: Option<string>, fallback: string): string
  {
    if Truthy(value) then value.value else fallback
  }

  /** `value || fallback` for an optional profile field. */
  function OrElseOpt(value: Option<string>, fallback: Option<string>): Option<string>
  {
    if Truthy(value) then value else fallback
  }

  /** The profile merge of `updateUser`. */
  function MergeProfile(u: User, name: Option<string>, phone: Option<string>, address: Option<string>): User
  {
    u.(name := OrElse(name, u.name), phone := OrElseOpt(phone, u.phone), address := OrElseOpt(address, u.address))
  }

  /** Each of name, phone and address takes the request value when it is truthy and keeps the old one otherwise;
      every other field is untouched. */
  lemma MergeProfileFields(u: User, name: Option<string>, phone: Option<string>, address: Option<string>)
    ensures var v := MergeProfile(u, name, phone, address);
      && (Truthy(name) ==> v.name == name.value) && (!Truthy(name) ==> v.name == u.name)
      && (Truthy(phone) ==> v.phone == phone) && (!Truthy(phone) ==> v.phone == u.phone)
      && (Truthy(address) ==> v.address == address) && (!Truthy(address) ==> v.address == u.address)
      && v.(name := u.name, phone := u.phone, address := u.address) == u
  {
  }

  /** Sending the same update twice has the effect of sending it once. */
  lemma MergeProfileIdempotent(u: User, name: Option<string>, phone: Option<string>, address: Option<string>)
    ensures MergeProfile(MergeProfile(u, name, phone, address), name, phone, address) == MergeProfile(u, name, phone, address)
  {
  }

  /** The two Mongo filters the handlers use: `findById(id)` and `findOne({ email })`. */
  datatype Query = ById(id: UserId) | ByEmail(email: string)

  predicate Matches(u: User, q: Query)
  {
    match q
    case ById(id) => u.id == id
    case ByEmail(email) => u.email == email
  }

  /** The position of the first document, in store order, that the filter selects. */
  function FindOne(users: seq<User>, q: Query): (r: Option<nat>)
    ensures r.Some? ==> r.value < |users| && Matches(users[r.value], q)
    ensures r.Some? ==> forall j :: 0 <= j < r.value ==> !Matches(users[j], q)
    ensures r.None? <==> forall j :: 0 <= j < |users| ==> !Matches(users[j], q)
  {
    if users == [] then None
    else if Matches(users[0], q) then Some(0)
    else match FindOne(users[1..], q)
      case None => None
      case Some(k) => Some(k + 1)
  }

  /** No two documents share an id or an email. */
  ghost predicate Unique(users: seq<User>)
  {
    forall i, j :: 0 <= i < j < |users| ==> users[i].id != users[j].id && users[i].email != users[j].email
  }

  /** Under uniqueness, the document whose id or email a filter names is the one the filter finds. */
  lemma FindOwnRecord(users: seq<User>, k: nat, q: Query)
    requires Unique(users) && k < |users| && Matches(users[k], q)
    ensures FindOne(users, q) == Some(k)
  {
  }

  /** Rewriting one document without touching its id or email changes what no filter finds. */
  lemma {:induction false} FindOneAfterUpdate(users: seq<User>, k: nat, u: User, q: Query)
    requires k < |users| && u.id == users[k].id && u.email == users[k].email
    ensures FindOne(users[k := u], q) == FindOne(users, q)
  {
    var after := users[k := u];
    assert Matches(after[0], q) == Matches(users[0], q);
    if k == 0 {
      assert after[1..] == users[1..];
    } else {
      assert after[1..] == users[1..][k - 1 := u];
      FindOneAfterUpdate(users[1..], k - 1, u, q);
    }
  }


  /** Appending a document keeps every earlier find, and a filter that found nothing before finds the new one if it matches. */
  lemma {:induction false} FindOneAppend(users: seq<User>, u: User, q: Query)
    ensures FindOne(users + [u], q) ==
              if FindOne(users, q).Some? then FindOne(users, q)
              else if Matches(u, q) then Some(|users|)
              else None
  {
    var after := users + [u];
    if users == [] {
      assert after == [u];
    } else {
      assert after[0] == users[0] && after[1..] == users[1..] + [u];
      FindOneAppend(users[1..], u, q);
    }
  }

  /** Appending a document whose id and email are new: earlier finds are kept, and the new one is found by both keys. */
  lemma FindOneAfterAppend(users: seq<User>, u: User, q: Query)
    requires FindOne(users, ById(u.id)).None? && FindOne(users, ByEmail(u.email)).None?
    ensures FindOne(users, q).Some? ==> FindOne(users + [u], q) == FindOne(users, q)
    ensures FindOne(users + [u], ById(u.id)) == Some(|users|)
    ensures FindOne(users + [u], ByEmail(u.email)) == Some(|users|)
  {
    FindOneAppend(users, u, q);
    FindOneAppend(users, u, ById(u.id));
    FindOneAppend(users, u, ByEmail(u.email));
  }

  /** Documents are never deleted, and id, email, password and role never change. */
  ghost predicate Grows(before: seq<User>, after: seq<User>)
  {
    && |before| <= |after|
    && forall i :: 0 <= i < |before| ==>
         && after[i].id == before[i].id && after[i].email == before[i].email
         && after[i].password == before[i].password && after[i].role == before[i].role
  }
}
