# User store of the shopify backend, in Dafny

This project models the per-user state logic of the storefront backend's user controller: registration, login,
profile read and update, photo overwrite, cart replacement and read-back, the wishlist's set-insert and remove,
and the login-status probe. The MongoDB `User` collection becomes the class `Store.UserStore`, holding the
documents as a sequence in store order and the next fresh `_id`. Each request handler is a method of that class.
A method that changes the collection states the whole new collection in terms of the old one. A method that only
reads states what it answers.

Modules:

- `JsValues`: `Option`, `Result`, and `Truthy`, which is how JavaScript's `!x` reads a request field
  (`undefined` and `""` are falsy).
- `Wishlist`: MongoDB's `$addToSet` and `$pull` on a list of product ids, with their set laws.
- `Users`: the user document, the password-free views the handlers answer with, the `updateUser` merge,
  and `FindOne`, the first document selected by `findById(id)` or `findOne({ email })`.
- `Store`: the collection with its invariant and the handlers. The invariant says ids and emails are
  unique, every id was handed out, and no wishlist holds a duplicate.
- `Session`: `getLoginStatus`, as written and corrected (see Findings).
- `Scenarios`: request sequences that use only the handlers' contracts: registering twice, registering
  then logging in, replacing a cart twice, and adding a product twice then removing it.

The foreign libraries become function-typed parameters:

- `sign` stands for `generateToken`, which calls `jwt.sign`. It takes the user id and the issue time in seconds, which each registering or login request supplies, because `jwt.sign` embeds that time in the token.
- `verify` stands for `jwt.verify`.
- `compare` stands for `bcrypt.compare`.
- `hash` stands for the password transformation the user schema applies when a document is created.
  The schema (models/userModel) is not part of this model.

The request's authenticated user is a parameter, because the `protect` middleware that sets `req.user` is not part
of this model. Profile and cart handlers take its id, as the code does at lines 123, 151, 177, 197 and 211. The
wishlist handlers take its email, as the code does at lines 226, 237 and 246. `Users.FindOwnRecord` shows that while
emails are unique, both keys select the same document.

The model follows the code in these places:

- `getLoginStatus` throws, and does not answer `false`, when `jwt.verify` rejects the token.
- The wishlist is matched by email, not by id.
- An empty string in `updateUser` keeps the old value, as `||` does.
- `getUser` fails with status 400; `updateUser`, `updatePhoto`, `saveCart` and `getCart` fail with 404.
- The wishlist is an ordered list kept free of duplicates, not a set.

## Model

| member | source | states |
|---|---|---|
| Wishlist.AddToSet | controllers/userController.js:225-228 | `$addToSet`: the list is unchanged when the id is already there, and is the old list with the id appended otherwise; so it holds exactly the old ids plus the new one |
| Wishlist.Pull | controllers/userController.js:236-239 | `$pull`: the result holds exactly the old ids other than the removed one, with every copy of it gone (multiset), and is the old list when the id was absent |
| Wishlist.AddToSetIdempotent | controllers/userController.js:227 | adding an id a second time changes nothing |
| Wishlist.AddToSetKeepsNoDups | controllers/userController.js:227 | `$addToSet` never creates a duplicate |
| Wishlist.PullKeepsNoDups | controllers/userController.js:238 | `$pull` never creates a duplicate |
| Wishlist.PullIdempotent | controllers/userController.js:238 | removing twice is removing once |
| Wishlist.PullAfterAdd | controllers/userController.js:225-239 | removing an id after adding it gives the same list as only removing it |
| Wishlist.AddTwiceRemoveOnce | controllers/userController.js:225-239 | from an empty wishlist, two adds of one id give a single copy, and one remove then empties it |
| Wishlist.NoDupsCountsOne | controllers/userController.js:227 | in a wishlist without duplicates, an id that is present occurs exactly once |
| Users.WithoutPasswordForgetsOnlyPassword | controllers/userController.js:100 | `.select("-password")` drops the password and no other field |
| Users.MergeProfileFields | controllers/userController.js:155-157 | name, phone and address each take the request value when it is truthy and keep the old value otherwise; nothing else in the document changes |
| Users.MergeProfileIdempotent | controllers/userController.js:155-157 | sending the same profile update twice has the effect of sending it once |
| Users.FindOne | controllers/userController.js:26 | the result is the first document, in store order, that the id or email filter selects, and it is absent exactly when no document matches |
| Users.FindOwnRecord | controllers/userController.js:226 | with unique ids and emails, looking up a document's own id or email finds that document |
| Users.FindOneAfterUpdate | controllers/userController.js:199-201 | rewriting a document while keeping its id and email leaves every lookup's result unchanged |
| Users.FindOneAppend | controllers/userController.js:34 | appending a document keeps every earlier lookup's result, and a lookup that found nothing before finds the new document exactly when it matches |
| Users.FindOneAfterAppend | controllers/userController.js:34-38 | creating a document with a new id and email keeps earlier lookups, and the new document is found by both its id and its email |
| Store.RegistrationError | controllers/userController.js:17-24 | missing fields are reported when name, email or password is falsy; a short password is reported when all are present and the password is under 6 characters; otherwise validation passes |
| Store.UserStore.Locate | controllers/userController.js:73 | the scan of the collection returns the first matching document, as `FindOne` specifies |
| Store.UserStore.RegisterUser | controllers/userController.js:13-60 | on a validation error or a taken email, fails with status 400 and leaves the store unchanged; otherwise appends exactly one new document and returns its id, name, email, role and a token signed for the new id at the request time; the new document is then found by both its email and its id; the invariant is kept |
| Store.UserStore.LoginUser | controllers/userController.js:63-107 | fails with status 400 on a missing field, an unknown email or a rejected password; on success returns the stored document without its password, plus a token signed for its id at the request time; succeeds exactly when some document has that email and a password `compare` accepts; the store is not modified |
| Store.UserStore.GetUser | controllers/userController.js:122-132 | returns the authenticated user's document without its password, and fails with 400 "User Not Found" exactly when no document has that id |
| Store.UserStore.UpdateUser | controllers/userController.js:150-172 | merges name, phone and address into that user's document only, answers with the six profile fields, and on a missing user returns 404 with nothing changed |
| Store.UserStore.UpdatePhoto | controllers/userController.js:175-192 | sets the photo to the request value, even when that value is absent; changes nothing else; on a missing user returns 404 with nothing changed |
| Store.UserStore.SaveCart | controllers/userController.js:195-207 | replaces that user's cart with the given items and changes no other field or user; on a missing user returns 404 with nothing changed |
| Store.UserStore.GetCart | controllers/userController.js:210-219 | returns the stored cart as it is, and fails with 404 "User not found" exactly when no document has that id |
| Store.UserStore.AddToWishlist | controllers/userController.js:222-231 | applies `$addToSet` to the wishlist of the document with that email, changes nothing when there is none, and always reports success |
| Store.UserStore.RemoveFromWishlist | controllers/userController.js:234-242 | applies `$pull` to the wishlist of the document with that email, changes nothing when there is none, and always reports success |
| Store.UserStore.GetWishlist | controllers/userController.js:245-251 | returns the id and stored wishlist of the document with that email, or null when there is none; the list has no duplicates |
| Session.LoginStatusAsWritten | controllers/userController.js:135-147 | an absent or empty token answers `false`; the answer is `true` exactly when the token decodes to a truthy payload; the handler throws exactly when `jwt.verify` throws |
| Session.AsWrittenThrowsOnBadToken | controllers/userController.js:142 | a cookie holding a token that does not verify makes the handler throw |
| Session.LoginStatus | controllers/userController.js:135-147 | the status is `true` exactly when a non-empty token is present and decodes to a truthy payload; there is no error case |
| Session.LoginStatusRefinesAsWritten | controllers/userController.js:143-146 | the corrected status equals the written handler's answer wherever that handler answers, and is `false` wherever it throws |
| Scenarios.RegisterTwice | controllers/userController.js:26-30 | after a successful registration, a second one with the same email fails with "Email has already been registered" and the store holds exactly one more document |
| Scenarios.RegisterThenLogin | controllers/userController.js:81-102 | when `compare` accepts a password against its stored form, logging in right after registering returns the new document without its password, and a token signed for its id at the login time |
| Scenarios.ReplaceCartTwice | controllers/userController.js:195-219 | saving one cart and then another leaves exactly the second, never a merge of the two |
| Scenarios.RepeatWishlistRequests | controllers/userController.js:222-251 | after two adds of one product the wishlist holds it exactly once; after one remove it holds it no more |

## Findings

| source | as written | input that shows it | evidently intended | confidence | as-written member | corrected member |
|---|---|---|---|---|---|---|
| controllers/userController.js:142-146 | `jwt.verify` throws on a token it rejects, so the handler fails with an error and the `false` branch at line 146 is never taken for such a token | a `token` cookie holding `"not-a-jwt"` | answer `false` for a token that does not verify, as line 146 does | medium; not executed | Session.AsWrittenThrowsOnBadToken | Session.LoginStatus |

## Left out

- `logout`: it only overwrites the cookie, which is HTTP plumbing. Cookie attributes, status-code plumbing through `res`, and the async error wrapper are left out for the same reason.
- Token contents and expiry: `generateToken` and `jwt.verify` are the parameters `sign` and `verify`. A token is a function of the user id and the issue time only; the one-day lifetime and the signing secret are not modelled.
- Password checking: `bcrypt.compare` is the parameter `compare`. Hashing by the user schema is the parameter `hash`; models/userModel is not part of this model.
- Schema defaults and validation: models/userModel is not part of this model. A new document gets role `Standard`, no phone, address or photo, and empty cart and wishlist. Validation errors from `save()` are not modelled.
- Request fields that are JSON objects, numbers or arrays are not modelled; every field is an optional string. An absent `cartItems` or `productId` is not modelled either.
- Password length is counted in Dafny characters. JavaScript counts UTF-16 code units, so the two differ for characters outside the Basic Multilingual Plane.
- Store.UserStore.GetWishlist: returns the stored product ids, not the product documents `populate` resolves them to, because the product collection is not part of this model.
- Store.UserStore.SaveCart: the missing `await` on `user.save()` at line 201 is not modelled; the save completes before the answer.
- Concurrency: interleaved requests and last-writer-wins races between them are not modelled; every handler runs to completion in turn.
- The `protect` middleware, which resolves the token to `req.user`, is not part of this model. Handlers take the user's id or email as a parameter.
- utils/index.js (price arithmetic in floating point, a Stripe client), the route tables and server.js are not part of this model.
