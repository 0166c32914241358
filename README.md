# Blog API: request handling, verified

A Dafny model of the request-handling core of a small blog backend (a Hono
server over a Prisma database) and of the one piece of string logic its
frontend has:

- **Post routes** (`backend/src/routes/posts.ts`): list with pagination,
  get by id, create, update and delete, over the post table, with the
  ownership rule "only the author may edit or delete a post".
- **Auth routes** (`backend/src/routes/auth.ts`): signup, signin and
  signout over the user table.
- **Authentication middleware** (`backend/src/middlewares/auth.ts`): the
  `Authorization: Bearer <token>` gate in front of every post route.
- **Post card excerpt** (`frontend/components/PostCard.tsx`): the first 150
  characters of a post and an ellipsis.

The tables are maps (posts by id, users by email). The collaborators whose
code is not part of this model are values passed in: bcrypt is a `Hasher`
(`hash(password, salt)`, `compare(password, digest)`), the JWT utilities are
a `TokenService` (`issue(claims, now)`, `verify(token, now)`), and zod's
email format check is a predicate `isEmail`. What the handlers rely on
about them is stated as two predicates that the lemmas needing them take as
preconditions: `HashSound` (a digest compares equal to its password) and
`TokenSound` (a token verified when issued gives back its claims). Values
the database or the runtime chooses (new ids, the bcrypt salt, the clock)
are parameters.

Each handler that writes a table is a pure function returning the response
together with the new table (`CreatePost`, `UpdatePost`, `DeletePost`,
`SignupStep`), whose contract states what the route promises, and a method
of a store class (`PostStore`, `UserStore`) that changes its map field in
place, step by step as the handler does, proved equal to that function.
The read-only routes (list, get, signin, signout) and the middleware's
decision are functions; the middleware's write to the request context is a
method on a `Context` object.

Modules: `Http` (wire types and responses), `Services` (collaborators),
`Schema` (the zod field checks), `Gate` (middleware), `Posts`, `Auth`,
`PostCard`, and `Flows` (properties that span the middleware and the
handlers, and a walk-through of signup, signin, create and a foreign edit).

Three behaviours of the code worth knowing:

- Signout is mounted without the authentication middleware
  (`backend/src/routes/auth.ts:111`), so it needs no token; it answers 200
  to anyone.
- Nothing checks `page >= 1`. With a positive limit, page 0 or below gives
  a negative offset, and the database query refuses a negative `skip`, so
  the route answers the generic 500 rather than a validation error.
- An update does not validate that the body supplies any field: an empty
  body succeeds and changes nothing.

## Model

| member | source | states |
|---|---|---|
| Schema.RequiredString | backend/src/routes/posts.ts:15-16 | a required string field passes exactly when present, a string, and at least `min` long; otherwise one issue on that field |
| Schema.OptionalString | backend/src/routes/posts.ts:20-21 | an optional string field passes exactly when absent or a string of at least `min` characters |
| Schema.EmailString | backend/src/routes/auth.ts:11 | an email field passes exactly when present, a string, and accepted by the email check |
| Posts.ParseNewPost | backend/src/routes/posts.ts:14-17 | `createPostSchema` accepts exactly an object with non-empty string title and content, yields those two strings and nothing else (no author), and rejects with at least one issue |
| Posts.ParsePatch | backend/src/routes/posts.ts:19-22 | `updatePostSchema` accepts exactly an object whose title and content, where present, are non-empty strings; it yields the supplied ones only |
| Posts.ApplyPatch | backend/src/routes/posts.ts:145-147 | an update writes the supplied fields and keeps the others; author and creation time never change |
| Posts.CeilDiv | backend/src/routes/posts.ts:54 | `totalPages * limit >= total` and `(totalPages - 1) * limit < total`: integer ceiling of total/limit |
| Posts.CeilDivIsLeast | backend/src/routes/posts.ts:54 | no smaller page count holds all posts |
| Posts.NewestFirst | backend/src/routes/posts.ts:32-35 | the listing order contains every post exactly once and is non-increasing in `createdAt`; posts with equal `createdAt` get one fixed order shared by every page query |
| Posts.Window | backend/src/routes/posts.ts:33-34 | `skip`/`take` return at most `take` consecutive elements from position `skip`, none past the end |
| Posts.PagePostsShape | backend/src/routes/posts.ts:31-46 | a page holds at most `limit` stored posts, distinct, newest first; an offset past the end gives an empty page |
| Posts.OffsetSign | backend/src/routes/posts.ts:29 | with a positive limit, `skip = (page-1)*limit` is non-negative exactly from page 1 on |
| Posts.ListDefaults | backend/src/routes/posts.ts:27-29 | absent query parameters mean page 1 and limit 10: the ten newest posts, with that pagination |
| Posts.ListPosts | backend/src/routes/posts.ts:25-60 | a listing is either the generic 500 or a 200 page of at most `limit` posts with pagination `{page, limit, total, ceil(total/limit)}`; the lemmas `ListShape`, `ListDefaults`, `ListBeyondLastPage` and `ListReachesEveryPost` state the rest |
| Posts.ListShape | backend/src/routes/posts.ts:25-60 | list answers 200 exactly for page >= 1 (else the generic 500), with at most `limit` stored posts newest first and pagination `{page, limit, total, ceil(total/limit)}` |
| Posts.ListBeyondLastPage | backend/src/routes/posts.ts:31-56 | a page beyond `totalPages` is 200 with an empty list and the pagination data, not an error |
| Posts.ListReachesEveryPost | backend/src/routes/posts.ts:31-46 | no author filter: every post is listed on some page between 1 and `totalPages` |
| Posts.ListedOnItsPage | backend/src/routes/posts.ts:31-46 | the post at position `i` of the order appears on the page whose offset range holds `i` |
| Posts.GetPost | backend/src/routes/posts.ts:64-89 | 404 "Post not found" exactly when the id is absent, otherwise 200 with the stored post |
| Posts.CreatePost | backend/src/routes/posts.ts:92-122 | 201 exactly for a valid body and a free id; then one post is added whose author is the caller; an unparsable body and a taken id get the generic 500, an invalid body 400 with its issues; every outcome but 201 leaves the table unchanged |
| Posts.UpdatePost | backend/src/routes/posts.ts:125-166 | validation first (400), then 404 if absent, then 403 if the caller is not the author; every rejection leaves the table unchanged; success rewrites only the supplied fields of that one post |
| Posts.DeletePost | backend/src/routes/posts.ts:169-196 | 404 if absent, 403 if the caller is not the author, both leaving the table unchanged; success removes exactly that id and keeps every other post |
| Posts.CreateIgnoresBodyAuthor | backend/src/routes/posts.ts:96-103 | an `authorId` in the body, whatever its value, does not change the outcome of a create |
| Posts.EmptyPatchChangesNothing | backend/src/routes/posts.ts:145-147 | the author's update with an empty body succeeds and leaves the table as it was |
| Posts.CreateThenGet | backend/src/routes/posts.ts:98-114 | a post just created reads back with the title and content sent, the caller as author and the creation time |
| Posts.PostStore.Create | backend/src/routes/posts.ts:92-122 | the in-place create answers and changes the table as `CreatePost` says |
| Posts.PostStore.Update | backend/src/routes/posts.ts:125-166 | the in-place update answers and changes the table as `UpdatePost` says |
| Posts.PostStore.Delete | backend/src/routes/posts.ts:169-196 | the in-place delete answers and changes the table as `DeletePost` says |
| Auth.ParseSignup | backend/src/routes/auth.ts:10-13 | `signupSchema` accepts exactly an object with an email the check accepts and a password of at least 6 characters |
| Auth.ParseSignin | backend/src/routes/auth.ts:15-18 | `signinSchema` accepts exactly an object with an email the check accepts and any string password |
| Auth.SignupStep | backend/src/routes/auth.ts:21-65 | an invalid body gets 400 with its issues whatever the table holds; a registered email gets 400 "User already exists" whatever the password; a taken id gets the generic 500; 201 exactly otherwise, adding one user whose hash is `hash(password, salt)` and answering a token for `{userId, email}` and the user without its hash; no failure changes the table |
| Auth.SignupKeepsTableWellKeyed | backend/src/routes/auth.ts:27-44 | signup keeps every user under its own email and all ids distinct |
| Auth.Signin | backend/src/routes/auth.ts:68-108 | 200 exactly when the email is registered and `compare(password, hash)` holds; an unknown email and a wrong password get the identical 401 "Invalid credentials"; the table is only read |
| Auth.Signout | backend/src/routes/auth.ts:111-115 | always 200 "Signed out successfully", whoever calls it, reading and changing nothing |
| Auth.SigninIdentifiesOneUser | backend/src/routes/auth.ts:68-108 | on a well-keyed table a signin returns the user registered under the email sent, and no other registered email carries its id |
| Auth.UserStore.Signup | backend/src/routes/auth.ts:21-65 | the in-place signup answers and changes the table as `SignupStep` says and keeps it well keyed |
| Gate.BearerToken | backend/src/middlewares/auth.ts:7-11 | a token is extracted exactly when the header is present and starts with `Bearer `; the header is then `Bearer ` followed by the token |
| Gate.BearerRoundTrip | backend/src/middlewares/auth.ts:11 | a header built as `Bearer ${token}` yields exactly that token |
| Gate.LowerCaseSchemeRefused | backend/src/middlewares/auth.ts:7 | the prefix check is case-sensitive |
| Gate.Decide | backend/src/middlewares/auth.ts:4-19 | a missing or malformed header gives 401 "No token provided"; a token that fails verification gives 401 "Invalid token"; it admits exactly for a `Bearer ` header whose token verifies, with the verified claims |
| Gate.RejectionsDiffer | backend/src/middlewares/auth.ts:7-16 | both rejections are 401 and their messages differ |
| Gate.AuthMiddleware | backend/src/middlewares/auth.ts:4-20 | `next` is called exactly when the decision admits, and then the context's user is the verified claims; otherwise the context is unchanged; nothing else is written |
| PostCard.Excerpt | frontend/components/PostCard.tsx:22-23 | content of at most 150 characters is shown whole with no ellipsis; longer content shows its first 150 characters followed by `...`; never more than 153 characters |
| PostCard.ExcerptIsPrefixThenEllipsis | frontend/components/PostCard.tsx:22-23 | the excerpt is a prefix of the content followed by `...` exactly when that prefix is shorter than the content |
| PostCard.ExcerptOnlySeesFirstCharacters | frontend/components/PostCard.tsx:22-23 | two long contents that share their first 150 characters have the same excerpt |
| Flows.SigninAfterSignup | backend/src/routes/auth.ts:36-100 | under `HashSound`, signing in with the body of a successful signup succeeds and shows the new user |
| Flows.SigninTokenPassesGate | backend/src/middlewares/auth.ts:11-19 | under `TokenSound`, the token of a successful signin, sent as `Bearer <token>`, is admitted with that user's id and email |
| Flows.ForeignTokenCannotMutate | backend/src/routes/posts.ts:137-185 | a token issued to one user never lets it update or delete another user's post: 403 and the table unchanged |
| Flows.SignUpTwoUsers | backend/src/routes/auth.ts:21-100 | two signups and a signin produce tokens the middleware admits with each user's own claims |
| Flows.Walkthrough | backend/src/routes/posts.ts:92-166 | signup, signin and create give a 201 post authored by the creator; another user's edit of it is 403 |

## Left out

- The nested `author: {id, email}` summary the post routes attach: it is a join with the user table, which the post handlers do not otherwise use; responses carry `authorId`.
- `updatedAt`: the timestamp is managed by the database schema, which is not part of this model; no claim is made that an update bumps it.
- Concurrency: the list route's two parallel queries are one snapshot, and the signup check-then-create race (decided by the database's unique constraint) is not modelled.
- Query strings are taken as already parsed integers: `parseInt` returning `NaN`, and the floating-point behaviour of `Math.ceil(total / limit)` on huge values, are not modelled; `page`, `limit` and `skip = (page - 1) * limit` are JavaScript numbers and the database accepts `skip`/`take` only within a bounded integer range, so `ListShape`'s "200 exactly for page >= 1" holds only while `(page - 1) * limit` stays within that range.
- Posts.NewestFirst: posts with the same `createdAt` are ordered once and every page query is taken to use that order; the database promises no stable order among ties across separate `skip`/`take` queries, so with ties `ListReachesEveryPost` holds only under that assumption.
- Posts.ListPosts, Posts.ListShape and the other list lemmas (`OffsetSign`, `ListBeyondLastPage`, `ListReachesEveryPost`, `ListedOnItsPage`): require a positive limit; with `limit <= 0` the source divides by zero or passes a negative `take` to the database, which is not modelled.
- Store failures other than an id collision (connection errors, a foreign key to a deleted user) and `console.error` logging: the one opaque 500 outcome stands for an unparsable JSON body and an id the store refuses.
- The internals of bcrypt, JWT signing and expiry, and zod's email pattern: they are the `Hasher`, `TokenService` and `isEmail` parameters; the exact wording of zod's issue messages is reduced to a `Problem` code per field.
- String lengths count Dafny characters, while JavaScript's `length`, `substring` and zod's `min` count UTF-16 code units; they differ only outside the Basic Multilingual Plane.
- Routing, CORS, the server start-up and the generic 404 and 500 handlers in `backend/src/index.ts`, and the frontend's pages, forms and date formatting.
