# BlogTonic gateway: authorization and identity core

A Dafny model of the decision logic of the BlogTonic GraphQL gateway. The
gateway serves blog posts from its own document store and forwards user
operations to a separate identity service over HTTP. The model covers:

- **Identity extraction** (`IdentityExtraction`). This is the GraphQL context
  builder. It takes the optional `Authorization` header, takes its second
  space-separated field as the token, and asks an injected verifier for the
  claims. It returns the anonymous identity `{id: "", token: "", isAdmin: false}`
  on every failure it handles. JavaScript's `split(' ')` is modelled exactly
  (`Strings.Split`, with its inverse `Strings.Join`).
- **The Express authentication middleware** (`AuthMiddleware`). It is modelled
  as the sequence of calls it makes to `next`.
- **The user resolvers** (`UserResolver`). Each one is a token guard (only on
  `updateUser` and `deleteUser`), then one HTTP request, then the translation
  of the response's `ok` flag. The identity service is an injected function
  from request to response, and body JSON is passed through as text.
- **The post resolvers** (`PostModel`, `PostResolver`). The four queries are
  pure filters over the store map. The seven mutations are methods of the class
  `PostStore`, which holds the posts as a `map<PostId, Post>`. The class
  invariant `Valid()` says that no post's `likes` holds the same user twice;
  every mutation keeps it. The client methods `LikeUnlikeScenario` and
  `OwnershipScenario` replay the like/unlike sequence and the ownership checks
  of the HTTP tests, using the method contracts alone.

In these places the code does something a reader might not expect, and the model follows the code:

- `postById` on a missing id returns null, not a `NOT_FOUND` error.
- `updatePostAsAdmin` and `deletePostAsAdmin` do no existence check. A missing
  id gives a null result and no error.
- `likePost` does no token check.
- `deleteUser` deletes no posts.
- No admin user mutation and no `Post.author` field resolver exist in the code.

## Model

| member | source | states |
|---|---|---|
| Types.Truthy | src/functions/authenticate.ts:9 | the `!bearer` and `!token` guards (also at line 19 and src/middlewares/authenticate.ts:21): a missing or empty string is rejected, and only a non-empty string passes |
| Types.HasToken | src/api/resolvers/postResolver.ts:36 | the `!token` guard (also at postResolver.ts:53, 91, 185 and userResolver.ts:84, 113) passes only for a non-empty token, so never for the anonymous identity |
| Types.IsAdmin | src/api/resolvers/postResolver.ts:121 | the guard that rejects on `!token` or `!isAdmin` (also at line 142) passes only with both a token and the admin flag, so never for the anonymous identity |
| Strings.Split | src/functions/authenticate.ts:17 | `split(' ')` always yields at least one piece, and no piece contains a space |
| Strings.JoinSplit | src/functions/authenticate.ts:17 | joining the pieces with single spaces gives back the original header |
| Strings.SplitJoin | src/middlewares/authenticate.ts:28 | splitting a join of space-free pieces gives back exactly those pieces |
| Strings.TokenField | src/functions/authenticate.ts:17 | `split(' ')[1]` is undefined exactly when the string has no space; otherwise it is the second piece of the split, which has no space in it (the same expression is at src/middlewares/authenticate.ts:28) |
| Strings.TokenFieldOf | src/functions/authenticate.ts:17 | `split(' ')[1]` of `scheme + " " + t + rest` is `t` when `scheme` and `t` have no spaces and `rest` is empty or starts with a space |
| Strings.BearerRoundTrip | src/api/resolvers/userResolver.ts:94 | `"Bearer " + token` yields `token` back under `split(' ')[1]` |
| IdentityExtraction.RawToken | src/functions/authenticate.ts:8-25 | a token is extracted exactly when the header and its second field are both non-empty; the extracted token is that field, `split(' ')[1]` of the header, and is non-empty and space-free |
| IdentityExtraction.Authenticate | src/functions/authenticate.ts:5-43 | anonymous when the header is missing or empty, when the second field is absent or empty, or when the verifier gives no claims; otherwise `id` and `isAdmin` come from the claims and `token` is the raw token; the token is non-empty exactly when one was extracted and verified |
| IdentityExtraction.BearerHeader | src/functions/authenticate.ts:17-42 | a `Bearer <token>` header with a verified token gives exactly the claims carrying that token |
| IdentityExtraction.DoubleSpaceIsAnonymous | src/functions/authenticate.ts:17-25 | `"Bearer  x"` (two spaces) gives the anonymous identity, whatever the verifier says |
| IdentityExtraction.SchemeOnlyIsAnonymous | src/functions/authenticate.ts:17-25 | `"Bearer"` alone gives the anonymous identity |
| AuthMiddleware.Admitted | src/middlewares/authenticate.ts:21-38 | the success condition of the `try` block: the header is present and non-empty and the verifier returns a truthy payload for `split(' ')[1]`; an admitted request always had a non-empty header |
| AuthMiddleware.Try | src/middlewares/authenticate.ts:18-38 | the `try` block reaches `next()` exactly when the header is non-empty and the verifier returns a truthy payload for `split(' ')[1]`; the verifier's own exception is raised exactly when it throws |
| AuthMiddleware.Authenticate | src/middlewares/authenticate.ts:13-44 | `next` is called first with no argument exactly when the request is admitted; every error passed to `next` is `Authentication failed` with status 401; if `next()` does not throw, `next` is called exactly once; a rejected request gives the single call `next(Authentication failed)`; an admitted request whose `next()` throws back into the middleware gives `next()` followed by the `catch` block's `next(Authentication failed)` |
| AuthMiddleware.BearerAdmitted | src/middlewares/authenticate.ts:28-38 | a `Bearer <token>` header is admitted exactly when the verifier accepts that token |
| UserResolver.Bearer | src/api/resolvers/userResolver.ts:94 | the header is named `Authorization` and its value is exactly `Bearer ` followed by the caller's own token |
| UserResolver.Translate | src/api/resolvers/userResolver.ts:13-19 | a response fails exactly when `ok` is false; a failure is `NOT_FOUND` with the upstream `statusText` as message; success returns the body unchanged |
| UserResolver.Send | src/api/resolvers/userResolver.ts:99-104 | exactly one request is sent; the result is the upstream body when `ok` and otherwise `NOT_FOUND` with `statusText` |
| UserResolver.UsersRequest | src/api/resolvers/userResolver.ts:11 | `users` sends GET to `/users` with no headers and no body |
| UserResolver.UserByIdRequest | src/api/resolvers/userResolver.ts:24 | `userById` sends GET to `/users/` followed by the id |
| UserResolver.RegisterRequest | src/api/resolvers/userResolver.ts:39-45 | `register` POSTs the user as JSON to `/users` |
| UserResolver.LoginRequest | src/api/resolvers/userResolver.ts:61-67 | `login` POSTs the credentials as JSON to `/auth/login` |
| UserResolver.UpdateUserRequest | src/api/resolvers/userResolver.ts:90-97 | `updateUser` PUTs the user to `/users` with `Authorization: Bearer <token>` |
| UserResolver.DeleteUserRequest | src/api/resolvers/userResolver.ts:119-125 | `deleteUser` sends DELETE to `/users` with `Authorization: Bearer <token>` and no body |
| UserResolver.Users | src/api/resolvers/userResolver.ts:10-20 | one GET `/users`, translated by `ok` |
| UserResolver.UserById | src/api/resolvers/userResolver.ts:23-33 | one GET `/users/<id>`, translated by `ok` |
| UserResolver.Register | src/api/resolvers/userResolver.ts:38-54 | one POST `/users`, translated by `ok` |
| UserResolver.Login | src/api/resolvers/userResolver.ts:57-76 | one POST `/auth/login`, translated by `ok` |
| UserResolver.UpdateUser | src/api/resolvers/userResolver.ts:79-105 | with an empty token: `NOT_AUTHORIZED` "Unauthorized" and no request sent; otherwise one PUT `/users` with the caller's token, translated by `ok` |
| UserResolver.DeleteUser | src/api/resolvers/userResolver.ts:108-134 | with an empty token: `NOT_AUTHORIZED` "Unauthorized" and no request sent; otherwise one DELETE `/users` with the caller's token, translated by `ok` |
| UserResolver.PublicResolversIgnoreIdentity | src/api/resolvers/userResolver.ts:10-76 | `users`, `userById`, `register` and `login` behave the same for every caller identity |
| UserResolver.ForwardedToken | src/api/resolvers/userResolver.ts:90-96 | the token sent upstream by `updateUser` and `deleteUser` is, after `split(' ')[1]`, the raw token identity extraction took from the inbound header |
| PostModel.Spread | src/api/resolvers/postResolver.ts:42-43 | a new post takes title and content from the arguments, always has the caller as author (overriding any author in the arguments), and starts with no likes |
| PostModel.HasRequiredFields | src/api/models/postModel.ts:7-14 | the schema's `required: true` on `title` and `content`: a post with an empty title or an empty content is rejected, and one that passes has both non-empty |
| PostModel.ApplyPatch | src/api/resolvers/postResolver.ts:74-81 | an update replaces only the supplied title and content; author and likes are unchanged |
| PostModel.RemoveAll | src/api/resolvers/postResolver.ts:206-208 | after the filter, an id is present exactly when it was present before and is not the removed id; the list never grows |
| PostModel.RemoveAllCounts | src/api/resolvers/postResolver.ts:206-208 | the filter drops every occurrence of the id, keeps every other id as often as before, and keeps the survivors in their original order |
| PostModel.RemoveAllAbsent | src/api/resolvers/postResolver.ts:206-208 | filtering out an id that is not there changes nothing |
| PostModel.LikeThenUnlike | src/api/resolvers/postResolver.ts:173-208 | appending an id that was not liked, then filtering it out, restores the original likes |
| PostModel.NoDupAppend | src/api/resolvers/postResolver.ts:167-173 | appending an id that is not present keeps the likes free of duplicates |
| PostModel.NoDupRemoveAll | src/api/resolvers/postResolver.ts:206-208 | the filter keeps the likes free of duplicates |
| PostResolver.Posts | src/api/resolvers/postResolver.ts:9-11 | `posts` returns every stored post unchanged |
| PostResolver.PostById | src/api/resolvers/postResolver.ts:14-16 | `postById` returns the post when the id is stored and null (not an error) otherwise |
| PostResolver.PostsByAuthorId | src/api/resolvers/postResolver.ts:19-21 | exactly the stored posts whose author is the given id |
| PostResolver.PostsLikedByUserId | src/api/resolvers/postResolver.ts:24-26 | exactly the stored posts whose likes contain the given id |
| PostResolver.PostStore.constructor | src/api/models/postModel.ts:5-27 | an empty store satisfying the invariant |
| PostResolver.PostStore.CreatePost | src/api/resolvers/postResolver.ts:31-45 | an empty token gives `NOT_AUTHORIZED` and leaves the store unchanged; an empty title or content fails the schema's `required` check at `save()` (src/api/models/postModel.ts:7-14), an error that leaves the store unchanged; otherwise exactly one post is added under a fresh id, with the caller as author |
| PostResolver.PostStore.UpdatePost | src/api/resolvers/postResolver.ts:48-83 | checks in order: token (`NOT_AUTHORIZED`), existence (`NOT_FOUND`), authorship (`NOT_AUTHORIZED`), each failure leaving the store unchanged; the author's update changes only that post, by the patch, and returns it |
| PostResolver.PostStore.DeletePost | src/api/resolvers/postResolver.ts:86-113 | the same three checks in the same order; the author's delete removes exactly that id and returns the removed post |
| PostResolver.PostStore.UpdatePostAsAdmin | src/api/resolvers/postResolver.ts:116-134 | `NOT_AUTHORIZED` unless `token && isAdmin`; a missing id gives a null result, no error and an unchanged store; otherwise the patch is applied whoever the author is |
| PostResolver.PostStore.DeletePostAsAdmin | src/api/resolvers/postResolver.ts:137-149 | `NOT_AUTHORIZED` unless `token && isAdmin`; a missing id gives a null result and an unchanged store; otherwise the post is removed whoever the author is |
| PostResolver.PostStore.LikePost | src/api/resolvers/postResolver.ts:152-177 | no token check; a missing post is `NOT_FOUND`; an id already in likes is `BAD_REQUEST` "Post already liked" with the store unchanged; otherwise the caller's id is appended at the end and the post is then among the caller's liked posts |
| PostResolver.PostStore.UnlikePost | src/api/resolvers/postResolver.ts:180-213 | token check first, then `NOT_FOUND`, then `BAD_REQUEST` "Post not liked" when the id is absent; otherwise every occurrence of the id is filtered out and the post is no longer among the caller's liked posts |
| PostResolver.LikeUnlikeScenario | test/api.test.ts:209-234 | like succeeds with likes `[u]`, liking again is `BAD_REQUEST` "Post already liked", unlike succeeds with likes `[]`, unliking again is `BAD_REQUEST` "Post not liked" |
| PostResolver.OwnershipScenario | test/api.test.ts:187-207 | a non-author's update and delete both fail `NOT_AUTHORIZED` and leave the post as created; an admin then deletes that post, as the admin delete at test/api.test.ts:241-244 does for the other post; the second admin delete, which gives null for the missing id, is the model's own addition |

## Left out

- Server bootstrap and wiring (Express, Apollo, helmet, CORS, the landing page, the server start, the database connection) are configuration, not logic.
- Rate limiting of `login` is done by an external library and needs a time window that spans requests.
- JWT signature checking is the injected `verify`. In `src/functions/authenticate.ts`, `jwt.verify` can throw and nothing catches it; the model does not cover that path. Only a verifier that returns no claims yields the anonymous identity.
- In the middleware, the verifier receives `split(' ')[1]` as given, `undefined` included. Whether `jsonwebtoken` throws or returns for a particular token is the verifier's choice in the model.
- The `JWT_SECRET` check that the middleware module runs when it is loaded is environment configuration.
- Mongoose persistence is replaced by the in-memory map, and Mongo's generated ObjectIds by a counter. Casting ids to ObjectId is not modelled, so neither are cast errors on malformed ids. Without it the model lets an anonymous `likePost` append the empty id, where the driver could reject the save.
- The `createdAt`/`updatedAt` timestamps need a clock.
- PostResolver.PostStore.CreatePost: the validation failure carries the short message "Post validation failed". Mongoose's full message, which lists each failing path, is not reproduced. The `required` check on `author` is not modelled either, since it depends on ObjectId casting. Updates do not run validators, so they may store empty strings.
- The query results are maps, so the order in which the store returns documents is not modelled.
- PostResolver.PostStore.UpdatePost: the update document also carries the caller's `id` (line 78). `id` is not a path of the post schema, so the update drops it. The model leaves it out of the patch; the post updated is always the one the input names.
- `fetch` and JSON parsing belong to the identity service. Responses are inputs, and bodies are passed through as text.
- Cascading deletion of a user's posts, `updateUserAsAdmin`/`deleteUserAsAdmin`, and the `Post.author` field resolver are absent from the code, so they are absent from the model.
- The HTTP error formatting in `src/middlewares/errorHandler.ts` and `src/middlewares/notFound.ts` is response formatting. `HTTP_STATUS_CODES` lives in `src/utils/constants`, which is not part of this model, so `UNAUTHORIZED` is taken to be 401.
- Concurrency: each resolver call is atomic in the model, so the read-modify-write race on `likes` between concurrent requests is not modelled.
