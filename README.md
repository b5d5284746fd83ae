# removeUserPermissions, modelled in Dafny

This project models the Reaction Commerce mutation `accounts/removeUserPermissions`,
which removes permission groups from a user account. The mutation runs these steps in order:

1. It validates `{ accountId, userId, groups }` against its input schema. `accountId` and
   `userId` come from the GraphQL context. `groups` comes from the input.
2. It looks the account up in the `Accounts` collection.
3. It runs the two `reaction:accounts`/`update` permission checks.
4. It pulls the listed group ids from the account's `groups`.
5. It emits `afterAccountUpdate` with `updatedFields = ["groups"]` and returns `{ account }`.

Modules, one per component:

- `JsValues`: `Option` and `JsValue`. A `JsValue` is a dynamically typed JavaScript value: absent, `null`, a string, an array, or any other value.
- `InputSchema`: the schema as the function `Validate`, and the round trip with the encoding `Validated → JsValue`.
- `GroupPull`: the list semantics of `$pull: { groups: { $in: ids } }` as the function `Pull`, with lemmas. They cover order preservation, order-independence, idempotence, commutation, the empty list and no-duplicates.
- `Permissions`: the permission service as an oracle over the actor's grants `(resource, action, shopId, legacyRole)`, and `Authorize`, the conjunction of the two checks.
- `AccountMutations`: the `Account`, `Event`, `Context`, `Input` and `Outcome` datatypes. The class `AccountStore` holds the `Accounts` collection (`accounts: map<string, Account>`) and the `appEvents` stream (`events: seq<Event>`). Its methods are `FindOne`, `FindOneAndPull`, `Emit` and the orchestrating `RemoveUserPermissions`.
- `Scenarios`: three client runs and one computed removal. Dafny proves their assertions from the contracts.

Points where the model follows the code where a reader might expect otherwise:

- The account edited is `context.accountId`, not `input.accountId`. `Input` carries an `accountId` field that nothing reads.
- The admin check uses the request's `shopId`. The ownership check uses the account's `shopId`.
- Group ids may be any string, including the empty one. Only the type is checked.
- `groups` is a list, not a set. The removal drops every occurrence and keeps the rest in order.
- `input.shopId` is not validated. It is an `Option<string>`, where `None` is an absent shop id.

Deliberate deviations, which are also stated in the code:

- The source calls `findOneAndUpdate` with the `$pull` document in the filter position and `{ multi: true }` in the update position, and gives no `_id` filter. `FindOneAndPull` instead performs the evidently intended update: it pulls from the account whose `_id` is `accountId`. It answers the document as it is after the update. The driver's default (`returnOriginal: true`) answers the document as it was BEFORE the update, so in the source the event and the result would carry the old `groups`. Answering the updated document is this model's choice.
- A missing or `null` `groups` is handled as the empty list. The source does not do this; see the line for `AccountMutations.AccountStore.RemoveUserPermissions` under "## Left out".

The `server-error` branch can only be taken when the account is gone at update time. `RemoveUserPermissions` therefore takes a parameter `deletedConcurrently`. It says whether another task removed the account between this call's lookup and its update.

## Model

| member | source | states |
|---|---|---|
| InputSchema.Strings | src/core-services/account/mutations/removeUserPermissions.js:12-14 | succeeds exactly when every array element is a string, and then yields those strings, element by element, in order |
| InputSchema.Validate | src/core-services/account/mutations/removeUserPermissions.js:4-15 | accepts exactly when `accountId` and `userId` are strings and `groups` is absent, `null` or an array of strings; a missing or `null` `groups` becomes `[]`, otherwise the validated values are the given ones |
| InputSchema.ValidateEncoded | src/core-services/account/mutations/removeUserPermissions.js:5-14 | every well-typed input written out as JavaScript values is accepted and validates back to itself |
| InputSchema.EncodedValidate | src/core-services/account/mutations/removeUserPermissions.js:7-11 | whatever is accepted is the encoding of its validated value, up to `[]` for a missing or `null` `groups` |
| GroupPull.Pull | src/core-services/account/mutations/removeUserPermissions.js:51-55 | the result keeps exactly the elements not listed in `ids`, with each kept element occurring as often as before and each listed one not at all; it is never longer |
| GroupPull.PullConcat | src/core-services/account/mutations/removeUserPermissions.js:51-55 | order is kept: pulling from `a + b` is pulling from `a` followed by pulling from `b` |
| GroupPull.PullSingleton | src/core-services/account/mutations/removeUserPermissions.js:53 | one element is removed exactly when it is listed |
| GroupPull.PullAbsent | src/core-services/account/mutations/removeUserPermissions.js:51-55 | pulling ids none of which occur leaves the list unchanged, so removing an absent group is a no-op, not an error |
| GroupPull.PullNothing | src/core-services/account/mutations/removeUserPermissions.js:10 | with the empty (default) list of ids the groups are unchanged |
| GroupPull.PullSameIds | src/core-services/account/mutations/removeUserPermissions.js:53 | the result depends only on which ids are listed, not on their order or repetition |
| GroupPull.PullPermutedIds | src/core-services/account/mutations/removeUserPermissions.js:53 | any permutation of the ids removes the same groups |
| GroupPull.PullTwice | src/core-services/account/mutations/removeUserPermissions.js:49-60 | two removals in a row equal one removal of both lists together |
| GroupPull.PullCommutes | src/core-services/account/mutations/removeUserPermissions.js:49-60 | two removals give the same groups in either order |
| GroupPull.PullIdempotent | src/core-services/account/mutations/removeUserPermissions.js:49-60 | applying the same removal twice gives the same groups as applying it once |
| GroupPull.PullKeepsNoDuplicates | src/core-services/account/mutations/removeUserPermissions.js:51-55 | a groups list in which every id occurs at most once keeps that property |
| Permissions.Permits | src/core-services/account/mutations/removeUserPermissions.js:42-45 | `validatePermissions` passes exactly when some held grant matches the resource, the action, the shop scope and one of the listed legacy roles |
| Permissions.Authorize | src/core-services/account/mutations/removeUserPermissions.js:41-45 | passes exactly when the admin grant on the request's shop is held and, unless the call is internal or a self-edit, the `reaction-accounts` grant on the account's shop is held too |
| AccountMutations.AccountStore.FindOne | src/core-services/account/mutations/removeUserPermissions.js:37-39 | finds an account exactly when one has that `_id`, and answers that account |
| AccountMutations.AccountStore.FindOneAndPull | src/core-services/account/mutations/removeUserPermissions.js:49-60 | with the account present, only its `groups` change, to the pulled list, and the updated document is answered; without it nothing is answered and nothing changes; events untouched |
| AccountMutations.AccountStore.Emit | src/core-services/account/mutations/removeUserPermissions.js:70-74 | the event stream grows by exactly the emitted event; accounts untouched |
| AccountMutations.AccountStore.RemoveUserPermissions | src/core-services/account/mutations/removeUserPermissions.js:28-77 | invalid input, missing account and failed authorization each leave accounts and events unchanged with their own error; an account gone at update time gives `ServerError` and no event; otherwise only that account's `groups` are pulled, exactly one `afterAccountUpdate` event with the updated account, the context's `userId` and `["groups"]` is appended, and `Ok(updated account)` is returned |
| Scenarios.PullExample | src/core-services/account/mutations/removeUserPermissions.js:49-60 | removing `["g2","g4"]` from `["g1","g2","g3"]` leaves `["g1","g3"]` |

## Left out

- AccountMutations.AccountStore.RemoveUserPermissions: does not model the source's behaviour when `groups` is absent or `null`. At `removeUserPermissions.js:30` the schema only checks `itemsToValidate`, and the result of that check is discarded. The `defaultValue: []` at `:10` is applied only when SimpleSchema cleans an object, and nothing here calls clean. So `input.groups` is still `undefined` (or `null`) when `:34` reads it and `:53` passes it to `$in`, and the store update can at best fail. The model instead reads an absent or `null` `groups` as `[]`: the call succeeds without changing the account and emits `afterAccountUpdate`. What the store does with `$in: undefined` or `$in: null` is MongoDB driver behaviour, which is outside this model.
- SimpleSchema internals: only the rules of the schema are modelled. `null` is accepted for the optional `groups`, because the schema skips the type check of a null value and the required check of an optional key; for the required `accountId` and `userId` it is rejected. The message of the validation error is not modelled.
- The MongoDB driver beyond the list semantics of `$pull`/`$in`. This includes the `multi` option, the misplaced filter (see above) and `returnOriginal` (see above: the model answers the updated document, not the original).
- How `context.validatePermissions` decides. It is an oracle: some grant matches the resource, the action, the shop scope and one of the accepted legacy roles. Role inheritance and the non-legacy permission system are not modelled.
- `appEvents` subscribers, their execution and their failures. Emission is an append to `events`.
- Async/await, concurrency and the atomicity of the store across concurrent calls. The one interleaving that matters for the result, a deletion of the account between the lookup and the update, is the parameter `deletedConcurrently`. `PullCommutes` and `PullTwice` state what concurrent removals compose to, but no concurrent execution is modelled.
- The text of `ReactionError` messages, and the concrete error codes. `Outcome` names the cases only.
