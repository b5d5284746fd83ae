/**
 * The mutation `accounts/removeUserPermissions`: validate the input, look the
 * account up, run both authorization checks, pull the listed groups from the
 * account, emit `afterAccountUpdate` and return the updated account.
 *
 * The Accounts collection and the `appEvents` stream are the state of an
 * AccountStore object; the permission service is the grant set carried by
 * the context.
 */
module AccountMutations {
  import opened JsValues
  import opened InputSchema
  import opened GroupPull
  import opened Permissions

  /** A document of the Accounts collection, as far as this mutation uses it. */
  datatype Account = Account(id: string, shopId: Option<string>, groups: seq<string>)

  /** A message emitted on `appEvents`. */
  datatype Event = Event(name: string, account: Account, updatedBy: string, updatedFields: seq<string>)

  /** What the GraphQL context supplies: actor identity, trust flag and the actor's grants. */
  datatype Context = Context(accountId: JsValue, userId: JsValue, isInternalCall: bool, grants: set<Grant>)

  /**
   * The mutation input. Its `accountId` is read by nobody: the account
   * edited is the one named by the context.
   */
  datatype Input = Input(accountId: JsValue, groups: JsValue, shopId: Option<string>)

  /** `{ account }` on success, or the error the mutation throws. */
  datatype Outcome = Ok(account: Account) | InvalidInput | NotFound | Forbidden | ServerError

  const AfterAccountUpdate := "afterAccountUpdate"
  const GroupsField := "groups"

  /** The account with the listed group ids pulled from its `groups`. */
  function WithoutGroups(a: Account, ids: seq<string>): Account {
    a.(groups := Pull(a.groups, ids))
  }

  class AccountStore {
    /** The Accounts collection, keyed by `_id`. */
    var accounts: map<string, Account>
    /** Every event emitted on `appEvents`, oldest first. */
    var events: seq<Event>

    ghost predicate Valid()
      reads this
    {
      forall id :: id in accounts ==> accounts[id].id == id
    }

    constructor (initial: map<string, Account>)
      requires forall id :: id in initial ==> initial[id].id == id
      ensures Valid() && accounts == initial && events == []
    {
      accounts := initial;
      events := [];
    }

    /** `Accounts.findOne({ _id: id })`. */
    method FindOne(id: string) returns (account: Option<Account>)
      requires Valid()
      ensures account.Some? <==> id in accounts
      ensures account.Some? ==> account.value == accounts[id] && account.value.id == id
    {
      account := if id in accounts then Some(accounts[id]) else None;
    }

    /**
     * `findOneAndUpdate` on the account with `_id = id`, pulling every listed
     * group id from its `groups`, answering the document as it is after the
     * update, or nothing when no account has that id.
     */
    method FindOneAndPull(id: string, ids: seq<string>) returns (updated: Option<Account>)
      requires Valid()
      modifies this
      ensures Valid() && events == old(events)
      ensures id !in old(accounts) ==> updated == None && accounts == old(accounts)
      ensures id in old(accounts) ==>
        updated == Some(WithoutGroups(old(accounts)[id], ids)) &&
        accounts == old(accounts)[id := updated.value]
    {
      if id in accounts {
        var a := WithoutGroups(accounts[id], ids);
        accounts := accounts[id := a];
        updated := Some(a);
      } else {
        updated := None;
      }
    }

    /** `appEvents.emit`: the event is appended to the stream. */
    method Emit(e: Event)
      modifies this
      ensures accounts == old(accounts) && events == old(events) + [e]
    {
      events := events + [e];
    }

    /**
     * `removeUserPermissions(context, input)`. `deletedConcurrently` says
     * whether another task removed the account while this call awaited the
     * lookup and the permission service, before its update.
     *
     * The source passes the `$pull` document as the filter of
     * `findOneAndUpdate` and `{ multi: true }` as its update, with no `_id`
     * filter; this model performs the evidently intended update instead:
     * pull from the account whose `_id` is the context's `accountId`.
     */
    method RemoveUserPermissions(context: Context, input: Input, deletedConcurrently: bool) returns (r: Outcome)
      requires Valid()
      modifies this
      ensures Valid()
      // Rejected input: nothing is read, written or emitted.
      ensures Validate(context.accountId, context.userId, input.groups).None? ==>
        r == InvalidInput && accounts == old(accounts) && events == old(events)
      ensures Validate(context.accountId, context.userId, input.groups).Some? ==>
        var v := Validate(context.accountId, context.userId, input.groups).value;
        if v.accountId !in old(accounts) then
          r == NotFound && accounts == old(accounts) && events == old(events)
        else
          var account := old(accounts)[v.accountId];
          if !Authorize(context.grants, context.isInternalCall, v.userId, v.accountId,
                        account.shopId, input.shopId) then
            r == Forbidden && accounts == old(accounts) && events == old(events)
          // The deletion below is another task's effect between the lookup and the update, not this call's.
          else if deletedConcurrently then
            r == ServerError && accounts == old(accounts) - {v.accountId} && events == old(events)
          else
            var updated := WithoutGroups(account, v.groups);
            r == Ok(updated) &&
            accounts == old(accounts)[v.accountId := updated] &&
            events == old(events) + [Event(AfterAccountUpdate, updated, v.userId, [GroupsField])]
    {
      var valid := Validate(context.accountId, context.userId, input.groups);
      if valid.None? {
        return InvalidInput;
      }
      var v := valid.value;

      var account := FindOne(v.accountId);
      if account.None? {
        return NotFound;
      }

      if !Authorize(context.grants, context.isInternalCall, v.userId, v.accountId,
                    account.value.shopId, input.shopId) {
        return Forbidden;
      }

      // Another task removes the account while this call awaits; this mutation itself deletes nothing.
      if deletedConcurrently {
        accounts := accounts - {v.accountId};
      }
      var updated := FindOneAndPull(v.accountId, v.groups);
      if updated.None? {
        return ServerError;
      }

      Emit(Event(AfterAccountUpdate, updated.value, v.userId, [GroupsField]));
      return Ok(updated.value);
    }
  }
}
