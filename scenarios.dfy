/**
 * Three runs of the mutation, as clients see them, and one removal on its own: the conclusions asserted here
 * follow from the contracts of AccountStore alone.
 */
module Scenarios {
  import opened JsValues
  import opened InputSchema
  import opened GroupPull
  import opened Permissions
  import opened AccountMutations

  /** The removal of the first scenario, on the groups list alone. */
  lemma PullExample()
    ensures Pull(["g1", "g2", "g3"], ["g2", "g4"]) == ["g1", "g3"]
  {
    var ids := ["g2", "g4"];
    assert "g1" !in ids && "g2" in ids && "g3" !in ids;
    assert ["g3"][1..] == [] && Pull(["g3"], ids) == ["g3"];
    assert ["g2", "g3"][1..] == ["g3"] && Pull(["g2", "g3"], ids) == ["g3"];
    assert ["g1", "g2", "g3"][1..] == ["g2", "g3"];
  }

  /** An internal call removes "g2" and "g4" from account A1 of shop S1. */
  method InternalCallRemovesListedGroups() {
    var a1 := Account("A1", Some("S1"), ["g1", "g2", "g3"]);
    var store := new AccountStore(map["A1" := a1]);
    var admin := Grant(AccountsResource, UpdateAction, Some("S1"), AdminRole);
    var context := Context(Str("A1"), Str("system"), true, {admin});
    var input := Input(Undefined, Arr([Str("g2"), Str("g4")]), Some("S1"));
    var ids := ["g2", "g4"];
    assert StrArray(ids) == input.groups;
    ValidateEncoded(Validated("A1", "system", ids));
    PullExample();
    assert Pull(a1.groups, ids) == ["g1", "g3"];
    assert Authorize({admin}, true, "system", "A1", Some("S1"), Some("S1"));
    var r := store.RemoveUserPermissions(context, input, false);
    assert r == Ok(Account("A1", Some("S1"), ["g1", "g3"]));
    assert store.accounts["A1"].groups == ["g1", "g3"];
    assert |store.events| == 1 && store.events[0].updatedFields == ["groups"];
  }

  /** User U2, without any grant, tries to edit account A1: Forbidden, and nothing changes. */
  method OtherUserWithoutGrantIsForbidden() {
    var a1 := Account("A1", Some("S1"), ["g1", "g2", "g3"]);
    var store := new AccountStore(map["A1" := a1]);
    var context := Context(Str("A1"), Str("U2"), false, {});
    var input := Input(Undefined, Arr([Str("g2")]), Some("S1"));
    var r := store.RemoveUserPermissions(context, input, false);
    assert r == Forbidden;
    assert store.accounts["A1"].groups == ["g1", "g2", "g3"];
    assert store.events == [];
  }

  /** Self-service without the admin grant is refused too, though the account-shop grant is held. */
  method SelfEditWithoutAdminIsForbidden() {
    var a1 := Account("A1", Some("S1"), ["g1"]);
    var store := new AccountStore(map["A1" := a1]);
    var accountsGrant := Grant(AccountsResource, UpdateAction, Some("S1"), AccountsRole);
    var context := Context(Str("A1"), Str("A1"), false, {accountsGrant});
    var input := Input(Undefined, Undefined, Some("S1"));
    var r := store.RemoveUserPermissions(context, input, false);
    assert r == Forbidden && store.events == [];
  }
}
