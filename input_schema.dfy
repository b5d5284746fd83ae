/**
 * The input schema of removeUserPermissions: `accountId` and `userId` are
 * required strings, `groups` is an optional array of strings whose default is
 * the empty array. An optional key may also hold `null`, which the schema
 * accepts without a type check.
 */
module InputSchema {
  import opened JsValues

  /** The three values the mutation validates, once they passed the schema. */
  datatype Validated = Validated(accountId: string, userId: string, groups: seq<string>)

  predicate AllStrings(items: seq<JsValue>) {
    forall i :: 0 <= i < |items| ==> items[i].Str?
  }

  /** The rule for `groups.$`: every element of the array is a string; yields those strings. */
  function Strings(items: seq<JsValue>): (r: Option<seq<string>>)
    ensures r.Some? <==> AllStrings(items)
    ensures r.Some? ==> |r.value| == |items| && forall i :: 0 <= i < |items| ==> items[i] == Str(r.value[i])
  {
    if items == [] then Some([])
    else match (items[0], Strings(items[1..]))
      case (Str(s), Some(rest)) => Some([s] + rest)
      case _ => None
  }

  /**
   * Validation of `{ accountId, userId, groups }`. A missing or null `groups`
   * stands for the empty array; any other failure rejects the whole input.
   */
  function Validate(accountId: JsValue, userId: JsValue, groups: JsValue): (r: Option<Validated>)
    ensures r.Some? <==>
      accountId.Str? && userId.Str? && (groups.Undefined? || groups.Null? || (groups.Arr? && AllStrings(groups.items)))
    ensures r.Some? ==> r.value.accountId == accountId.str && r.value.userId == userId.str
    ensures r.Some? && (groups.Undefined? || groups.Null?) ==> r.value.groups == []
    ensures r.Some? && groups.Arr? ==>
      |r.value.groups| == |groups.items| &&
      forall i :: 0 <= i < |groups.items| ==> groups.items[i] == Str(r.value.groups[i])
  {
    if !accountId.Str? || !userId.Str? then None
    else
      var list := match groups
        case Undefined => Some([])
        case Null => Some([])
        case Arr(items) => Strings(items)
        case _ => None;
      if list.None? then None else Some(Validated(accountId.str, userId.str, list.value))
  }

  /** A JavaScript array holding the given strings. */
  function StrArray(gs: seq<string>): (v: JsValue)
    ensures v.Arr? && |v.items| == |gs|
    ensures forall i :: 0 <= i < |gs| ==> v.items[i] == Str(gs[i])
  {
    Arr(seq(|gs|, i requires 0 <= i < |gs| => Str(gs[i])))
  }

  /** Every validated input is accepted back unchanged when written out as JavaScript values. */
  lemma ValidateEncoded(v: Validated)
    ensures Validate(Str(v.accountId), Str(v.userId), StrArray(v.groups)) == Some(v)
  {
    var r := Validate(Str(v.accountId), Str(v.userId), StrArray(v.groups));
    assert r.Some?;
    assert r.value.groups == v.groups;
  }

  /** Conversely, whatever the schema accepts is the encoding of its result, up to the default for `groups`. */
  lemma EncodedValidate(accountId: JsValue, userId: JsValue, groups: JsValue)
    requires Validate(accountId, userId, groups).Some?
    ensures var v := Validate(accountId, userId, groups).value;
      Str(v.accountId) == accountId && Str(v.userId) == userId &&
      StrArray(v.groups) == (if groups.Undefined? || groups.Null? then Arr([]) else groups)
  {
    var v := Validate(accountId, userId, groups).value;
    if groups.Arr? {
      assert StrArray(v.groups).items == groups.items;
    } else {
      assert StrArray(v.groups).items == [];
    }
  }
}
