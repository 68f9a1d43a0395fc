/**
  The DynamoDB role table shared by both role handlers. Each item sits at
  the key (`pk = 'user_<id>'`, `sk = 'role_<role>'`) and repeats that key,
  swapped, as the `role_users` secondary-index key so that the export job
  can list every member of one role.
 */
module RoleTable {
  import opened Wrappers
  import PyStr

  /** The table's primary key. */
  datatype Key = Key(pk: string, sk: string)

  /** A stored role record. */
  datatype Item = Item(pk: string, sk: string, roleUsersPk: string, roleUsersSk: string, username: string) {
    function KeyOf(): Key {
      Key(pk, sk)
    }
  }

  /** `'user_{}'.format(user_id)`. */
  function UserPart(userId: int): string {
    "user_" + PyStr.IntToString(userId)
  }

  /** `'role_{}'.format(role_name)`. */
  function RolePart(roleName: string): string {
    "role_" + roleName
  }

  /** The key under which `userId`'s membership of `roleName` is stored. */
  function RoleKey(userId: int, roleName: string): Key {
    Key(UserPart(userId), RolePart(roleName))
  }

  /** The item `add_role_to` writes: stored at the role key, indexed under
      the role with the user as sort key, carrying the username. */
  function RoleItem(userId: int, roleName: string, username: string): (item: Item)
    ensures item.KeyOf() == RoleKey(userId, roleName)
    ensures item.roleUsersPk == RolePart(roleName) && item.roleUsersSk == UserPart(userId)
    ensures item.username == username
  {
    Item(UserPart(userId), RolePart(roleName), RolePart(roleName), UserPart(userId), username)
  }

  /** Different (user, role) pairs never share a key. */
  lemma RoleKeyInjective(u1: int, r1: string, u2: int, r2: string)
    requires RoleKey(u1, r1) == RoleKey(u2, r2)
    ensures u1 == u2 && r1 == r2
  {
    assert PyStr.IntToString(u1) == UserPart(u1)[5..] == UserPart(u2)[5..] == PyStr.IntToString(u2);
    PyStr.IntToStringInjective(u1, u2);
    assert r1 == RolePart(r1)[5..] == RolePart(r2)[5..] == r2;
  }

  /** `'Item' in get_item(...)` for the role key: the membership fact. */
  predicate HasRoleIn(items: map<Key, Item>, userId: int, roleName: string) {
    RoleKey(userId, roleName) in items
  }

  /** `put_item`: an upsert that replaces whatever was stored at the key. */
  function Upsert(items: map<Key, Item>, item: Item): (r: map<Key, Item>)
    ensures item.KeyOf() in r && r[item.KeyOf()] == item
    ensures forall k :: k != item.KeyOf() ==> (k in r <==> k in items)
    ensures forall k :: k != item.KeyOf() && k in items ==> r[k] == items[k]
  {
    items[item.KeyOf() := item]
  }

  /** `delete_item`: removes the key, silently when it is absent. */
  function Without(items: map<Key, Item>, key: Key): (r: map<Key, Item>)
    ensures key !in r
    ensures forall k :: k != key ==> (k in r <==> k in items)
    ensures forall k :: k in r ==> r[k] == items[k]
  {
    items - {key}
  }

  /** Every item sits at its own key and carries the matching index key. */
  ghost predicate WellFormed(items: map<Key, Item>) {
    forall k :: k in items ==>
      items[k].KeyOf() == k && items[k].roleUsersPk == k.sk && items[k].roleUsersSk == k.pk
  }

  // ---------------------------------------------------------------------
  // Properties of the role operations
  // ---------------------------------------------------------------------

  /** After adding, the user holds the role; adding again only replaces the
      one item (the last username wins). */
  lemma AddGrantsRole(items: map<Key, Item>, userId: int, roleName: string, first: string, second: string)
    ensures HasRoleIn(Upsert(items, RoleItem(userId, roleName, first)), userId, roleName)
    ensures Upsert(Upsert(items, RoleItem(userId, roleName, first)), RoleItem(userId, roleName, second))
         == Upsert(items, RoleItem(userId, roleName, second))
  {
  }

  /** After removing, the user no longer holds the role; removing an absent
      membership changes nothing. */
  lemma RemoveRevokesRole(items: map<Key, Item>, userId: int, roleName: string)
    ensures !HasRoleIn(Without(items, RoleKey(userId, roleName)), userId, roleName)
    ensures !HasRoleIn(items, userId, roleName) ==> Without(items, RoleKey(userId, roleName)) == items
  {
  }

  /** Adding a role the user did not hold and then removing it restores the
      table. */
  lemma AddThenRemove(items: map<Key, Item>, userId: int, roleName: string, username: string)
    requires !HasRoleIn(items, userId, roleName)
    ensures Without(Upsert(items, RoleItem(userId, roleName, username)), RoleKey(userId, roleName)) == items
  {
  }

  /** Adding or removing one (user, role) leaves every other membership as
      it was. */
  lemma OtherMembershipsUnchanged(items: map<Key, Item>, userId: int, roleName: string, username: string,
                                  otherId: int, otherRole: string)
    requires userId != otherId || roleName != otherRole
    ensures HasRoleIn(Upsert(items, RoleItem(userId, roleName, username)), otherId, otherRole)
        == HasRoleIn(items, otherId, otherRole)
    ensures HasRoleIn(Without(items, RoleKey(userId, roleName)), otherId, otherRole)
        == HasRoleIn(items, otherId, otherRole)
  {
    if RoleKey(userId, roleName) == RoleKey(otherId, otherRole) {
      RoleKeyInjective(userId, roleName, otherId, otherRole);
      assert false;
    }
  }

  /** Adding and removing role items keeps the table well formed. */
  lemma RoleOperationsKeepWellFormed(items: map<Key, Item>, userId: int, roleName: string, username: string)
    requires WellFormed(items)
    ensures WellFormed(Upsert(items, RoleItem(userId, roleName, username)))
    ensures WellFormed(Without(items, RoleKey(userId, roleName)))
  {
  }

  // ---------------------------------------------------------------------
  // The table itself
  // ---------------------------------------------------------------------

  /** One call made to the table, in order. */
  datatype Call = GetItemCall(key: Key) | PutItemCall(item: Item) | DeleteItemCall(key: Key)

  /** The table's items and the log of calls made to it. */
  class Table {
    var items: map<Key, Item>
    var calls: seq<Call>

    constructor (items: map<Key, Item>)
      ensures this.items == items && calls == []
    {
      this.items := items;
      calls := [];
    }

    /** `get_item`: the stored item, if any. */
    method GetItem(key: Key) returns (r: Option<Item>)
      modifies this`calls
      ensures calls == old(calls) + [GetItemCall(key)]
      ensures r.Some? <==> key in items
      ensures r.Some? ==> r.value == items[key]
    {
      calls := calls + [GetItemCall(key)];
      r := if key in items then Some(items[key]) else None;
    }

    /** `put_item`. */
    method PutItem(item: Item)
      modifies this`items, this`calls
      ensures items == Upsert(old(items), item)
      ensures calls == old(calls) + [PutItemCall(item)]
    {
      calls := calls + [PutItemCall(item)];
      items := items[item.KeyOf() := item];
    }

    /** `delete_item`. */
    method DeleteItem(key: Key)
      modifies this`items, this`calls
      ensures items == Without(old(items), key)
      ensures calls == old(calls) + [DeleteItemCall(key)]
    {
      calls := calls + [DeleteItemCall(key)];
      items := items - {key};
    }
  }
}
