/**
  The allow-list role handler: the same membership operations as the
  deny list, with the ban decision inverted (banned means absent). It has
  no welcome text and no exported list.
 */
module Whitelist {
  import opened RoleTable
  import Blacklist

  /** The allow-list ban decision: banned means absent. */
  predicate IsBanned(items: map<Key, Item>, roleName: string, userId: int) {
    !HasRoleIn(items, userId, roleName)
  }

  /** On the same table and role, the two handlers always disagree about a
      ban. */
  lemma OppositePolarity(items: map<Key, Item>, roleName: string, userId: int)
    ensures IsBanned(items, roleName, userId) != Blacklist.IsBanned(items, roleName, userId)
  {
  }

  /** The routes bind the roles `whitelist` and `blacklist`, so no allow-list
      key is ever a deny-list key, and allow-list writes never change a
      deny-list decision. */
  lemma AllowListNeverTouchesDenyList(items: map<Key, Item>, userId: int, username: string, otherId: int)
    ensures RoleKey(userId, "whitelist") != RoleKey(otherId, "blacklist")
    ensures Blacklist.IsBanned(Upsert(items, RoleItem(userId, "whitelist", username)), "blacklist", otherId)
        == Blacklist.IsBanned(items, "blacklist", otherId)
    ensures Blacklist.IsBanned(Without(items, RoleKey(userId, "whitelist")), "blacklist", otherId)
        == Blacklist.IsBanned(items, "blacklist", otherId)
  {
    if RoleKey(userId, "whitelist") == RoleKey(otherId, "blacklist") {
      RoleKeyInjective(userId, "whitelist", otherId, "blacklist");
      assert false;
    }
  }

  class Handler {
    const roleName: string
    const table: Table

    constructor (table: Table, roleName: string)
      ensures this.table == table && this.roleName == roleName
    {
      this.table := table;
      this.roleName := roleName;
    }

    /** `is_user_banned(user_id)`: one lookup; true iff NO item exists. */
    method IsUserBanned(userId: int) returns (banned: bool)
      modifies table`calls
      ensures banned <==> IsBanned(table.items, roleName, userId)
      ensures banned <==> RoleKey(userId, roleName) !in table.items
      ensures table.calls == old(table.calls) + [GetItemCall(RoleKey(userId, roleName))]
    {
      var member := HasRole(userId);
      banned := !member;
    }

    /** `has_role(user_id)`: one lookup; true iff the item exists. */
    method HasRole(userId: int) returns (member: bool)
      modifies table`calls
      ensures member <==> HasRoleIn(table.items, userId, roleName)
      ensures table.calls == old(table.calls) + [GetItemCall(RoleKey(userId, roleName))]
    {
      var response := table.GetItem(RoleKey(userId, roleName));
      member := response.Some?;
    }

    /** `add_role_to(user_id, username)`: afterwards the user is a member and
        no longer banned. */
    method AddRoleTo(userId: int, username: string)
      modifies table`items, table`calls
      ensures table.items == Upsert(old(table.items), RoleItem(userId, roleName, username))
      ensures table.calls == old(table.calls) + [PutItemCall(RoleItem(userId, roleName, username))]
      ensures HasRoleIn(table.items, userId, roleName) && !IsBanned(table.items, roleName, userId)
    {
      table.PutItem(RoleItem(userId, roleName, username));
    }

    /** `remove_role_from(user_id)`: afterwards the user is not a member and
        is banned. */
    method RemoveRoleFrom(userId: int)
      modifies table`items, table`calls
      ensures table.items == Without(old(table.items), RoleKey(userId, roleName))
      ensures table.calls == old(table.calls) + [DeleteItemCall(RoleKey(userId, roleName))]
      ensures !HasRoleIn(table.items, userId, roleName) && IsBanned(table.items, roleName, userId)
    {
      table.DeleteItem(RoleKey(userId, roleName));
    }
  }
}
