/**
  The deny-list role handler: a user is banned exactly when the table holds
  an item for (user, role). It also knows the bot's welcome text and where
  the exported list is published.
 */
module Blacklist {
  import opened Wrappers
  import opened RoleTable

  /** The object key of the exported list in the output bucket. */
  const BLOCKLIST_KEY: string := "autoblock_blacklist.zip"

  /** The text sent in reply to `/start`. */
  const WELCOME_MESSAGE: string :=
    "Hello from the @FurryPartyOfArtAndLabor. This bot was created and released to the public to help "
    + "room owners secure their rooms from raids and alt-right recruiters. Simply add to your room and "
    + "the bot will autoblock any Nazifur on its list of users from your room before any trouble can "
    + "start."

  /** The deny-list ban decision: banned means present. */
  predicate IsBanned(items: map<Key, Item>, roleName: string, userId: int) {
    HasRoleIn(items, userId, roleName)
  }

  /** A presigned-URL service: given a bucket and an object key it returns
      a URL, or fails with a `ClientError` message. */
  type Presigner = (string, string) -> Result<string, string>

  /** `get_blocklist_url`: the presigned URL of the export, or None when
      presigning raised `ClientError`. */
  function BlocklistUrl(presign: Presigner, bucket: string): (r: Option<string>)
    ensures r.None? <==> presign(bucket, BLOCKLIST_KEY).Failure?
    ensures r.Some? ==> r.value == presign(bucket, BLOCKLIST_KEY).value
  {
    match presign(bucket, BLOCKLIST_KEY)
    case Success(url) => Some(url)
    case Failure(_) => None
  }

  class Handler {
    const outputBucketName: string
    const roleName: string
    const table: Table

    constructor (table: Table, outputBucketName: string, roleName: string)
      ensures this.table == table && this.outputBucketName == outputBucketName && this.roleName == roleName
    {
      this.table := table;
      this.outputBucketName := outputBucketName;
      this.roleName := roleName;
    }

    /** `get_blocklist_url()`. */
    function GetBlocklistUrl(presign: Presigner): (r: Option<string>)
      ensures r == BlocklistUrl(presign, outputBucketName)
    {
      BlocklistUrl(presign, outputBucketName)
    }

    /** `is_user_banned(user_id)`: one lookup; true iff the item exists. */
    method IsUserBanned(userId: int) returns (banned: bool)
      modifies table`calls
      ensures banned <==> IsBanned(table.items, roleName, userId)
      ensures banned <==> RoleKey(userId, roleName) in table.items
      ensures table.calls == old(table.calls) + [GetItemCall(RoleKey(userId, roleName))]
    {
      banned := HasRole(userId);
    }

    /** `has_role(user_id)`: one lookup; true iff the item exists. */
    method HasRole(userId: int) returns (member: bool)
      modifies table`calls
      ensures member <==> HasRoleIn(table.items, userId, roleName)
      ensures table.calls == old(table.calls) + [GetItemCall(RoleKey(userId, roleName))]
    {
      var response := table.GetItem(RoleKey(userId, roleName));
      member := response.Some?;
    }

    /** `add_role_to(user_id, username)`: one upsert of the role item. */
    method AddRoleTo(userId: int, username: string)
      modifies table`items, table`calls
      ensures table.items == Upsert(old(table.items), RoleItem(userId, roleName, username))
      ensures table.calls == old(table.calls) + [PutItemCall(RoleItem(userId, roleName, username))]
      ensures HasRoleIn(table.items, userId, roleName) && IsBanned(table.items, roleName, userId)
    {
      table.PutItem(RoleItem(userId, roleName, username));
    }

    /** `remove_role_from(user_id)`: one delete of the role key. */
    method RemoveRoleFrom(userId: int)
      modifies table`items, table`calls
      ensures table.items == Without(old(table.items), RoleKey(userId, roleName))
      ensures table.calls == old(table.calls) + [DeleteItemCall(RoleKey(userId, roleName))]
      ensures !HasRoleIn(table.items, userId, roleName) && !IsBanned(table.items, roleName, userId)
    {
      table.DeleteItem(RoleKey(userId, roleName));
    }
  }
}
