/**
  The first, single-table version of the bot (autoblock_function/app.py).
  One table holds plain presence facts: an item at `user_<id>` means the
  user is banned, an item at `admin_<id>` means the user may issue
  commands. A join costs one lookup and, for a banned user, one kick; a
  private command costs one admin lookup and, for an admin, one
  "Unknown command" reply. Nothing is ever written to the table.

  As in the role-based bot, each handler is specified by a function over a
  `State` value and the `Bot` class is proved to perform exactly that step.
 */
module Legacy {
  import opened Wrappers
  import opened Telegram
  import PyStr
  import SsmConfig

  // =====================================================================
  // Configuration
  // =====================================================================

  /** The keys `load_config` insists on, in the order it checks them. */
  const EXPECTED_CONFIG: seq<string> := ["bot_key", "api_id", "api_hash"]

  /** One SSM parameter; this version reads only its name and value. */
  datatype Parameter = Parameter(name: string, value: string)

  type Config = map<string, string>

  /** The configuration key of a parameter: the last `/`-segment of its name. */
  function ConfigName(p: Parameter): string {
    PyStr.LastSegment(p.name, '/')
  }

  /** The dict comprehension of `load_config`: values are kept as they are,
      and a later parameter overwrites an earlier one with the same key. */
  function ParseConfig(params: seq<Parameter>): Config {
    if |params| == 0 then map[]
    else ParseConfig(params[..|params| - 1])[ConfigName(params[|params| - 1]) := params[|params| - 1].value]
  }

  /** A key is configured exactly when some parameter's name ends in it. */
  lemma {:induction false} ParseConfigKeys(params: seq<Parameter>, key: string)
    ensures key in ParseConfig(params) <==> exists i :: 0 <= i < |params| && ConfigName(params[i]) == key
  {
    if |params| > 0 {
      var init := params[..|params| - 1];
      ParseConfigKeys(init, key);
      assert forall i :: 0 <= i < |init| ==> init[i] == params[i];
    }
  }

  /** The value of a key is the raw value of the last parameter carrying it. */
  lemma {:induction false} ParseConfigLastWins(params: seq<Parameter>, i: nat)
    requires i < |params|
    requires forall j :: i < j < |params| ==> ConfigName(params[j]) != ConfigName(params[i])
    ensures ConfigName(params[i]) in ParseConfig(params)
    ensures ParseConfig(params)[ConfigName(params[i])] == params[i].value
  {
    var init := params[..|params| - 1];
    var last := params[|params| - 1];
    if i < |params| - 1 {
      assert init[i] == params[i];
      forall j | i < j < |init|
        ensures ConfigName(init[j]) != ConfigName(init[i])
      {
        assert init[j] == params[j];
      }
      ParseConfigLastWins(init, i);
      assert ConfigName(last) != ConfigName(params[i]);
    }
  }

  /** A configuration `load_config` would accept. */
  predicate Complete(cfg: Config) {
    "bot_key" in cfg && "api_id" in cfg && "api_hash" in cfg
  }

  // =====================================================================
  // The table
  // =====================================================================

  /** `'user_{}'.format(user_id)`: the key whose presence bans a user. */
  function UserKey(userId: int): string {
    "user_" + PyStr.IntToString(userId)
  }

  /** `'admin_{}'.format(user_id)`: the key whose presence makes an admin. */
  function AdminKey(userId: int): string {
    "admin_" + PyStr.IntToString(userId)
  }

  /** Ban keys and admin keys never collide, and each names one user only,
      so banning one user never makes anyone an admin or bans anyone else. */
  lemma KeysNeverCollide(a: int, b: int)
    ensures UserKey(a) != AdminKey(b)
    ensures UserKey(a) == UserKey(b) ==> a == b
    ensures AdminKey(a) == AdminKey(b) ==> a == b
  {
    assert UserKey(a)[0] == 'u' && AdminKey(b)[0] == 'a';
    if UserKey(a) == UserKey(b) {
      assert PyStr.IntToString(a) == UserKey(a)[5..] == UserKey(b)[5..] == PyStr.IntToString(b);
      PyStr.IntToStringInjective(a, b);
    }
    if AdminKey(a) == AdminKey(b) {
      assert PyStr.IntToString(a) == AdminKey(a)[6..] == AdminKey(b)[6..] == PyStr.IntToString(b);
      PyStr.IntToStringInjective(a, b);
    }
  }

  /** `is_user_banned`: an item exists at the user key. */
  predicate BannedIn(keys: set<string>, userId: int) {
    UserKey(userId) in keys
  }

  /** `is_user_admin`: an item exists at the admin key. */
  predicate AdminIn(keys: set<string>, userId: int) {
    AdminKey(userId) in keys
  }

  /** The table `TABLE_NAME`: the partition keys of its items and the keys
      of the `get_item` calls made to it, in order. */
  class Table {
    var keys: set<string>
    var lookups: seq<string>

    constructor (keys: set<string>)
      ensures this.keys == keys && lookups == []
    {
      this.keys := keys;
      lookups := [];
    }

    /** `'Item' in dynamodb.get_item(Key={'pk': pk})`. */
    method GetItem(pk: string) returns (found: bool)
      modifies this`lookups
      ensures found <==> pk in keys
      ensures lookups == old(lookups) + [pk]
    {
      lookups := lookups + [pk];
      found := pk in keys;
    }
  }

  // =====================================================================
  // Events, state and the specification of each handler
  // =====================================================================

  /** An exception that ends the invocation. */
  datatype Fault =
    | MissingConfigKey(key: string)  // "Expected key ... not found in config"
    | MissingField(name: string)     // KeyError reading the decoded body

  /** The decoded `body` of the webhook event: the `message`, if any. */
  datatype Event = Event(message: Option<Message>)

  /** Everything an invocation can change: the cached configuration, the
      table (read only), its lookups, and the posts to the Bot API. */
  datatype State = State(config: Option<Config>, keys: set<string>, lookups: seq<string>, posts: seq<Post>)

  datatype Step = Step(post: State, outcome: Outcome<Fault>)

  /** The global `config` is only ever a validated configuration. */
  predicate ConfigOk(s: State) {
    s.config.Some? ==> Complete(s.config.value)
  }

  predicate ConfigLoaded(s: State) {
    s.config.Some? && Complete(s.config.value)
  }

  /** `config['bot_key']`, used in every Bot API URL. */
  function BotKey(s: State): string
    requires ConfigLoaded(s)
  {
    s.config.value["bot_key"]
  }

  function Lookup(s: State, pk: string): State {
    s.(lookups := s.lookups + [pk])
  }

  function Send(s: State, post: Post): State {
    s.(posts := s.posts + [post])
  }

  /** `load_config`: the global is assigned only when every expected key is
      present. */
  function LoadConfigStep(s: State, params: seq<Parameter>): (r: Step)
    ensures r.outcome.Fail? ==> r.post == s && r.outcome.error.MissingConfigKey?
    ensures r.outcome.Fail? ==> r.outcome.error.key in EXPECTED_CONFIG && r.outcome.error.key !in ParseConfig(params)
    ensures r.outcome.Pass? <==> Complete(ParseConfig(params))
    ensures r.outcome.Pass? ==> r.post == s.(config := Some(ParseConfig(params)))
  {
    var cfg := ParseConfig(params);
    match SsmConfig.MissingKey(cfg, EXPECTED_CONFIG)
    case Some(key) => Step(s, Fail(MissingConfigKey(key)))
    case None =>
      assert EXPECTED_CONFIG[0] in cfg && EXPECTED_CONFIG[1] in cfg && EXPECTED_CONFIG[2] in cfg;
      Step(s.(config := Some(cfg)), Pass)
  }

  /** `handle_new_user`: one lookup, and a kick when the user is banned. The
      kick's status is never checked. */
  function NewUserStep(s: State, chatId: int, userId: int): State
    requires ConfigLoaded(s)
  {
    var s1 := Lookup(s, UserKey(userId));
    if BannedIn(s.keys, userId) then Send(s1, Post(BotKey(s), KickChatMember(chatId, userId))) else s1
  }

  /** `handle_command`: one admin lookup first; an admin then always gets
      "Unknown command" in reply, whatever the command was. */
  function CommandStep(s: State, chatId: int, fromId: int, messageId: int): State
    requires ConfigLoaded(s)
  {
    var s1 := Lookup(s, AdminKey(fromId));
    if !AdminIn(s.keys, fromId) then s1
    else Send(s1, Post(BotKey(s), SendMessage(chatId, Some(messageId), "Unknown command")))
  }

  /** The dispatch of `lambda_handler` once the configuration is loaded. */
  function DispatchStep(s: State, event: Event): (r: Step)
    requires ConfigLoaded(s)
    ensures r.post.config == s.config && r.post.keys == s.keys
  {
    match event.message
    case None => Step(s, Pass)
    case Some(m) =>
      if m.newChatParticipant.Some? then
        match m.newChatParticipant.value.username
        case None => Step(s, Fail(MissingField("username")))
        case Some(_) => Step(NewUserStep(s, m.chatId, m.newChatParticipant.value.id), Pass)
      else if m.chatType == "private" && m.text.Some? && m.entities.Some? then
        Step(CommandStep(s, m.chatId, m.fromId, m.messageId), Pass)
      else Step(s, Pass)
  }

  /** `lambda_handler`: load the configuration if it is not cached, then
      dispatch. */
  function LambdaStep(s: State, event: Event, params: seq<Parameter>): (r: Step)
    requires ConfigOk(s)
    ensures ConfigOk(r.post)
    ensures s.config.Some? ==> r.post.config == s.config
    ensures r.post.keys == s.keys
  {
    if s.config.Some? then DispatchStep(s, event)
    else
      var loaded := LoadConfigStep(s, params);
      if loaded.outcome.Fail? then loaded
      else DispatchStep(loaded.post, event)
  }

  // =====================================================================
  // The bot: module state and handlers
  // =====================================================================

  class Bot {
    var config: Option<Config>
    var posts: seq<Post>
    const table: Table

    ghost predicate Valid()
      reads this
    {
      config.Some? ==> Complete(config.value)
    }

    ghost function Snapshot(): State
      reads this, table
    {
      State(config, table.keys, table.lookups, posts)
    }

    /** Module initialisation: `config = None`. */
    constructor (table: Table)
      ensures Valid() && this.table == table && config == None && posts == []
    {
      this.table := table;
      config := None;
      posts := [];
    }

    /** `load_config`. */
    method LoadConfig(params: seq<Parameter>) returns (out: Outcome<Fault>)
      requires Valid()
      modifies this`config
      ensures Valid()
      ensures Step(Snapshot(), out) == LoadConfigStep(old(Snapshot()), params)
    {
      var parsed := ParseConfig(params);
      for i := 0 to |EXPECTED_CONFIG|
        invariant forall j :: 0 <= j < i ==> EXPECTED_CONFIG[j] in parsed
      {
        if EXPECTED_CONFIG[i] !in parsed {
          out := Fail(MissingConfigKey(EXPECTED_CONFIG[i]));
          return;
        }
      }
      assert EXPECTED_CONFIG[0] in parsed && EXPECTED_CONFIG[1] in parsed && EXPECTED_CONFIG[2] in parsed;
      config := Some(parsed);
      out := Pass;
    }

    /** `requests.post` to the Bot API. */
    method Post(request: Request)
      requires Valid() && config.Some?
      modifies this`posts
      ensures posts == old(posts) + [Telegram.Post(config.value["bot_key"], request)]
    {
      posts := posts + [Telegram.Post(config.value["bot_key"], request)];
    }

    /** `is_user_banned`. */
    method IsUserBanned(userId: int) returns (banned: bool)
      modifies table`lookups
      ensures banned <==> BannedIn(table.keys, userId)
      ensures table.lookups == old(table.lookups) + [UserKey(userId)]
    {
      banned := table.GetItem(UserKey(userId));
    }

    /** `is_user_admin`. */
    method IsUserAdmin(userId: int) returns (admin: bool)
      modifies table`lookups
      ensures admin <==> AdminIn(table.keys, userId)
      ensures table.lookups == old(table.lookups) + [AdminKey(userId)]
    {
      admin := table.GetItem(AdminKey(userId));
    }

    /** `handle_new_user`; the username is only printed. */
    method HandleNewUser(chatId: int, userId: int, username: string)
      requires Valid() && config.Some?
      modifies this`posts, table`lookups
      ensures Snapshot() == NewUserStep(old(Snapshot()), chatId, userId)
    {
      var banned := IsUserBanned(userId);
      if banned {
        Post(KickChatMember(chatId, userId));
      }
    }

    /** `handle_command`. */
    method HandleCommand(chatId: int, fromId: int, messageId: int, text: string, entities: seq<Entity>)
      requires Valid() && config.Some?
      modifies this`posts, table`lookups
      ensures Snapshot() == CommandStep(old(Snapshot()), chatId, fromId, messageId)
    {
      var admin := IsUserAdmin(fromId);
      if !admin {
        return;
      }
      Post(SendMessage(chatId, Some(messageId), "Unknown command"));
    }

    /** `lambda_handler`. */
    method LambdaHandler(event: Event, params: seq<Parameter>) returns (r: Result<Response, Fault>)
      requires Valid()
      modifies this`config, this`posts, table`lookups
      ensures Valid()
      ensures var step := LambdaStep(old(Snapshot()), event, params);
        Snapshot() == step.post && r == ResponseOf(step.outcome)
    {
      if config.None? {
        var loaded := LoadConfig(params);
        if loaded.Fail? {
          return Failure(loaded.error);
        }
      }
      if event.message.Some? {
        var m := event.message.value;
        if m.newChatParticipant.Some? {
          var p := m.newChatParticipant.value;
          if p.username.None? {
            return Failure(MissingField("username"));
          }
          HandleNewUser(m.chatId, p.id, p.username.value);
        } else if m.chatType == "private" && m.text.Some? && m.entities.Some? {
          HandleCommand(m.chatId, m.fromId, m.messageId, m.text.value, m.entities.value);
        }
      }
      r := ResponseOf(Pass);
    }
  }

  // =====================================================================
  // Properties of the handlers
  // =====================================================================

  /** A failed load leaves the cached configuration unassigned and changes
      nothing else, so the next invocation loads again; a successful load
      caches exactly the parsed parameters. */
  lemma ConfigIsWrittenOnce(s: State, event: Event, params: seq<Parameter>)
    requires s.config.None?
    ensures var step := LambdaStep(s, event, params);
      && (!Complete(ParseConfig(params)) ==>
            step.post == s && step.outcome.Fail? && step.outcome.error.MissingConfigKey?)
      && (Complete(ParseConfig(params)) ==> step.post.config == Some(ParseConfig(params)))
  {
  }

  /** With no parameters at all the handler raises for `bot_key` and the
      configuration stays unassigned. */
  lemma EmptyParametersRaise(keys: set<string>, event: Event)
    ensures var s := State(None, keys, [], []);
      LambdaStep(s, event, []) == Step(s, Fail(MissingConfigKey("bot_key")))
  {
  }

  /** A message that is neither a join nor a private command causes no
      lookup and no post, and the response is 200. */
  lemma OtherMessagesDoNothing(s: State, event: Event)
    requires ConfigLoaded(s)
    requires event.message.Some? ==>
      event.message.value.newChatParticipant.None?
      && !(event.message.value.chatType == "private" && event.message.value.text.Some? && event.message.value.entities.Some?)
    ensures LambdaStep(s, event, []) == Step(s, Pass)
    ensures ResponseOf(LambdaStep(s, event, []).outcome) == Success(Response(200, "{}"))
  {
  }

  /** A join costs exactly one lookup, at the user key, and gives exactly
      one kick of that user in that chat when they are banned and no post
      otherwise. */
  lemma JoinKicksExactlyTheBanned(s: State, event: Event)
    requires ConfigLoaded(s)
    requires event.message.Some? && event.message.value.newChatParticipant.Some?
    requires event.message.value.newChatParticipant.value.username.Some?
    ensures var m := event.message.value; var id := m.newChatParticipant.value.id;
      var step := LambdaStep(s, event, []);
      && step.outcome.Pass?
      && step.post.lookups == s.lookups + [UserKey(id)]
      && step.post.posts == s.posts + (if BannedIn(s.keys, id) then [Post(BotKey(s), KickChatMember(m.chatId, id))] else [])
  {
  }

  /** A join whose participant has no username raises before any lookup. */
  lemma JoinWithoutUsernameRaises(s: State, event: Event)
    requires ConfigLoaded(s)
    requires event.message.Some? && event.message.value.newChatParticipant.Some?
    requires event.message.value.newChatParticipant.value.username.None?
    ensures LambdaStep(s, event, []) == Step(s, Fail(MissingField("username")))
  {
  }

  /** A private command is checked for admin rights before anything else:
      one lookup at the sender's admin key; a non-admin gets no post, an
      admin exactly one "Unknown command" reply to the message, whatever the
      text and entities say. */
  lemma CommandsAnswerAdminsOnly(s: State, event: Event)
    requires ConfigLoaded(s)
    requires event.message.Some? && event.message.value.newChatParticipant.None?
    requires event.message.value.chatType == "private"
    requires event.message.value.text.Some? && event.message.value.entities.Some?
    ensures var m := event.message.value;
      var step := LambdaStep(s, event, []);
      && step.outcome.Pass?
      && step.post.lookups == s.lookups + [AdminKey(m.fromId)]
      && (!AdminIn(s.keys, m.fromId) ==> step.post.posts == s.posts)
      && (AdminIn(s.keys, m.fromId) ==>
            step.post.posts == s.posts + [Post(BotKey(s), SendMessage(m.chatId, Some(m.messageId), "Unknown command"))])
  {
  }

  /** The handler never writes the table and never forgets a cached
      configuration. */
  lemma TableIsReadOnly(s: State, event: Event, params: seq<Parameter>)
    requires ConfigOk(s)
    ensures LambdaStep(s, event, params).post.keys == s.keys
    ensures s.config.Some? ==> LambdaStep(s, event, params).post.config == s.config
  {
  }
}
