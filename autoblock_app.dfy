/**
  The webhook handler of the role-based bot (autoblock/app.py): it loads its
  configuration once, routes each update either to admission (a user joins)
  or to command handling (a private message with a bot command), and
  answers through posts to the Bot API and CloudWatch counters.

  Each handler is specified by a function over a `State` value (the
  configuration cell, the role table, the table's call log and the log of
  outbound effects); the `Bot` class holds that state and its methods are
  proved to perform exactly the step the function describes. The lemmas at
  the end state the admission and command rules in terms of those
  functions.
 */
module Autoblock {
  import opened Wrappers
  import opened Telegram
  import opened RoleTable
  import PyStr
  import Blacklist
  import Whitelist
  import SsmConfig

  // =====================================================================
  // Configuration
  // =====================================================================

  /** The keys `load_config` insists on, in the order it checks them. */
  const EXPECTED_CONFIG: seq<string> := ["api_id", "api_hash", "root_users"]

  /** The commands that need a mentioned username. */
  const USERNAME_COMMANDS: seq<string> := ["/isbanned", "/add", "/remove"]

  /** One SSM parameter: its full path name, its `Type` and its value. */
  datatype Parameter = Parameter(name: string, kind: string, value: string)

  /** A parsed value: the raw string, or the pieces of a `StringList`. */
  datatype ConfigValue = Text(text: string) | List(items: seq<string>)

  type Config = map<string, ConfigValue>

  /** The configuration key of a parameter: the last `/`-segment of its name. */
  function ConfigName(p: Parameter): string {
    PyStr.LastSegment(p.name, '/')
  }

  /** A `StringList` value is split on `,`; any other type stays a string. */
  function ConfigValueOf(p: Parameter): (r: ConfigValue)
    ensures r.List? <==> p.kind == "StringList"
    ensures r.Text? ==> r.text == p.value
    ensures r.List? ==> PyStr.Join(r.items, ',') == p.value && |r.items| >= 1
    ensures r.List? ==> forall i :: 0 <= i < |r.items| ==> ',' !in r.items[i]
  {
    if p.kind == "StringList" then
      PyStr.JoinSplit(p.value, ',');
      List(PyStr.Split(p.value, ','))
    else Text(p.value)
  }

  /** The dict comprehension of `load_config`: one entry per parameter, a
      later parameter overwriting an earlier one with the same key. */
  function ParseConfig(params: seq<Parameter>): Config {
    if |params| == 0 then map[]
    else ParseConfig(params[..|params| - 1])[ConfigName(params[|params| - 1]) := ConfigValueOf(params[|params| - 1])]
  }

  /** A key is configured exactly when some parameter's name ends in it. */
  lemma {:induction false} ParseConfigKeys(params: seq<Parameter>, key: string)
    ensures key in ParseConfig(params) <==> exists i :: 0 <= i < |params| && ConfigName(params[i]) == key
  {
    if |params| > 0 {
      var init := params[..|params| - 1];
      ParseConfigKeys(init, key);
      assert forall i :: 0 <= i < |init| ==> init[i] == params[i];
    }
  }

  /** The value of a key is the one of the last parameter carrying it. */
  lemma {:induction false} ParseConfigLastWins(params: seq<Parameter>, i: nat)
    requires i < |params|
    requires forall j :: i < j < |params| ==> ConfigName(params[j]) != ConfigName(params[i])
    ensures ConfigName(params[i]) in ParseConfig(params)
    ensures ParseConfig(params)[ConfigName(params[i])] == ConfigValueOf(params[i])
  {
    var init := params[..|params| - 1];
    var last := params[|params| - 1];
    assert ParseConfig(params) == ParseConfig(init)[ConfigName(last) := ConfigValueOf(last)];
    if i < |params| - 1 {
      assert init[i] == params[i];
      forall j | i < j < |init|
        ensures ConfigName(init[j]) != ConfigName(init[i])
      {
        assert init[j] == params[j];
      }
      ParseConfigLastWins(init, i);
      assert ConfigName(last) != ConfigName(params[i]);
    }
  }

  /** A configuration `load_config` would accept. */
  predicate Complete(cfg: Config) {
    "api_id" in cfg && "api_hash" in cfg && "root_users" in cfg
  }

  /** `is_user_admin`: `str(user_id) in config['root_users']`, which is list
      membership for a `StringList` and a substring test for a plain string. */
  function IsUserAdmin(cfg: Config, userId: int): (r: bool)
    requires "root_users" in cfg
    ensures cfg["root_users"].List? ==> (r <==> PyStr.IntToString(userId) in cfg["root_users"].items)
    ensures cfg["root_users"].Text? ==> (r <==> PyStr.Contains(cfg["root_users"].text, PyStr.IntToString(userId)))
  {
    match cfg["root_users"]
    case List(ids) => PyStr.IntToString(userId) in ids
    case Text(t) => PyStr.Contains(t, PyStr.IntToString(userId))
  }

  /** `bot_key.split(':')[0]`: the bot's own user id, as text. */
  function BotId(botKey: string): string {
    PyStr.FirstSegment(botKey, ':')
  }

  // =====================================================================
  // Routes, effects and faults
  // =====================================================================

  /** The two entries of the `handlers` table. */
  datatype Route = BlacklistRoute | WhitelistRoute

  /** `handlers[event['rawPath']]`; None is the `KeyError`. */
  function RouteOf(rawPath: string): (r: Option<Route>)
    ensures r == Some(BlacklistRoute) <==> rawPath == "/blacklist"
    ensures r == Some(WhitelistRoute) <==> rawPath == "/whitelist"
  {
    if rawPath == "/blacklist" then Some(BlacklistRoute)
    else if rawPath == "/whitelist" then Some(WhitelistRoute)
    else None
  }

  /** The role name each route's handler was built with. */
  function RoleName(route: Route): string {
    match route
    case BlacklistRoute => "blacklist"
    case WhitelistRoute => "whitelist"
  }

  /** The route's `is_user_banned` decision on a table. */
  predicate Banned(route: Route, items: map<Key, Item>, userId: int) {
    match route
    case BlacklistRoute => Blacklist.IsBanned(items, RoleName(route), userId)
    case WhitelistRoute => Whitelist.IsBanned(items, RoleName(route), userId)
  }

  /** An exception that ends the invocation. */
  datatype Fault =
    | MissingConfigKey(key: string)    // "Expected key ... not found in config"
    | UnknownRoute(path: string)       // KeyError on the handlers table
    | HttpError(status: int)           // raise_for_status on the kick
    | NoAttribute(name: string)        // the allow-list handler lacks it
    | TooManyArguments(name: string)   // TypeError from a call with an extra argument

  /** Something the invocation does outside the role table, in order. */
  datatype Effect =
    | Send(post: Post)          // requests.post to the Bot API
    | Metric(name: string)      // publish_count_metric
    | GetEntity(username: string) // the client's username lookup

  /** What resolving a username gives: an id, or the `ValueError` text. */
  datatype Resolution = Resolved(id: int) | NotFound(message: string)

  type Resolver = string -> Resolution

  /** The answers of the outside services during one invocation. */
  datatype World = World(
    parameters: seq<Parameter>,   // get_parameters_by_path
    resolve: Resolver,            // get_entity
    presign: Blacklist.Presigner, // generate_presigned_url
    kickStatus: int)              // status code of kickChatMember

  /** The event fields the handler reads; `body` is already decoded. */
  datatype Event = Event(rawPath: string, botKey: string, message: Option<Message>)

  /** Everything an invocation can change. */
  datatype State = State(config: Option<Config>, items: map<Key, Item>, calls: seq<Call>, outbox: seq<Effect>)

  /** The state after a handler and how it ended. */
  datatype Step = Step(post: State, outcome: Outcome<Fault>)

  /** The global `config` is only ever a validated configuration. */
  predicate ConfigOk(s: State) {
    s.config.Some? ==> Complete(s.config.value)
  }

  predicate ConfigLoaded(s: State) {
    s.config.Some? && Complete(s.config.value)
  }

  function Emit(s: State, effects: seq<Effect>): State {
    s.(outbox := s.outbox + effects)
  }

  /** A `sendMessage` that replies to the triggering message. */
  function Reply(botKey: string, chatId: int, messageId: int, text: string): Effect {
    Send(Post(botKey, SendMessage(chatId, Some(messageId), text)))
  }

  /** `'{} ({})'.format(username, info.id)`. */
  function Describe(username: string, id: int): string {
    username + " (" + PyStr.IntToString(id) + ")"
  }

  /** A `has_role` / `is_user_banned` lookup on the route's role key. */
  function Lookup(s: State, route: Route, userId: int): State {
    s.(calls := s.calls + [GetItemCall(RoleKey(userId, RoleName(route)))])
  }

  const GREETING: string :=
    "Hello from the @FurryPartyOfArtAndLabor. In order for this bot to be operational in this chat, it"
    + " must be made an admin."

  /** The reply when the kick is refused with status 400. */
  function NotAdminText(username: string): string {
    "Unable to remove @" + username + " because this bot is not an admin"
  }

  /** The `/add` reason: the text after the mention, stripped. */
  function Reason(text: string, mention: Entity): string {
    PyStr.Strip(PyStr.SliceFrom(text, mention.offset + mention.length))
  }

  /** The reason is the text after the mention with the surrounding
      whitespace removed and nothing else. */
  lemma ReasonIsTrimmedTail(text: string, mention: Entity)
    ensures Reason(text, mention) == PyStr.Strip(PyStr.SliceFrom(text, mention.offset + mention.length))
    ensures PyStr.StripsTo(PyStr.SliceFrom(text, mention.offset + mention.length), Reason(text, mention))
  {
    var tail := PyStr.SliceFrom(text, mention.offset + mention.length);
    PyStr.StripMeetsStripsTo(tail);
  }



  // =====================================================================
  // Specification of each handler
  // =====================================================================

  /** `load_config`: the global is assigned only when every expected key is
      present. */
  function LoadConfigStep(s: State, params: seq<Parameter>): (r: Step)
    ensures r.outcome.Fail? ==> r.post == s && r.outcome.error.MissingConfigKey?
    ensures r.outcome.Fail? ==> r.outcome.error.key in EXPECTED_CONFIG && r.outcome.error.key !in ParseConfig(params)
    ensures r.outcome.Pass? <==> Complete(ParseConfig(params))
    ensures r.outcome.Pass? ==> r.post == s.(config := Some(ParseConfig(params)))
  {
    var cfg := ParseConfig(params);
    match SsmConfig.MissingKey(cfg, EXPECTED_CONFIG)
    case Some(key) => Step(s, Fail(MissingConfigKey(key)))
    case None =>
      assert EXPECTED_CONFIG[0] in cfg && EXPECTED_CONFIG[1] in cfg && EXPECTED_CONFIG[2] in cfg;
      Step(s.(config := Some(cfg)), Pass)
  }

  /** What follows a kick, by its status code. */
  function KickStep(s: State, botKey: string, chatId: int, username: string, messageId: int, status: int): (r: Step)
    ensures r.post.config == s.config
  {
    if status == 200 then Step(Emit(s, [Metric("UserRemoved")]), Pass)
    else if status == 400 then Step(Emit(s, [Reply(botKey, chatId, messageId, NotAdminText(username))]), Pass)
    else if RaisesForStatus(status) then Step(s, Fail(HttpError(status)))
    else Step(s, Pass)
  }

  /** `handle_new_user`. */
  function NewUserStep(s: State, route: Route, botKey: string, chatId: int, chatType: string,
                       userId: int, username: string, messageId: int, kickStatus: int): (r: Step)
    requires ConfigLoaded(s)
    ensures r.post.config == s.config
  {
    if PyStr.IntToString(userId) == BotId(botKey) && chatType == "supergroup" then
      Step(Emit(s, [Send(Post(botKey, SendMessage(chatId, None, GREETING))), Metric("AddedToChat")]), Pass)
    else if IsUserAdmin(s.config.value, userId) then
      Step(s, Pass)
    else
      var s1 := Lookup(s, route, userId);
      if !Banned(route, s.items, userId) then Step(s1, Pass)
      else KickStep(Emit(s1, [Send(Post(botKey, KickChatMember(chatId, userId)))]),
                    botKey, chatId, username, messageId, kickStatus)
  }

  /** `handle_is_user_banned_command`. The reply prints the boolean result of
      the lookup where a reason would go. */
  function IsBannedStep(s: State, route: Route, botKey: string, chatId: int, messageId: int,
                        username: string, resolve: Resolver): (r: Step)
    ensures r.post.config == s.config
  {
    var s1 := Emit(s, [GetEntity(username)]);
    match resolve(username)
    case NotFound(message) => Step(Emit(s1, [Reply(botKey, chatId, messageId, message)]), Pass)
    case Resolved(id) =>
      var text := if Banned(route, s.items, id) then Describe(username, id) + " is banned: True"
                  else Describe(username, id) + " is not banned";
      Step(Emit(Lookup(s1, route, id), [Reply(botKey, chatId, messageId, text), Metric("IsBannedCommand")]), Pass)
  }

  /** `handle_add_user_command` with the role item written as intended: the
      reason is reported back but not stored, because the handlers'
      `add_role_to` takes only the id and the username. */
  function AddStep(s: State, route: Route, botKey: string, chatId: int, messageId: int,
                   username: string, reason: string, resolve: Resolver): (r: Step)
    ensures r.post.config == s.config
  {
    var s1 := Emit(s, [GetEntity(username)]);
    match resolve(username)
    case NotFound(message) => Step(Emit(s1, [Reply(botKey, chatId, messageId, message)]), Pass)
    case Resolved(id) =>
      var s2 := Lookup(s1, route, id);
      if HasRoleIn(s.items, id, RoleName(route)) then
        Step(Emit(s2, [Reply(botKey, chatId, messageId, Describe(username, id) + " is already added: True")]), Pass)
      else
        var item := RoleItem(id, RoleName(route), username);
        var s3 := s2.(items := Upsert(s2.items, item), calls := s2.calls + [PutItemCall(item)]);
        var shown := if reason != "" then reason else "No reason given";
        Step(Emit(s3, [Reply(botKey, chatId, messageId, Describe(username, id) + " has been added: " + shown),
                       Metric("AddUserCommand")]), Pass)
  }

  /** `handle_add_user_command` as written: the call
      `add_role_to(info.id, username, reason)` passes one argument too many,
      so it raises `TypeError` before anything is stored or sent. */
  function AddStepAsWritten(s: State, route: Route, botKey: string, chatId: int, messageId: int,
                            username: string, reason: string, resolve: Resolver): (r: Step)
    ensures r.post.config == s.config
  {
    var s1 := Emit(s, [GetEntity(username)]);
    match resolve(username)
    case NotFound(message) => Step(Emit(s1, [Reply(botKey, chatId, messageId, message)]), Pass)
    case Resolved(id) =>
      var s2 := Lookup(s1, route, id);
      if HasRoleIn(s.items, id, RoleName(route)) then
        Step(Emit(s2, [Reply(botKey, chatId, messageId, Describe(username, id) + " is already added: True")]), Pass)
      else
        Step(s2, Fail(TooManyArguments("add_role_to")))
  }

  /** `handle_remove_user_command`. */
  function RemoveStep(s: State, route: Route, botKey: string, chatId: int, messageId: int,
                      username: string, resolve: Resolver): (r: Step)
    ensures r.post.config == s.config
  {
    var s1 := Emit(s, [GetEntity(username)]);
    match resolve(username)
    case NotFound(message) => Step(Emit(s1, [Reply(botKey, chatId, messageId, message)]), Pass)
    case Resolved(id) =>
      var s2 := Lookup(s1, route, id);
      if !HasRoleIn(s.items, id, RoleName(route)) then
        Step(Emit(s2, [Reply(botKey, chatId, messageId, Describe(username, id) + " is not added")]), Pass)
      else
        var key := RoleKey(id, RoleName(route));
        var s3 := s2.(items := Without(s2.items, key), calls := s2.calls + [DeleteItemCall(key)]);
        Step(Emit(s3, [Reply(botKey, chatId, messageId, Describe(username, id) + " has been removed"),
                       Metric("RemoveUserCommand")]), Pass)
  }

  /** The username commands once a mention was found. `/isbanned` has no
      admin check; `/add` and `/remove` check before resolving. */
  function UsernameCommandStep(s: State, route: Route, botKey: string, chatId: int, fromId: int, messageId: int,
                               command: string, text: string, mention: Entity, resolve: Resolver): (r: Step)
    requires ConfigLoaded(s)
    ensures r.post.config == s.config
  {
    var username := EntityText(text, mention);
    if command == "/isbanned" then IsBannedStep(s, route, botKey, chatId, messageId, username, resolve)
    else if command == "/add" then
      if !IsUserAdmin(s.config.value, fromId) then Step(Emit(s, [Metric("NonAdminCommandIgnored")]), Pass)
      else AddStep(s, route, botKey, chatId, messageId, username, Reason(text, mention), resolve)
    else if command == "/remove" then
      if !IsUserAdmin(s.config.value, fromId) then Step(Emit(s, [Metric("NonAdminCommandIgnored")]), Pass)
      else RemoveStep(s, route, botKey, chatId, messageId, username, resolve)
    else Step(s, Pass)
  }

  /** `handle_command`. */
  function CommandStep(s: State, route: Route, bucket: string, botKey: string, chatId: int, fromId: int,
                       messageId: int, text: string, entities: seq<Entity>,
                       resolve: Resolver, presign: Blacklist.Presigner): (r: Step)
    requires ConfigLoaded(s)
    ensures r.post.config == s.config
  {
    match FirstOfType(entities, "bot_command")
    case None => Step(s, Pass)
    case Some(ce) =>
      var command := EntityText(text, ce);
      if command == "/start" then
        if route.WhitelistRoute? then Step(s, Fail(NoAttribute("welcome_message")))
        else Step(Emit(s, [Send(Post(botKey, SendMessage(chatId, None, Blacklist.WELCOME_MESSAGE))),
                           Metric("StartCommand")]), Pass)
      else if command == "/getlist" then
        if route.WhitelistRoute? then Step(s, Fail(NoAttribute("get_blocklist_url")))
        else
          match Blacklist.BlocklistUrl(presign, bucket)
          case None => Step(Emit(s, [Reply(botKey, chatId, messageId, "No list is available.")]), Pass)
          case Some(url) =>
            Step(Emit(s, [Send(Post(botKey, SendDocument(chatId, Some(messageId), url))), Metric("GetListCommand")]), Pass)
      else if command in USERNAME_COMMANDS then
        match FirstOfType(entities, "mention")
        case None => Step(Emit(s, [Reply(botKey, chatId, messageId, "This command requires a username.")]), Pass)
        case Some(me) => UsernameCommandStep(s, route, botKey, chatId, fromId, messageId, command, text, me, resolve)
      else
        Step(Emit(s, [Reply(botKey, chatId, messageId, "Unknown command"), Metric("UnknownCommand")]), Pass)
  }

  /** `new_chat_participant.get('username', 'no_username')`. */
  function ParticipantName(p: Participant): string {
    match p.username
    case Some(u) => u
    case None => "no_username"
  }

  /** The dispatch of `lambda_handler` once the configuration is loaded:
      pick the route's handler, then handle a join or a private command. */
  function DispatchStep(s: State, event: Event, bucket: string, world: World): (r: Step)
    requires ConfigLoaded(s)
    ensures r.post.config == s.config
  {
    match RouteOf(event.rawPath)
    case None => Step(s, Fail(UnknownRoute(event.rawPath)))
    case Some(route) =>
      match event.message
      case None => Step(s, Pass)
      case Some(m) =>
        if m.newChatParticipant.Some? then
          var p := m.newChatParticipant.value;
          NewUserStep(s, route, event.botKey, m.chatId, m.chatType, p.id, ParticipantName(p),
                      m.messageId, world.kickStatus)
        else if m.chatType == "private" && m.text.Some? && m.entities.Some? then
          CommandStep(s, route, bucket, event.botKey, m.chatId, m.fromId, m.messageId,
                      m.text.value, m.entities.value, world.resolve, world.presign)
        else Step(s, Pass)
  }

  /** `lambda_handler`: load the configuration if it is not cached, then
      dispatch. */
  function LambdaStep(s: State, event: Event, bucket: string, world: World): (r: Step)
    requires ConfigOk(s)
    ensures ConfigOk(r.post)
    ensures s.config.Some? ==> r.post.config == s.config
  {
    if s.config.Some? then DispatchStep(s, event, bucket, world)
    else
      var loaded := LoadConfigStep(s, world.parameters);
      if loaded.outcome.Fail? then loaded
      else DispatchStep(loaded.post, event, bucket, world)
  }

  // =====================================================================
  // The bot: module state and handlers
  // =====================================================================

  class Bot {
    var config: Option<Config>
    var outbox: seq<Effect>
    const table: Table
    const blacklist: Blacklist.Handler
    const whitelist: Whitelist.Handler

    /** Both routes share the one role table, each with its own role. */
    ghost predicate Valid()
      reads this
    {
      && blacklist.table == table && blacklist.roleName == "blacklist"
      && whitelist.table == table && whitelist.roleName == "whitelist"
      && (config.Some? ==> Complete(config.value))
    }

    ghost function Snapshot(): State
      reads this, table
    {
      State(config, table.items, table.calls, outbox)
    }

    /** Module initialisation: no configuration yet, and the `handlers`
        table over the shared role table. */
    constructor (table: Table, outputBucketName: string)
      ensures Valid() && this.table == table && config == None && outbox == []
      ensures blacklist.outputBucketName == outputBucketName
    {
      this.table := table;
      blacklist := new Blacklist.Handler(table, outputBucketName, "blacklist");
      whitelist := new Whitelist.Handler(table, "whitelist");
      config := None;
      outbox := [];
    }

    /** `load_config`. */
    method LoadConfig(params: seq<Parameter>) returns (out: Outcome<Fault>)
      requires Valid()
      modifies this`config
      ensures Valid()
      ensures Step(Snapshot(), out) == LoadConfigStep(old(Snapshot()), params)
    {
      var parsed := ParseConfig(params);
      for i := 0 to |EXPECTED_CONFIG|
        invariant forall j :: 0 <= j < i ==> EXPECTED_CONFIG[j] in parsed
      {
        if EXPECTED_CONFIG[i] !in parsed {
          out := Fail(MissingConfigKey(EXPECTED_CONFIG[i]));
          return;
        }
      }
      assert EXPECTED_CONFIG[0] in parsed && EXPECTED_CONFIG[1] in parsed && EXPECTED_CONFIG[2] in parsed;
      config := Some(parsed);
      out := Pass;
    }

    /** `publish_count_metric`. */
    method PublishCountMetric(name: string)
      modifies this`outbox
      ensures outbox == old(outbox) + [Metric(name)]
    {
      outbox := outbox + [Metric(name)];
    }

    /** A `requests.post` to the Bot API. */
    method Post(botKey: string, request: Request)
      modifies this`outbox
      ensures outbox == old(outbox) + [Send(Telegram.Post(botKey, request))]
    {
      outbox := outbox + [Send(Telegram.Post(botKey, request))];
    }

    method IsUserBanned(route: Route, userId: int) returns (banned: bool)
      requires Valid()
      modifies table`calls
      ensures banned == Banned(route, table.items, userId)
      ensures table.calls == old(table.calls) + [GetItemCall(RoleKey(userId, RoleName(route)))]
    {
      match route
      case BlacklistRoute => banned := blacklist.IsUserBanned(userId);
      case WhitelistRoute => banned := whitelist.IsUserBanned(userId);
    }

    method HasRole(route: Route, userId: int) returns (member: bool)
      requires Valid()
      modifies table`calls
      ensures member == HasRoleIn(table.items, userId, RoleName(route))
      ensures table.calls == old(table.calls) + [GetItemCall(RoleKey(userId, RoleName(route)))]
    {
      match route
      case BlacklistRoute => member := blacklist.HasRole(userId);
      case WhitelistRoute => member := whitelist.HasRole(userId);
    }

    method AddRoleTo(route: Route, userId: int, username: string)
      requires Valid()
      modifies table`items, table`calls
      ensures table.items == Upsert(old(table.items), RoleItem(userId, RoleName(route), username))
      ensures table.calls == old(table.calls) + [PutItemCall(RoleItem(userId, RoleName(route), username))]
    {
      match route
      case BlacklistRoute => blacklist.AddRoleTo(userId, username);
      case WhitelistRoute => whitelist.AddRoleTo(userId, username);
    }

    method RemoveRoleFrom(route: Route, userId: int)
      requires Valid()
      modifies table`items, table`calls
      ensures table.items == Without(old(table.items), RoleKey(userId, RoleName(route)))
      ensures table.calls == old(table.calls) + [DeleteItemCall(RoleKey(userId, RoleName(route)))]
    {
      match route
      case BlacklistRoute => blacklist.RemoveRoleFrom(userId);
      case WhitelistRoute => whitelist.RemoveRoleFrom(userId);
    }

    /** `handle_new_user`. */
    method HandleNewUser(route: Route, botKey: string, chatId: int, chatType: string, userId: int,
                         username: string, messageId: int, kickStatus: int) returns (out: Outcome<Fault>)
      requires Valid() && config.Some?
      modifies this`outbox, table`calls
      ensures Valid()
      ensures Step(Snapshot(), out) == NewUserStep(old(Snapshot()), route, botKey, chatId, chatType,
                                                   userId, username, messageId, kickStatus)
    {
      var botId := BotId(botKey);
      if PyStr.IntToString(userId) == botId && chatType == "supergroup" {
        Post(botKey, SendMessage(chatId, None, GREETING));
        PublishCountMetric("AddedToChat");
        return Pass;
      }
      if IsUserAdmin(config.value, userId) {
        return Pass;
      }
      var banned := IsUserBanned(route, userId);
      if !banned {
        return Pass;
      }
      Post(botKey, KickChatMember(chatId, userId));
      if kickStatus == 200 {
        PublishCountMetric("UserRemoved");
      } else if kickStatus == 400 {
        Post(botKey, SendMessage(chatId, Some(messageId), NotAdminText(username)));
      } else if RaisesForStatus(kickStatus) {
        return Fail(HttpError(kickStatus));
      }
      return Pass;
    }

    /** `handle_is_user_banned_command`. */
    method HandleIsUserBannedCommand(route: Route, botKey: string, chatId: int, messageId: int,
                                     username: string, resolve: Resolver) returns (out: Outcome<Fault>)
      requires Valid()
      modifies this`outbox, table`calls
      ensures Valid()
      ensures Step(Snapshot(), out) == IsBannedStep(old(Snapshot()), route, botKey, chatId, messageId, username, resolve)
    {
      outbox := outbox + [GetEntity(username)];
      match resolve(username)
      case NotFound(message) =>
        Post(botKey, SendMessage(chatId, Some(messageId), message));
        return Pass;
      case Resolved(id) =>
        var reason := IsUserBanned(route, id);
        if reason {
          Post(botKey, SendMessage(chatId, Some(messageId), Describe(username, id) + " is banned: True"));
        } else {
          Post(botKey, SendMessage(chatId, Some(messageId), Describe(username, id) + " is not banned"));
        }
        PublishCountMetric("IsBannedCommand");
        return Pass;
    }

    /** `handle_add_user_command`, with `add_role_to` called with the two
        arguments it accepts. */
    method HandleAddUserCommand(route: Route, botKey: string, chatId: int, messageId: int,
                                username: string, reason: string, resolve: Resolver) returns (out: Outcome<Fault>)
      requires Valid()
      modifies this`outbox, table`items, table`calls
      ensures Valid()
      ensures Step(Snapshot(), out) == AddStep(old(Snapshot()), route, botKey, chatId, messageId, username, reason, resolve)
    {
      outbox := outbox + [GetEntity(username)];
      match resolve(username)
      case NotFound(message) =>
        Post(botKey, SendMessage(chatId, Some(messageId), message));
        return Pass;
      case Resolved(id) =>
        var currentReason := HasRole(route, id);
        if currentReason {
          Post(botKey, SendMessage(chatId, Some(messageId), Describe(username, id) + " is already added: True"));
          return Pass;
        }
        AddRoleTo(route, id, username);
        var shown := if reason != "" then reason else "No reason given";
        Post(botKey, SendMessage(chatId, Some(messageId), Describe(username, id) + " has been added: " + shown));
        PublishCountMetric("AddUserCommand");
        return Pass;
    }

    /** `handle_add_user_command` as the source has it: the three-argument
        call to `add_role_to` raises before the put. */
    method HandleAddUserCommandAsWritten(route: Route, botKey: string, chatId: int, messageId: int,
                                         username: string, reason: string, resolve: Resolver)
      returns (out: Outcome<Fault>)
      requires Valid()
      modifies this`outbox, table`calls
      ensures Valid()
      ensures Step(Snapshot(), out)
           == AddStepAsWritten(old(Snapshot()), route, botKey, chatId, messageId, username, reason, resolve)
    {
      outbox := outbox + [GetEntity(username)];
      match resolve(username)
      case NotFound(message) =>
        Post(botKey, SendMessage(chatId, Some(messageId), message));
        return Pass;
      case Resolved(id) =>
        var currentReason := HasRole(route, id);
        if currentReason {
          Post(botKey, SendMessage(chatId, Some(messageId), Describe(username, id) + " is already added: True"));
          return Pass;
        }
        return Fail(TooManyArguments("add_role_to"));
    }

    /** `handle_remove_user_command`. */
    method HandleRemoveUserCommand(route: Route, botKey: string, chatId: int, messageId: int,
                                   username: string, resolve: Resolver) returns (out: Outcome<Fault>)
      requires Valid()
      modifies this`outbox, table`items, table`calls
      ensures Valid()
      ensures Step(Snapshot(), out) == RemoveStep(old(Snapshot()), route, botKey, chatId, messageId, username, resolve)
    {
      outbox := outbox + [GetEntity(username)];
      match resolve(username)
      case NotFound(message) =>
        Post(botKey, SendMessage(chatId, Some(messageId), message));
        return Pass;
      case Resolved(id) =>
        var member := HasRole(route, id);
        if !member {
          Post(botKey, SendMessage(chatId, Some(messageId), Describe(username, id) + " is not added"));
          return Pass;
        }
        RemoveRoleFrom(route, id);
        Post(botKey, SendMessage(chatId, Some(messageId), Describe(username, id) + " has been removed"));
        PublishCountMetric("RemoveUserCommand");
        return Pass;
    }

    /** The username-command part of `handle_command`, once a mention was
        found. */
    method HandleUsernameCommand(route: Route, botKey: string, chatId: int, fromId: int, messageId: int,
                                 command: string, text: string, mention: Entity, resolve: Resolver)
      returns (out: Outcome<Fault>)
      requires Valid() && config.Some?
      modifies this`outbox, table`items, table`calls
      ensures Valid()
      ensures Step(Snapshot(), out) == UsernameCommandStep(old(Snapshot()), route, botKey, chatId, fromId, messageId,
                                                           command, text, mention, resolve)
    {
      var username := EntityText(text, mention);
      if command == "/isbanned" {
        out := HandleIsUserBannedCommand(route, botKey, chatId, messageId, username, resolve);
      } else if command == "/add" {
        if !IsUserAdmin(config.value, fromId) {
          PublishCountMetric("NonAdminCommandIgnored");
          return Pass;
        }
        var reason := Reason(text, mention);
        out := HandleAddUserCommand(route, botKey, chatId, messageId, username, reason, resolve);
      } else if command == "/remove" {
        if !IsUserAdmin(config.value, fromId) {
          PublishCountMetric("NonAdminCommandIgnored");
          return Pass;
        }
        out := HandleRemoveUserCommand(route, botKey, chatId, messageId, username, resolve);
      } else {
        out := Pass;
      }
    }

    /** `handle_command`. */
    method HandleCommand(route: Route, botKey: string, chatId: int, fromId: int, messageId: int,
                         text: string, entities: seq<Entity>, resolve: Resolver, presign: Blacklist.Presigner)
      returns (out: Outcome<Fault>)
      requires Valid() && config.Some?
      modifies this`outbox, table`items, table`calls
      ensures Valid()
      ensures Step(Snapshot(), out) == CommandStep(old(Snapshot()), route, blacklist.outputBucketName, botKey, chatId,
                                                   fromId, messageId, text, entities, resolve, presign)
    {
      var commandEntity := FirstOfType(entities, "bot_command");
      if commandEntity.None? {
        return Pass;
      }
      var command := EntityText(text, commandEntity.value);
      if command == "/start" {
        if route.WhitelistRoute? {
          return Fail(NoAttribute("welcome_message"));
        }
        Post(botKey, SendMessage(chatId, None, Blacklist.WELCOME_MESSAGE));
        PublishCountMetric("StartCommand");
        return Pass;
      } else if command == "/getlist" {
        if route.WhitelistRoute? {
          return Fail(NoAttribute("get_blocklist_url"));
        }
        var listUrl := blacklist.GetBlocklistUrl(presign);
        if listUrl.None? {
          Post(botKey, SendMessage(chatId, Some(messageId), "No list is available."));
          return Pass;
        }
        Post(botKey, SendDocument(chatId, Some(messageId), listUrl.value));
        PublishCountMetric("GetListCommand");
        return Pass;
      }
      if command in USERNAME_COMMANDS {
        var mentionEntity := FirstOfType(entities, "mention");
        if mentionEntity.None? {
          Post(botKey, SendMessage(chatId, Some(messageId), "This command requires a username."));
          return Pass;
        }
        out := HandleUsernameCommand(route, botKey, chatId, fromId, messageId, command, text,
                                     mentionEntity.value, resolve);
      } else {
        Post(botKey, SendMessage(chatId, Some(messageId), "Unknown command"));
        PublishCountMetric("UnknownCommand");
        return Pass;
      }
    }

    /** `lambda_handler`. */
    method LambdaHandler(event: Event, world: World) returns (r: Result<Response, Fault>)
      requires Valid()
      modifies this`config, this`outbox, table`items, table`calls
      ensures Valid()
      ensures var step := LambdaStep(old(Snapshot()), event, blacklist.outputBucketName, world);
        Snapshot() == step.post && r == ResponseOf(step.outcome)
    {
      if config.None? {
        var loaded := LoadConfig(world.parameters);
        if loaded.Fail? {
          return Failure(loaded.error);
        }
      }
      var route := RouteOf(event.rawPath);
      if route.None? {
        return Failure(UnknownRoute(event.rawPath));
      }
      var out := Pass;
      if event.message.Some? {
        var m := event.message.value;
        if m.newChatParticipant.Some? {
          var p := m.newChatParticipant.value;
          out := HandleNewUser(route.value, event.botKey, m.chatId, m.chatType, p.id, ParticipantName(p),
                               m.messageId, world.kickStatus);
        } else if m.chatType == "private" && m.text.Some? && m.entities.Some? {
          out := HandleCommand(route.value, event.botKey, m.chatId, m.fromId, m.messageId,
                               m.text.value, m.entities.value, world.resolve, world.presign);
        }
      }
      r := ResponseOf(out);
    }
  }

  // =====================================================================
  // Properties of the handlers
  // =====================================================================

  /** With `root_users` stored as a `StringList`, the admins are exactly the
      ids written between the commas of its last parameter. */
  lemma AdminsFromStringList(params: seq<Parameter>, i: nat, userId: int)
    requires i < |params| && ConfigName(params[i]) == "root_users" && params[i].kind == "StringList"
    requires forall j :: i < j < |params| ==> ConfigName(params[j]) != "root_users"
    ensures "root_users" in ParseConfig(params)
    ensures IsUserAdmin(ParseConfig(params), userId) <==> PyStr.IntToString(userId) in PyStr.Split(params[i].value, ',')
  {
    ParseConfigLastWins(params, i);
  }

  /** With `root_users` stored as a plain string, the admin test is a
      substring test on the decimal id. */
  lemma AdminsFromPlainString(params: seq<Parameter>, i: nat, userId: int)
    requires i < |params| && ConfigName(params[i]) == "root_users" && params[i].kind != "StringList"
    requires forall j :: i < j < |params| ==> ConfigName(params[j]) != "root_users"
    ensures "root_users" in ParseConfig(params)
    ensures IsUserAdmin(ParseConfig(params), userId) <==> PyStr.Contains(params[i].value, PyStr.IntToString(userId))
  {
    ParseConfigLastWins(params, i);
  }

  /** A failed load leaves the cached configuration unassigned and changes
      nothing else, so the next invocation loads again; a successful load
      caches exactly the parsed parameters. */
  lemma ConfigIsWrittenOnce(s: State, event: Event, bucket: string, world: World)
    requires s.config.None?
    ensures var step := LambdaStep(s, event, bucket, world);
      && (!Complete(ParseConfig(world.parameters)) ==>
            step.post == s && step.outcome.Fail? && step.outcome.error.MissingConfigKey?)
      && (Complete(ParseConfig(world.parameters)) ==> step.post.config == Some(ParseConfig(world.parameters)))
  {
  }

  /** Routing: a join goes to admission only. */
  lemma JoinGoesToAdmission(s: State, event: Event, bucket: string, world: World, route: Route)
    requires ConfigLoaded(s)
    requires RouteOf(event.rawPath) == Some(route)
    requires event.message.Some? && event.message.value.newChatParticipant.Some?
    ensures var m := event.message.value; var p := m.newChatParticipant.value;
      LambdaStep(s, event, bucket, world)
        == NewUserStep(s, route, event.botKey, m.chatId, m.chatType, p.id, ParticipantName(p), m.messageId, world.kickStatus)
  {
  }

  /** Routing: otherwise a private message with text and entities goes to
      command handling only. */
  lemma PrivateTextGoesToCommands(s: State, event: Event, bucket: string, world: World, route: Route)
    requires ConfigLoaded(s)
    requires RouteOf(event.rawPath) == Some(route)
    requires event.message.Some? && event.message.value.newChatParticipant.None?
    requires event.message.value.chatType == "private"
    requires event.message.value.text.Some? && event.message.value.entities.Some?
    ensures var m := event.message.value;
      LambdaStep(s, event, bucket, world)
        == CommandStep(s, route, bucket, event.botKey, m.chatId, m.fromId, m.messageId,
                       m.text.value, m.entities.value, world.resolve, world.presign)
  {
  }

  /** Routing: any other message on a known route changes nothing and the
      response is 200. */
  lemma OtherMessagesDoNothing(s: State, event: Event, bucket: string, world: World)
    requires ConfigLoaded(s)
    requires RouteOf(event.rawPath).Some?
    requires event.message.Some? ==>
      event.message.value.newChatParticipant.None?
      && !(event.message.value.chatType == "private" && event.message.value.text.Some? && event.message.value.entities.Some?)
    ensures LambdaStep(s, event, bucket, world) == Step(s, Pass)
    ensures ResponseOf(LambdaStep(s, event, bucket, world).outcome) == Success(Response(200, "{}"))
  {
  }

  /** An unknown path raises once the configuration is in place: with a
      cached configuration nothing else happens; on a cold start the
      configuration is loaded and cached first, and a failed load raises its
      own missing-key fault instead. */
  lemma UnknownPathRaises(s: State, event: Event, bucket: string, world: World)
    requires ConfigOk(s)
    requires event.rawPath != "/blacklist" && event.rawPath != "/whitelist"
    ensures s.config.Some? ==> LambdaStep(s, event, bucket, world) == Step(s, Fail(UnknownRoute(event.rawPath)))
    ensures s.config.None? && Complete(ParseConfig(world.parameters)) ==>
      LambdaStep(s, event, bucket, world)
        == Step(s.(config := Some(ParseConfig(world.parameters))), Fail(UnknownRoute(event.rawPath)))
    ensures s.config.None? && !Complete(ParseConfig(world.parameters)) ==>
      var step := LambdaStep(s, event, bucket, world);
      step.post == s && step.outcome.Fail? && step.outcome.error.MissingConfigKey?
  {
  }

  /** Admission never writes the role table. */
  lemma AdmissionNeverWrites(s: State, route: Route, botKey: string, chatId: int, chatType: string,
                             userId: int, username: string, messageId: int, kickStatus: int)
    requires ConfigLoaded(s)
    ensures var step := NewUserStep(s, route, botKey, chatId, chatType, userId, username, messageId, kickStatus);
      step.post.items == s.items && step.post.config == s.config
      && |step.post.calls| <= |s.calls| + 1 && step.post.calls[..|s.calls|] == s.calls
  {
  }

  /** The bot joining a supergroup is greeted and counted, never looked up
      or kicked. */
  lemma BotIsGreeted(s: State, route: Route, botKey: string, chatId: int,
                     userId: int, username: string, messageId: int, kickStatus: int)
    requires ConfigLoaded(s)
    requires PyStr.IntToString(userId) == BotId(botKey)
    ensures NewUserStep(s, route, botKey, chatId, "supergroup", userId, username, messageId, kickStatus)
      == Step(Emit(s, [Send(Post(botKey, SendMessage(chatId, None, GREETING))), Metric("AddedToChat")]), Pass)
  {
  }

  /** An admin (other than the bot greeting case) is never kicked, and the
      role policy is not even consulted. */
  lemma AdminsAreNeverKicked(s: State, route: Route, botKey: string, chatId: int, chatType: string,
                             userId: int, username: string, messageId: int, kickStatus: int)
    requires ConfigLoaded(s)
    requires !(PyStr.IntToString(userId) == BotId(botKey) && chatType == "supergroup")
    requires IsUserAdmin(s.config.value, userId)
    ensures NewUserStep(s, route, botKey, chatId, chatType, userId, username, messageId, kickStatus) == Step(s, Pass)
  {
  }

  /** Every other joining user costs exactly one lookup, and is kicked
      exactly when the route's policy bans them. */
  lemma KickExactlyWhenBanned(s: State, route: Route, botKey: string, chatId: int, chatType: string,
                              userId: int, username: string, messageId: int, kickStatus: int)
    requires ConfigLoaded(s)
    requires !(PyStr.IntToString(userId) == BotId(botKey) && chatType == "supergroup")
    requires !IsUserAdmin(s.config.value, userId)
    ensures var step := NewUserStep(s, route, botKey, chatId, chatType, userId, username, messageId, kickStatus);
      step.post.calls == s.calls + [GetItemCall(RoleKey(userId, RoleName(route)))]
      && |step.post.outbox| >= |s.outbox|
      && (Banned(route, s.items, userId) <==>
            |step.post.outbox| > |s.outbox|
            && step.post.outbox[|s.outbox|] == Send(Post(botKey, KickChatMember(chatId, userId))))
  {
  }

  /** What follows a kick, by status: 200 counts the removal, 400 explains
      in one reply with no metric, any other 4xx/5xx raises, and other codes
      do nothing more. */
  lemma KickOutcome(s: State, botKey: string, chatId: int, username: string, messageId: int, status: int)
    ensures var step := KickStep(s, botKey, chatId, username, messageId, status);
      step.post.items == s.items && step.post.calls == s.calls
      && (status == 200 ==> step == Step(s.(outbox := s.outbox + [Metric("UserRemoved")]), Pass))
      && (status == 400 ==>
            step.outcome.Pass? && step.post.outbox == s.outbox + [Reply(botKey, chatId, messageId, NotAdminText(username))])
      && (status != 200 && status != 400 && 400 <= status < 600 ==> step == Step(s, Fail(HttpError(status))))
      && (status != 200 && !(400 <= status < 600) ==> step == Step(s, Pass))
  {
  }

  /** Without a `bot_command` entity a private message does nothing at all. */
  lemma NoCommandNoEffect(s: State, route: Route, bucket: string, botKey: string, chatId: int, fromId: int,
                          messageId: int, text: string, entities: seq<Entity>,
                          resolve: Resolver, presign: Blacklist.Presigner)
    requires ConfigLoaded(s)
    requires forall i :: 0 <= i < |entities| ==> entities[i].kind != "bot_command"
    ensures CommandStep(s, route, bucket, botKey, chatId, fromId, messageId, text, entities, resolve, presign)
      == Step(s, Pass)
  {
  }

  /** Any command other than the five known ones gets exactly one
      "Unknown command" reply and one metric, from anyone. */
  lemma UnknownCommandReply(s: State, route: Route, bucket: string, botKey: string, chatId: int, fromId: int,
                            messageId: int, text: string, entities: seq<Entity>, i: nat,
                            resolve: Resolver, presign: Blacklist.Presigner)
    requires ConfigLoaded(s)
    requires i < |entities| && entities[i].kind == "bot_command"
    requires forall j :: 0 <= j < i ==> entities[j].kind != "bot_command"
    requires EntityText(text, entities[i]) !in ["/start", "/getlist", "/isbanned", "/add", "/remove"]
    ensures CommandStep(s, route, bucket, botKey, chatId, fromId, messageId, text, entities, resolve, presign)
      == Step(Emit(s, [Reply(botKey, chatId, messageId, "Unknown command"), Metric("UnknownCommand")]), Pass)
  {
    var r := FirstOfType(entities, "bot_command");
    var k :| 0 <= k < |entities| && entities[k] == r.value && entities[k].kind == "bot_command"
      && forall j :: 0 <= j < k ==> entities[j].kind != "bot_command";
    assert k == i;
  }

  /** A username command without a mention gets one reply and stops. */
  lemma MentionRequired(s: State, route: Route, bucket: string, botKey: string, chatId: int, fromId: int,
                        messageId: int, text: string, entities: seq<Entity>,
                        resolve: Resolver, presign: Blacklist.Presigner)
    requires ConfigLoaded(s)
    requires FirstOfType(entities, "bot_command").Some?
    requires EntityText(text, FirstOfType(entities, "bot_command").value) in USERNAME_COMMANDS
    requires FirstOfType(entities, "mention").None?
    ensures CommandStep(s, route, bucket, botKey, chatId, fromId, messageId, text, entities, resolve, presign)
      == Step(Emit(s, [Reply(botKey, chatId, messageId, "This command requires a username.")]), Pass)
  {
  }

  /** A username command with its first mention is handled by the
      username-command step, with the command's text as the command. */
  lemma MentionedCommandsDispatch(s: State, route: Route, bucket: string, botKey: string, chatId: int, fromId: int,
                                  messageId: int, text: string, entities: seq<Entity>,
                                  resolve: Resolver, presign: Blacklist.Presigner)
    requires ConfigLoaded(s)
    requires FirstOfType(entities, "bot_command").Some? && FirstOfType(entities, "mention").Some?
    requires EntityText(text, FirstOfType(entities, "bot_command").value) in USERNAME_COMMANDS
    ensures CommandStep(s, route, bucket, botKey, chatId, fromId, messageId, text, entities, resolve, presign)
      == UsernameCommandStep(s, route, botKey, chatId, fromId, messageId,
                             EntityText(text, FirstOfType(entities, "bot_command").value), text,
                             FirstOfType(entities, "mention").value, resolve)
  {
  }

  /** The username commands on their success path: `/isbanned` from anyone,
      and `/add` or `/remove` from an admin, run their handler on the
      mentioned username; `/add` passes the stripped text after the mention
      as the reason. */
  lemma AdminUsernameCommands(s: State, route: Route, botKey: string, chatId: int, fromId: int, messageId: int,
                              text: string, mention: Entity, resolve: Resolver)
    requires ConfigLoaded(s)
    ensures UsernameCommandStep(s, route, botKey, chatId, fromId, messageId, "/isbanned", text, mention, resolve)
      == IsBannedStep(s, route, botKey, chatId, messageId, EntityText(text, mention), resolve)
    ensures IsUserAdmin(s.config.value, fromId) ==>
      UsernameCommandStep(s, route, botKey, chatId, fromId, messageId, "/add", text, mention, resolve)
        == AddStep(s, route, botKey, chatId, messageId, EntityText(text, mention), Reason(text, mention), resolve)
    ensures IsUserAdmin(s.config.value, fromId) ==>
      UsernameCommandStep(s, route, botKey, chatId, fromId, messageId, "/remove", text, mention, resolve)
        == RemoveStep(s, route, botKey, chatId, messageId, EntityText(text, mention), resolve)
  {
  }

  /** On the deny-list route, `/start` sends the welcome text and counts
      `StartCommand`; `/getlist` sends the presigned list as a document and
      counts `GetListCommand`, or replies "No list is available." with no
      metric when presigning fails. */
  lemma DenyListStartAndGetList(s: State, bucket: string, botKey: string, chatId: int, fromId: int,
                                messageId: int, text: string, entities: seq<Entity>,
                                resolve: Resolver, presign: Blacklist.Presigner)
    requires ConfigLoaded(s)
    requires FirstOfType(entities, "bot_command").Some?
    ensures var command := EntityText(text, FirstOfType(entities, "bot_command").value);
      var step := CommandStep(s, BlacklistRoute, bucket, botKey, chatId, fromId, messageId, text, entities, resolve, presign);
      && (command == "/start" ==>
            step == Step(Emit(s, [Send(Post(botKey, SendMessage(chatId, None, Blacklist.WELCOME_MESSAGE))),
                                  Metric("StartCommand")]), Pass))
      && (command == "/getlist" && Blacklist.BlocklistUrl(presign, bucket).None? ==>
            step == Step(Emit(s, [Reply(botKey, chatId, messageId, "No list is available.")]), Pass))
      && (command == "/getlist" && Blacklist.BlocklistUrl(presign, bucket).Some? ==>
            step == Step(Emit(s, [Send(Post(botKey, SendDocument(chatId, Some(messageId),
                                                                 Blacklist.BlocklistUrl(presign, bucket).value))),
                                  Metric("GetListCommand")]), Pass))
  {
  }

  /** `/add` and `/remove` from a non-admin give only the
      `NonAdminCommandIgnored` metric: no resolution, no store call, no
      reply. */
  lemma NonAdminsCannotChangeRoles(s: State, route: Route, botKey: string, chatId: int, fromId: int, messageId: int,
                                   command: string, text: string, mention: Entity, resolve: Resolver)
    requires ConfigLoaded(s)
    requires command == "/add" || command == "/remove"
    requires !IsUserAdmin(s.config.value, fromId)
    ensures UsernameCommandStep(s, route, botKey, chatId, fromId, messageId, command, text, mention, resolve)
      == Step(Emit(s, [Metric("NonAdminCommandIgnored")]), Pass)
  {
  }

  /** `/isbanned` and unknown commands answer the same whoever sends them. */
  lemma NoAdminCheckOnQueries(s: State, route: Route, bucket: string, botKey: string, chatId: int,
                              fromId: int, otherId: int, messageId: int, text: string, entities: seq<Entity>,
                              resolve: Resolver, presign: Blacklist.Presigner)
    requires ConfigLoaded(s)
    requires FirstOfType(entities, "bot_command").Some?
    requires EntityText(text, FirstOfType(entities, "bot_command").value) !in ["/add", "/remove"]
    ensures CommandStep(s, route, bucket, botKey, chatId, fromId, messageId, text, entities, resolve, presign)
         == CommandStep(s, route, bucket, botKey, chatId, otherId, messageId, text, entities, resolve, presign)
  {
  }

  /** A username that does not resolve is answered with the error text
      before any read or write of the role table. */
  lemma ResolutionFailureTouchesNoStore(s: State, route: Route, botKey: string, chatId: int, messageId: int,
                                        username: string, reason: string, resolve: Resolver)
    requires resolve(username).NotFound?
    ensures var expected := Step(Emit(s, [GetEntity(username),
                                          Reply(botKey, chatId, messageId, resolve(username).message)]), Pass);
      && IsBannedStep(s, route, botKey, chatId, messageId, username, resolve) == expected
      && AddStep(s, route, botKey, chatId, messageId, username, reason, resolve) == expected
      && AddStepAsWritten(s, route, botKey, chatId, messageId, username, reason, resolve) == expected
      && RemoveStep(s, route, botKey, chatId, messageId, username, resolve) == expected
  {
  }

  /** `/isbanned` only reads: one lookup, one reply that states the route's
      ban decision, one metric. */
  lemma IsBannedOnlyReads(s: State, route: Route, botKey: string, chatId: int, messageId: int,
                          username: string, resolve: Resolver)
    requires resolve(username).Resolved?
    ensures var id := resolve(username).id;
      var step := IsBannedStep(s, route, botKey, chatId, messageId, username, resolve);
      step.outcome.Pass? && step.post.items == s.items
      && step.post.calls == s.calls + [GetItemCall(RoleKey(id, RoleName(route)))]
      && |step.post.outbox| == |s.outbox| + 3
      && step.post.outbox[|s.outbox| + 2] == Metric("IsBannedCommand")
      && (Banned(route, s.items, id) <==>
            step.post.outbox[|s.outbox| + 1] == Reply(botKey, chatId, messageId, Describe(username, id) + " is banned: True"))
  {
    var id := resolve(username).id;
    assert Describe(username, id) + " is banned: True" != Describe(username, id) + " is not banned" by {
      var n := |Describe(username, id)|;
      assert (Describe(username, id) + " is banned: True")[n + 4] == 'b';
      assert (Describe(username, id) + " is not banned")[n + 4] == 'n';
    }
  }

  /** `/add` of a resolved user: afterwards the user holds the route's role;
      the table is written once exactly when they did not hold it; every
      other membership is unchanged. */
  lemma AddGrantsMembership(s: State, route: Route, botKey: string, chatId: int, messageId: int,
                            username: string, reason: string, resolve: Resolver,
                            otherId: int, otherRole: string)
    requires resolve(username).Resolved?
    requires otherId != resolve(username).id || otherRole != RoleName(route)
    ensures var id := resolve(username).id;
      var step := AddStep(s, route, botKey, chatId, messageId, username, reason, resolve);
      var get := GetItemCall(RoleKey(id, RoleName(route)));
      && step.outcome.Pass?
      && HasRoleIn(step.post.items, id, RoleName(route))
      && HasRoleIn(step.post.items, otherId, otherRole) == HasRoleIn(s.items, otherId, otherRole)
      && (HasRoleIn(s.items, id, RoleName(route)) ==>
            step.post.items == s.items && step.post.calls == s.calls + [get]
            && step.post.outbox == s.outbox + [GetEntity(username),
                 Reply(botKey, chatId, messageId, Describe(username, id) + " is already added: True")])
      && (!HasRoleIn(s.items, id, RoleName(route)) ==>
            step.post.calls == s.calls + [get, PutItemCall(RoleItem(id, RoleName(route), username))]
            && step.post.outbox == s.outbox + [GetEntity(username),
                 Reply(botKey, chatId, messageId, Describe(username, id) + " has been added: "
                                                  + (if reason != "" then reason else "No reason given")),
                 Metric("AddUserCommand")])
  {
    OtherMembershipsUnchanged(s.items, resolve(username).id, RoleName(route), username, otherId, otherRole);
  }

  /** `/remove` of a resolved user: afterwards the user does not hold the
      route's role; the table is written once exactly when they held it;
      every other membership is unchanged. */
  lemma RemoveRevokesMembership(s: State, route: Route, botKey: string, chatId: int, messageId: int,
                                username: string, resolve: Resolver, otherId: int, otherRole: string)
    requires resolve(username).Resolved?
    requires otherId != resolve(username).id || otherRole != RoleName(route)
    ensures var id := resolve(username).id;
      var step := RemoveStep(s, route, botKey, chatId, messageId, username, resolve);
      var get := GetItemCall(RoleKey(id, RoleName(route)));
      && step.outcome.Pass?
      && !HasRoleIn(step.post.items, id, RoleName(route))
      && HasRoleIn(step.post.items, otherId, otherRole) == HasRoleIn(s.items, otherId, otherRole)
      && (!HasRoleIn(s.items, id, RoleName(route)) ==>
            step.post.items == s.items && step.post.calls == s.calls + [get]
            && step.post.outbox == s.outbox + [GetEntity(username),
                 Reply(botKey, chatId, messageId, Describe(username, id) + " is not added")])
      && (HasRoleIn(s.items, id, RoleName(route)) ==>
            step.post.calls == s.calls + [get, DeleteItemCall(RoleKey(id, RoleName(route)))]
            && step.post.outbox == s.outbox + [GetEntity(username),
                 Reply(botKey, chatId, messageId, Describe(username, id) + " has been removed"),
                 Metric("RemoveUserCommand")])
  {
    OtherMembershipsUnchanged(s.items, resolve(username).id, RoleName(route), username, otherId, otherRole);
  }

  /** `/remove` undoes an `/add` of a user who was not a member. */
  lemma RemoveUndoesAdd(s: State, route: Route, botKey: string, chatId: int, messageId: int,
                        username: string, reason: string, resolve: Resolver)
    requires resolve(username).Resolved?
    requires !HasRoleIn(s.items, resolve(username).id, RoleName(route))
    ensures var added := AddStep(s, route, botKey, chatId, messageId, username, reason, resolve).post;
      RemoveStep(added, route, botKey, chatId, messageId, username, resolve).post.items == s.items
  {
    AddThenRemove(s.items, resolve(username).id, RoleName(route), username);
  }

  /** The `/add` handler as written never stores anything, and for a
      resolved non-member it raises with no reply and no metric, where the
      intended handler grants the role. */
  lemma AddAsWrittenNeverStores(s: State, route: Route, botKey: string, chatId: int, messageId: int,
                                username: string, reason: string, resolve: Resolver)
    ensures AddStepAsWritten(s, route, botKey, chatId, messageId, username, reason, resolve).post.items == s.items
    ensures resolve(username).Resolved? && !HasRoleIn(s.items, resolve(username).id, RoleName(route)) ==>
      var step := AddStepAsWritten(s, route, botKey, chatId, messageId, username, reason, resolve);
      && step.outcome == Fail(TooManyArguments("add_role_to"))
      && step.post.outbox == s.outbox + [GetEntity(username)]
      && !HasRoleIn(step.post.items, resolve(username).id, RoleName(route))
      && HasRoleIn(AddStep(s, route, botKey, chatId, messageId, username, reason, resolve).post.items,
                   resolve(username).id, RoleName(route))
  {
  }

  /** On the allow-list route `/start` and `/getlist` raise, because that
      handler has neither a welcome text nor an exported list. */
  lemma AllowListRouteLacksStartAndGetList(s: State, bucket: string, botKey: string, chatId: int, fromId: int,
                                           messageId: int, text: string, entities: seq<Entity>,
                                           resolve: Resolver, presign: Blacklist.Presigner)
    requires ConfigLoaded(s)
    requires FirstOfType(entities, "bot_command").Some?
    requires EntityText(text, FirstOfType(entities, "bot_command").value) in ["/start", "/getlist"]
    ensures var step := CommandStep(s, WhitelistRoute, bucket, botKey, chatId, fromId, messageId, text, entities, resolve, presign);
      step.post == s && step.outcome.Fail? && step.outcome.error.NoAttribute?
  {
  }
}
