/**
  The scenarios of the first bot's unit tests (tests/unit/test_handler.py),
  stated over the model of autoblock_function/app.py.
 */
module LegacyScenarios {
  import opened Wrappers
  import opened Telegram
  import PyStr
  import opened Legacy

  /** The configuration the tests load: `bot_key`, `api_id` and `api_hash`
      with their values. */
  const TEST_CONFIG: Config := map["bot_key" := "SECRET_KEY", "api_id" := "API_ID", "api_hash" := "API_HASH"]

  /** `/autoblock_bot/bot_key` configures the key `bot_key`. */
  lemma TestParameterNames(path: string)
    ensures ConfigName(Parameter(path + "/bot_key", "SECRET_KEY")) == "bot_key"
    ensures ConfigName(Parameter(path + "/api_id", "API_ID")) == "api_id"
    ensures ConfigName(Parameter(path + "/api_hash", "API_HASH")) == "api_hash"
  {
    PyStr.LastSegmentAfterSep(path, '/', "bot_key");
    PyStr.LastSegmentAfterSep(path, '/', "api_id");
    PyStr.LastSegmentAfterSep(path, '/', "api_hash");
    assert path + "/bot_key" == path + ['/'] + "bot_key";
    assert path + "/api_id" == path + ['/'] + "api_id";
    assert path + "/api_hash" == path + ['/'] + "api_hash";
  }

  /** The key the ban scenario looks up. */
  lemma BannedUserKey()
    ensures UserKey(999999402) == "user_999999402"
  {
    DigitsOf999999402();
  }

  /** The key the command scenario looks up. */
  lemma AdminUserKey()
    ensures AdminKey(99999999) == "admin_99999999"
  {
    assert PyStr.NatToString(9) == "9";
    assert PyStr.NatToString(99) == "99";
    assert PyStr.NatToString(999) == "999";
    assert PyStr.NatToString(9999) == "9999";
    assert PyStr.NatToString(99999) == "99999";
    assert PyStr.NatToString(999999) == "999999";
    assert PyStr.NatToString(9999999) == "9999999";
    assert PyStr.NatToString(99999999) == "99999999";
  }

  /** `str(999999402)`, one digit at a time. */
  lemma DigitsOf999999402()
    ensures PyStr.NatToString(999999402) == "999999402"
  {
    assert PyStr.NatToString(9) == "9";
    assert PyStr.NatToString(99) == "99";
    assert PyStr.NatToString(999) == "999";
    assert PyStr.NatToString(9999) == "9999";
    assert PyStr.NatToString(99999) == "99999";
    assert PyStr.NatToString(999999) == "999999";
    assert PyStr.NatToString(9999994) == "9999994";
    assert PyStr.NatToString(99999940) == "99999940";
  }

  /** A banned user joins: one lookup at `user_999999402` and one kick of
      that user in chat -1009999992388, with the test's bot key. */
  lemma BannedUserScenario(m: Message)
    requires m.chatId == -1009999992388
    requires m.newChatParticipant.Some? && m.newChatParticipant.value.id == 999999402
    requires m.newChatParticipant.value.username.Some?
    ensures var s := State(Some(TEST_CONFIG), {"user_999999402"}, [], []);
      var step := LambdaStep(s, Event(Some(m)), []);
      && step.outcome.Pass?
      && step.post.lookups == ["user_999999402"]
      && step.post.posts == [Post("SECRET_KEY", KickChatMember(-1009999992388, 999999402))]
  {
    var s := State(Some(TEST_CONFIG), {"user_999999402"}, [], []);
    BannedUserKey();
    JoinKicksExactlyTheBanned(s, Event(Some(m)));
  }

  /** An admin sends a command: one lookup at `admin_99999999` and one
      "Unknown command" reply to message 13. */
  lemma AdminCommandScenario(m: Message)
    requires m.chatId == 99999999 && m.fromId == 99999999 && m.messageId == 13
    requires m.chatType == "private" && m.newChatParticipant.None?
    requires m.text.Some? && m.entities.Some?
    ensures var s := State(Some(TEST_CONFIG), {"admin_99999999"}, [], []);
      var step := LambdaStep(s, Event(Some(m)), []);
      && step.outcome.Pass?
      && step.post.lookups == ["admin_99999999"]
      && step.post.posts == [Post("SECRET_KEY", SendMessage(99999999, Some(13), "Unknown command"))]
  {
    var s := State(Some(TEST_CONFIG), {"admin_99999999"}, [], []);
    AdminUserKey();
    CommandsAnswerAdminsOnly(s, Event(Some(m)));
  }
}
