/** The chatbot plugins: the shared behaviour of `AbstractChatbotPlugin`
    (content normalisation, keyword search, the bot user and the reply it
    saves) and the three concrete plugins, which differ only in name,
    priority, keywords and replies. `TimePlugin` repeats `DateTimePlugin`
    line for line; it is a third kind with the same tables. */
module ChatbotPlugins {
  import opened Wrappers
  import opened Text
  import opened Entities
  import opened Repositories

  datatype Kind = Generic | DateTime | Time

  /** `getName`. */
  function Name(k: Kind): string {
    match k
    case Generic => "generic_chatbot"
    case DateTime => "date_time_chatbot"
    case Time => "date_time_chatbot"
  }

  /** `getPriority`: the class constant `PRIORITY`. */
  function Priority(k: Kind): int {
    match k
    case Generic => 10
    case DateTime => 20
    case Time => 20
  }

  /** The generic plugin's keyword table, in declaration order. */
  const KeywordResponses: seq<(string, string)> := [
    ("hello", "Hi there! How can I help you today?"),
    ("hi", "Hello! What can I do for you?"),
    ("help", "I can assist you with various tasks. What do you need?"),
    ("bye", "Goodbye! Have a great day!"),
    ("thanks", "You're welcome! Happy to help!"),
    ("thank you", "You're welcome! Is there anything else I can help with?")
  ]

  const TimeKeywords: seq<string> := ["time", "what time", "current time", "clock"]
  const DateKeywords: seq<string> := ["date", "what date", "today", "current date"]

  /** `array_keys` of a keyword table. */
  function Keys(table: seq<(string, string)>): (r: seq<string>)
    ensures |r| == |table| && forall i :: 0 <= i < |table| ==> r[i] == table[i].0
  {
    seq(|table|, i requires 0 <= i < |table| => table[i].0)
  }

  /** The keywords a plugin's `supports` searches for. */
  function KeywordsOf(k: Kind): seq<string> {
    match k
    case Generic => Keys(KeywordResponses)
    case DateTime => TimeKeywords + DateKeywords
    case Time => TimeKeywords + DateKeywords
  }

  /** `normalizeContent`: `mb_strtolower(trim(s))`. */
  function Normalize(s: string): string {
    Lower(Trim(s, PhpWhitespace))
  }

  /** Normalising a normalised string changes nothing. */
  lemma NormalizeIdempotent(s: string)
    ensures Normalize(Normalize(s)) == Normalize(s)
  {
    var t := Trim(s, PhpWhitespace);
    PhpWhitespaceLetterFree();
    TrimLowerCommute(t, PhpWhitespace);
    TrimIdempotent(s, PhpWhitespace);
    LowerIsLowerCase(t);
  }

  /** Normalisation ignores case: strings that agree once lower-cased
      normalise to the same string. */
  lemma NormalizeIgnoresCase(a: string, b: string)
    requires Lower(a) == Lower(b)
    ensures Normalize(a) == Normalize(b)
  {
    PhpWhitespaceLetterFree();
    TrimLowerCommute(a, PhpWhitespace);
    TrimLowerCommute(b, PhpWhitespace);
  }

  /** What `containsKeyword(content, keywords)` decides: some keyword,
      lower-cased, occurs in the normalised content. */
  predicate MatchesAny(content: string, keywords: seq<string>) {
    exists k | k in keywords :: Contains(Normalize(content), Lower(k))
  }

  /** `containsKeyword`: the loop over the keywords with its early return. */
  method ContainsKeyword(content: string, keywords: seq<string>) returns (found: bool)
    ensures found <==> exists i :: 0 <= i < |keywords| && Contains(Normalize(content), Lower(keywords[i]))
    ensures found == MatchesAny(content, keywords)
    ensures keywords == [] ==> !found
  {
    var normalized := Normalize(content);
    for i := 0 to |keywords|
      invariant forall j :: 0 <= j < i ==> !Contains(normalized, Lower(keywords[j]))
    {
      if Contains(normalized, Lower(keywords[i])) {
        return true;
      }
    }
    return false;
  }

  /** Searching in already normalised content, as `supports` and `process`
      do, decides the same as searching in the raw content. */
  lemma MatchesAnyNormalized(content: string, keywords: seq<string>)
    ensures MatchesAny(Normalize(content), keywords) == MatchesAny(content, keywords)
  {
    NormalizeIdempotent(content);
  }

  /** One keyword that occurs is enough. */
  lemma MatchesAt(content: string, keywords: seq<string>, i: nat)
    requires i < |keywords| && Contains(Normalize(content), Lower(keywords[i]))
    ensures MatchesAny(content, keywords)
  {
    assert keywords[i] in keywords;
  }

  /** Matching is case-insensitive on the content side. */
  lemma MatchingIgnoresCase(a: string, b: string, keywords: seq<string>)
    requires Lower(a) == Lower(b)
    ensures MatchesAny(a, keywords) == MatchesAny(b, keywords)
  {
    NormalizeIgnoresCase(a, b);
  }

  /** Matching is case-insensitive on the keyword side. */
  lemma MatchingIgnoresKeywordCase(content: string, keywords: seq<string>, k: string)
    requires k in keywords
    ensures MatchesAny(content, keywords) == MatchesAny(content, keywords + [Lower(k)])
  {
    LowerIsLowerCase(k);
  }

  /** Every keyword of the three plugins is written in lower case, so
      `str_contains` on normalised content needs no further lower-casing. */
  lemma KeywordsAreLowerCase()
    ensures forall i :: 0 <= i < |KeywordResponses| ==> IsLowerCase(KeywordResponses[i].0)
    ensures forall k :: k in TimeKeywords + DateKeywords ==> IsLowerCase(k)
  {
  }

  /** The TypeError PHP raises when `normalizeContent` receives null. */
  const NullContentError: string :=
    "normalizeContent(): Argument #1 ($content) must be of type string, null given"

  /** What a plugin's `supports` answers for a message with the given owner
      and content: false without a user; a TypeError for a null content
      (under strict types `normalizeContent` demands a string); otherwise
      whether a keyword occurs in the normalised content. */
  function SupportsAnswer(k: Kind, hasUser: bool, content: Option<string>): Call<bool> {
    if !hasUser then Returns(false)
    else if content.None? then Throws(NullContentError)
    else Returns(MatchesAny(Normalize(content.value), KeywordsOf(k)))
  }

  /** `supports` is true exactly for a message with a user whose content
      contains one of the plugin's keywords. */
  lemma SupportsIff(k: Kind, hasUser: bool, content: Option<string>)
    ensures SupportsAnswer(k, hasUser, content) == Returns(true)
      <==> hasUser && content.Some? && MatchesAny(content.value, KeywordsOf(k))
    ensures SupportsAnswer(k, hasUser, content).Throws? <==> hasUser && content.None?
  {
    if content.Some? {
      MatchesAnyNormalized(content.value, KeywordsOf(k));
    }
  }

  /** The two clock readings the date/time plugins format: `H:i:s` and
      `l, F j, Y`. */
  datatype Clock = Clock(time: string, date: string)

  function TimeReply(time: string): string {
    "The current time is " + time + "."
  }

  function DateReply(date: string): string {
    "Today is " + date + "."
  }

  /** A time reply is never a date reply. */
  lemma TimeReplyIsNotDateReply(time: string, date: string)
    ensures TimeReply(time) != DateReply(date)
  {
    assert TimeReply(time)[1] != DateReply(date)[1];
  }

  /** The response of the first table entry whose keyword occurs in
      `content`, or none. */
  function FirstResponse(table: seq<(string, string)>, content: string): Option<string> {
    if table == [] then None
    else if Contains(content, table[0].0) then Some(table[0].1)
    else FirstResponse(table[1..], content)
  }

  /** `FirstResponse` finds a response exactly when some keyword occurs, and
      the response it finds is that of the earliest such entry. */
  lemma {:induction false} FirstResponseIsEarliest(table: seq<(string, string)>, content: string)
    ensures FirstResponse(table, content).Some?
      <==> exists i :: 0 <= i < |table| && Contains(content, table[i].0)
    ensures forall i ::
      (0 <= i < |table| && Contains(content, table[i].0)
       && forall j :: 0 <= j < i ==> !Contains(content, table[j].0))
      ==> FirstResponse(table, content) == Some(table[i].1)
  {
    if table != [] {
      FirstResponseIsEarliest(table[1..], content);
      if !Contains(content, table[0].0) {
        forall i | 0 < i < |table| && Contains(content, table[i].0)
          && (forall j :: 0 <= j < i ==> !Contains(content, table[j].0))
          ensures FirstResponse(table, content) == Some(table[i].1)
        {
          assert table[1..][i - 1] == table[i];
          assert forall j :: 0 <= j < i - 1 ==> table[1..][j] == table[j + 1];
        }
        assert (exists i :: 0 <= i < |table| && Contains(content, table[i].0))
          ==> exists i :: 0 <= i < |table[1..]| && Contains(content, table[1..][i].0);
      }
    }
  }

  /** The reply `process` builds once it has normalised the content, or
      none when it builds none. The generic plugin answers with the first
      table entry whose keyword occurs; the date/time plugins answer with
      the time when a time keyword occurs, else with the date when a date
      keyword occurs. */
  function ReplyOn(k: Kind, normalized: string, clock: Clock): Option<string> {
    match k
    case Generic => FirstResponse(KeywordResponses, normalized)
    case _ =>
      if MatchesAny(normalized, TimeKeywords) then Some(TimeReply(clock.time))
      else if MatchesAny(normalized, DateKeywords) then Some(DateReply(clock.date))
      else None
  }

  /** The reply `process` builds for a message with the given content. */
  function Reply(k: Kind, content: string, clock: Clock): Option<string> {
    ReplyOn(k, Normalize(content), clock)
  }

  /** The generic plugin's keywords are their own lower-casing. */
  lemma KeywordResponsesLower()
    ensures forall i :: 0 <= i < |KeywordResponses| ==> Lower(KeywordResponses[i].0) == KeywordResponses[i].0
  {
    KeywordsAreLowerCase();
    forall i | 0 <= i < |KeywordResponses|
      ensures Lower(KeywordResponses[i].0) == KeywordResponses[i].0
    {
      LowerOfLowerCase(KeywordResponses[i].0);
    }
  }

  lemma MatchFindsResponse(table: seq<(string, string)>, content: string)
    requires forall i :: 0 <= i < |table| ==> Lower(table[i].0) == table[i].0
    requires MatchesAny(content, Keys(table))
    ensures FirstResponse(table, Normalize(content)).Some?
  {
    var normalized := Normalize(content);
    var kw :| kw in Keys(table) && Contains(normalized, Lower(kw));
    var i :| 0 <= i < |table| && Keys(table)[i] == kw;
    assert Contains(normalized, table[i].0);
    FirstResponseIsEarliest(table, normalized);
  }

  lemma ResponseFindsMatch(table: seq<(string, string)>, content: string)
    requires forall i :: 0 <= i < |table| ==> Lower(table[i].0) == table[i].0
    requires FirstResponse(table, Normalize(content)).Some?
    ensures MatchesAny(content, Keys(table))
  {
    var normalized := Normalize(content);
    FirstResponseIsEarliest(table, normalized);
    var i :| 0 <= i < |table| && Contains(normalized, table[i].0);
    assert Contains(normalized, Lower(Keys(table)[i]));
    MatchesAt(content, Keys(table), i);
  }

  /** For a table of lower-case keywords, the search for the first entry
      finds one exactly when some keyword of the table matches. */
  lemma FirstResponseIffMatch(table: seq<(string, string)>, content: string)
    requires forall i :: 0 <= i < |table| ==> Lower(table[i].0) == table[i].0
    ensures FirstResponse(table, Normalize(content)).Some? <==> MatchesAny(content, Keys(table))
  {
    if MatchesAny(content, Keys(table)) {
      MatchFindsResponse(table, content);
    }
    if FirstResponse(table, Normalize(content)).Some? {
      ResponseFindsMatch(table, content);
    }
  }

  lemma GenericMatchIffReply(content: string, clock: Clock)
    ensures MatchesAny(content, KeywordsOf(Generic)) <==> Reply(Generic, content, clock).Some?
  {
    KeywordResponsesLower();
    FirstResponseIffMatch(KeywordResponses, content);
  }

  lemma DateTimeMatchIffReply(k: Kind, content: string, clock: Clock)
    requires k != Generic
    ensures MatchesAny(content, KeywordsOf(k)) <==> Reply(k, content, clock).Some?
  {
    MatchesAnyNormalized(content, TimeKeywords);
    MatchesAnyNormalized(content, DateKeywords);
    assert MatchesAny(content, TimeKeywords + DateKeywords)
      <==> MatchesAny(content, TimeKeywords) || MatchesAny(content, DateKeywords);
  }

  /** What `process` does for a keyword it finds is what `supports` tests
      for: `supports` on a message with a user is true exactly when
      `process` produces a reply. */
  lemma SupportsIffReply(k: Kind, content: string, clock: Clock)
    ensures MatchesAny(content, KeywordsOf(k)) <==> Reply(k, content, clock).Some?
  {
    if k == Generic {
      GenericMatchIffReply(content, clock);
    } else {
      DateTimeMatchIffReply(k, content, clock);
    }
  }

  /** The date/time plugins: a time keyword wins over a date keyword, and the
      date reply comes exactly when there is no time keyword but a date
      keyword. */
  lemma TimeBeforeDate(k: Kind, content: string, clock: Clock)
    requires k != Generic
    ensures MatchesAny(content, TimeKeywords) ==> Reply(k, content, clock) == Some(TimeReply(clock.time))
    ensures Reply(k, content, clock) == Some(DateReply(clock.date))
      <==> !MatchesAny(content, TimeKeywords) && MatchesAny(content, DateKeywords)
    ensures Reply(k, content, clock) == None
      <==> !MatchesAny(content, TimeKeywords) && !MatchesAny(content, DateKeywords)
  {
    MatchesAnyNormalized(content, TimeKeywords);
    MatchesAnyNormalized(content, DateKeywords);
    TimeReplyIsNotDateReply(clock.time, clock.date);
  }

  /** A plain lower-case word without surrounding whitespace normalises
      to itself. */
  lemma NormalizePlain(s: string)
    requires s != [] && s[0] !in PhpWhitespace && s[|s| - 1] !in PhpWhitespace
    requires IsLowerCase(s)
    ensures Normalize(s) == s
  {
    TrimLeftNoop(s, PhpWhitespace);
    TrimRightNoop(s, PhpWhitespace);
    LowerOfLowerCase(s);
  }

  /** The earlier table entry wins: content containing `hello` gets the
      `hello` response, whatever later keywords (`thanks`, say) it also
      contains. */
  lemma EarlierEntryWins(content: string, clock: Clock)
    requires Contains(Normalize(content), "hello")
    ensures Reply(Generic, content, clock) == Some("Hi there! How can I help you today?")
  {
  }

  /** The bot user's email, `bot+<name>@local.io`. */
  function BotEmail(name: string): string {
    "bot+" + name + "@local.io"
  }

  /** Distinct plugin names give distinct bot emails, and the two date/time
      plugins, which share a name, share one bot user. */
  lemma BotEmailInjective(a: string, b: string)
    ensures BotEmail(a) == BotEmail(b) <==> a == b
  {
    if BotEmail(a) == BotEmail(b) {
      assert |a| == |b|;
      assert a == BotEmail(a)[4..4 + |a|];
      assert b == BotEmail(b)[4..4 + |b|];
    }
  }

  /** `getBotDisplayName`: `ucwords(str_replace('_', ' ', name))`. */
  function BotDisplayName(name: string): (r: string)
    ensures |r| == |name|
  {
    UcWords(ReplaceChar(name, '_', ' '))
  }

  /** The display name is the plugin name with spaces for underscores, up
      to case. */
  lemma BotDisplayNameCase(name: string)
    ensures Lower(BotDisplayName(name)) == Lower(ReplaceChar(name, '_', ' '))
  {
    UcWordsOnlyChangesCase(ReplaceChar(name, '_', ' '));
  }

  /** The display name of `a_b`: the first word capitalised, a space, and
      the display name of the rest. */
  lemma DisplayNameSplit(a: string, b: string)
    requires a != []
    ensures BotDisplayName(a + "_" + b) == UcWords(ReplaceChar(a, '_', ' ')) + " " + BotDisplayName(b)
  {
    ReplaceCharAppend(a, b, '_', ' ');
    assert a + "_" + b == a + ['_'] + b;
    UcWordsSpace(ReplaceChar(a, '_', ' '), ReplaceChar(b, '_', ' '));
  }

  lemma GenericWords()
    ensures UcWords(ReplaceChar("generic", '_', ' ')) == "Generic"
    ensures BotDisplayName("chatbot") == "Chatbot"
  {
    assert ReplaceChar("generic", '_', ' ') == "generic";
    assert ReplaceChar("chatbot", '_', ' ') == "chatbot";
  }

  lemma DateTimeWords()
    ensures UcWords(ReplaceChar("date", '_', ' ')) == "Date"
    ensures UcWords(ReplaceChar("time", '_', ' ')) == "Time"
  {
    assert ReplaceChar("date", '_', ' ') == "date";
    assert ReplaceChar("time", '_', ' ') == "time";
  }

  /** `generic_chatbot` is shown as `Generic Chatbot`. */
  lemma GenericDisplayName()
    ensures BotDisplayName(Name(Generic)) == "Generic Chatbot"
  {
    assert Name(Generic) == "generic" + "_" + "chatbot";
    DisplayNameSplit("generic", "chatbot");
    GenericWords();
  }

  lemma DateTimeNameWords()
    ensures Name(DateTime) == "date" + "_" + ("time" + "_" + "chatbot")
  {
  }

  lemma TimeChatbotDisplayName()
    ensures BotDisplayName("time" + "_" + "chatbot") == "Time" + " " + "Chatbot"
  {
    DisplayNameSplit("time", "chatbot");
    GenericWords();
    DateTimeWords();
  }

  /** `date_time_chatbot` is shown as `Date Time Chatbot`. */
  lemma DateTimeDisplayName()
    ensures BotDisplayName(Name(DateTime)) == "Date" + " " + ("Time" + " " + "Chatbot")
  {
    DateTimeNameWords();
    DisplayNameSplit("date", "time" + "_" + "chatbot");
    TimeChatbotDisplayName();
    DateTimeWords();
  }

  /** The bot user `getBotUser` creates when none exists: email and display
      name from the plugin name, an empty password and roles `[ROLE_BOT]`. */
  function NewBotUser(name: string): User {
    User(BotEmail(name), BotDisplayName(name), "", ["ROLE_BOT"])
  }

  /** The bot user `getBotUser` returns: the cached one, else the stored
      one, else a new one. */
  function ResolveBot(cached: Option<User>, stored: Option<User>, name: string): User {
    if cached.Some? then cached.value
    else if stored.Some? then stored.value
    else NewBotUser(name)
  }

  /** A message as `createBotResponse` builds it. */
  ghost predicate IsBotReply(m: Message, text: string, bot: User)
    reads m, m.Repr
  {
    m.Valid() && m.content == Some(text) && m.user == Some(bot) && m.status == StatusReceived
    && m.inReplyTo == null && m.replies == []
  }

  /** The generic plugin's loop over its table: the response of the first
      entry whose keyword occurs in the normalised content. */
  method FirstMatchingResponse(content: string) returns (r: Option<string>)
    ensures r == FirstResponse(KeywordResponses, content)
  {
    for i := 0 to |KeywordResponses|
      invariant FirstResponse(KeywordResponses[i..], content) == FirstResponse(KeywordResponses, content)
    {
      assert KeywordResponses[i..][1..] == KeywordResponses[i + 1..];
      if Contains(content, KeywordResponses[i].0) {
        return Some(KeywordResponses[i].1);
      }
    }
    return None;
  }

  /** The date/time plugins' two tests, time first, on normalised content. */
  method TimeOrDateResponse(content: string, clock: Clock) returns (r: Option<string>)
    ensures r == ReplyOn(DateTime, content, clock) && r == ReplyOn(Time, content, clock)
  {
    var isTime := ContainsKeyword(content, TimeKeywords);
    if isTime {
      return Some(TimeReply(clock.time));
    }
    var isDate := ContainsKeyword(content, DateKeywords);
    if isDate {
      return Some(DateReply(clock.date));
    }
    return None;
  }

  class ChatbotPlugin {
    const kind: Kind
    const messageRepository: MessageRepository
    const userRepository: UserRepository
    /** The lazily resolved bot user. */
    var botUser: Option<User>

    constructor (kind: Kind, messageRepository: MessageRepository, userRepository: UserRepository)
      ensures this.kind == kind && botUser == None
      ensures this.messageRepository == messageRepository && this.userRepository == userRepository
    {
      this.kind := kind;
      this.messageRepository := messageRepository;
      this.userRepository := userRepository;
      botUser := None;
    }

    /** `getBotUser` happened between the two states: the lookup by email ran
        only if nothing was cached, a new user was saved with flush only if
        the lookup found none, and the result is now cached. */
    twostate predicate BotResolved()
      reads this, userRepository
    {
      var name := Name(kind);
      var email := BotEmail(name);
      var stored := Lookup(old(userRepository.users), email);
      var created := old(botUser).None? && stored.None?;
      && botUser == Some(ResolveBot(old(botUser), stored, name))
      && userRepository.lookups == old(userRepository.lookups) + (if old(botUser).None? then [email] else [])
      && userRepository.users == old(userRepository.users) + (if created then [NewBotUser(name)] else [])
      && userRepository.saves == old(userRepository.saves)
        + (if created then [UserSave(NewBotUser(name), true)] else [])
    }

    /** `supports`. */
    method Supports(message: Message) returns (r: Call<bool>)
      ensures r == SupportsAnswer(kind, message.user.Some?, message.content)
    {
      if message.user.None? {
        return Returns(false);
      }
      if message.content.None? {
        return Throws(NullContentError);
      }
      var normalized := Normalize(message.content.value);
      var found := ContainsKeyword(normalized, KeywordsOf(kind));
      return Returns(found);
    }

    /** `getBotUser`. */
    method GetBotUser() returns (u: User)
      modifies this`botUser, userRepository
      ensures BotResolved() && botUser == Some(u)
      ensures old(botUser).Some? ==> u == old(botUser).value && unchanged(userRepository)
    {
      if botUser.None? {
        var email := BotEmail(Name(kind));
        var found := userRepository.FindByEmail(email);
        if found.None? {
          var created := NewBotUser(Name(kind));
          userRepository.Save(created, true);
          found := Some(created);
        }
        botUser := found;
      }
      u := botUser.value;
    }

    /** `createBotResponse`: a new message with the given content, the bot
        user and status `received`, saved once with flush, which inserts it
        with the generated id at the head of the rows. It is not linked to
        the original message: `inReplyTo` stays null. */
    method CreateBotResponse(original: Message, text: string) returns (reply: Message)
      modifies this`botUser, userRepository, messageRepository
      ensures BotResolved() && botUser.Some?
      ensures fresh(reply) && IsBotReply(reply, text, botUser.value)
      ensures reply.id == Some(old(messageRepository.nextId))
      ensures messageRepository.saves == old(messageRepository.saves) + [MessageSave(reply, true)]
      ensures messageRepository.rows == [reply] + old(messageRepository.rows)
      ensures messageRepository.nextId == old(messageRepository.nextId) + 1
    {
      reply := new Message();
      var _ := reply.SetContent(text);
      var bot := GetBotUser();
      var _ := reply.SetUser(Some(bot));
      var _ := reply.SetStatus(StatusReceived);
      assert IsBotReply(reply, text, bot);
      messageRepository.Save(reply, true);
      assert IsBotReply(reply, text, bot);
      ghost var resolved, lookups, users, saves := botUser, userRepository.lookups, userRepository.users, userRepository.saves;
      // the second lookup, for the log line, is answered from the cache
      var _ := GetBotUser();
      assert botUser == resolved && userRepository.lookups == lookups;
      assert userRepository.users == users && userRepository.saves == saves;
    }

    /** The reply `process` chooses for the content, by the plugin's kind:
        normalise, then search the table or test for time and date. */
    method ChooseReply(content: string, clock: Clock) returns (reply: Option<string>)
      ensures reply == Reply(kind, content, clock)
    {
      var normalized := Normalize(content);
      if kind == Generic {
        reply := FirstMatchingResponse(normalized);
      } else {
        reply := TimeOrDateResponse(normalized, clock);
      }
    }

    /** The saving half of `process`: `createBotResponse` for the chosen
        text, if any, and nothing otherwise. */
    method Respond(message: Message, text: Option<string>)
      modifies this`botUser, userRepository, messageRepository
      ensures text.None? ==> unchanged(this, userRepository, messageRepository)
      ensures text.Some? ==>
        && BotResolved() && botUser.Some?
        && |messageRepository.saves| == |old(messageRepository.saves)| + 1
        && messageRepository.saves[..|old(messageRepository.saves)|] == old(messageRepository.saves)
        && var saved := messageRepository.saves[|old(messageRepository.saves)|];
        && saved.flush && fresh(saved.message)
        && IsBotReply(saved.message, text.value, botUser.value)
        && saved.message.id == Some(old(messageRepository.nextId))
        && messageRepository.rows == [saved.message] + old(messageRepository.rows)
        && messageRepository.nextId == old(messageRepository.nextId) + 1
    {
      if text.Some? {
        var _ := CreateBotResponse(message, text.value);
      }
    }

    /** `process`: at most one reply, the one `Reply` selects, saved through
        `createBotResponse`; a TypeError for a null content. */
    method Process(message: Message, clock: Clock) returns (outcome: Call<()>)
      modifies this`botUser, userRepository, messageRepository
      ensures message.content.None? ==> outcome == Throws(NullContentError)
      ensures message.content.Some? ==> outcome == Returns(())
      ensures message.content.None? || Reply(kind, message.content.value, clock).None?
        ==> unchanged(this, userRepository, messageRepository)
      ensures message.content.Some? && Reply(kind, message.content.value, clock).Some? ==>
        && BotResolved() && botUser.Some?
        && |messageRepository.saves| == |old(messageRepository.saves)| + 1
        && messageRepository.saves[..|old(messageRepository.saves)|] == old(messageRepository.saves)
        && var saved := messageRepository.saves[|old(messageRepository.saves)|];
        && saved.flush && fresh(saved.message)
        && IsBotReply(saved.message, Reply(kind, message.content.value, clock).value, botUser.value)
        && saved.message.id == Some(old(messageRepository.nextId))
        && messageRepository.rows == [saved.message] + old(messageRepository.rows)
        && messageRepository.nextId == old(messageRepository.nextId) + 1
    {
      if message.content.None? {
        return Throws(NullContentError);
      }
      var reply := ChooseReply(message.content.value, clock);
      Respond(message, reply);
      return Returns(());
    }
  }
}
