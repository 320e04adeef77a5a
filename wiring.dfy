/** How the plugins are built. The constructor of `AbstractChatbotPlugin`
    takes the message repository, the user repository and the logger, and
    `TimePlugin` inherits it. `GenericChatbotPlugin` and `DateTimePlugin`
    declare constructors of their own that take only the message
    repository and a logger and do not call the parent's, so in them
    `userRepository` is never set. `getBotUser` reads it whenever no bot
    user is cached, and reading a typed property that was never set raises
    an Error; the cache then stays empty, so every reply those two plugins
    try to save ends in that Error, before anything is saved. The rest of
    the model builds every plugin with both repositories, as the abstract
    constructor and the plugin tests do. */
module PluginWiring {
  import opened Wrappers
  import opened Text
  import opened ChatbotPlugins
  import opened PluginManager
  import opened ChatbotDispatch
  import opened PluginExamples

  /** The Error PHP raises on reading the typed property that was never set. */
  const UnsetUserRepository: string :=
    "Typed property App\\Chatbot\\Plugin\\AbstractChatbotPlugin::$userRepository must not be accessed before initialization"

  /** Whether the constructor a plugin of kind `k` runs sets `userRepository`. */
  predicate SetsUserRepository(k: Kind) {
    k == Time
  }

  /** How each plugin's `process` ends for `m` with the plugins built as
      they are: the TypeError for a null content; the Error of the unset
      repository when a plugin that never set it has chosen a reply; else
      normally. */
  function ProcessAsBuilt(m: Incoming, clock: Clock): Plugin -> Call<()> {
    p => if m.content.None? then Throws(NullContentError)
         else if Reply(KindOf(p), m.content.value, clock).Some? && !SetsUserRepository(KindOf(p))
         then Throws(UnsetUserRepository)
         else Returns(())
  }

  /** As built, a plugin that supports a message with a user and a content
      fails on it unless it is a `TimePlugin`. */
  lemma SupportedFailsAsBuilt(m: Incoming, clock: Clock, p: Plugin)
    requires m.hasUser && m.content.Some?
    requires SupportsFor(m)(p) == Returns(true)
    ensures ProcessAsBuilt(m, clock)(p).Throws? <==> KindOf(p) != Time
  {
    SupportsIff(KindOf(p), m.hasUser, m.content);
    SupportsIffReply(KindOf(p), m.content.value, clock);
  }

  /** As built, the warning that no plugin processed the message is logged
      for a message with a user and a content exactly when no registered
      `TimePlugin` finds one of its keywords in it: whatever the generic and
      date/time plugins find, they never count. */
  lemma WarningAsBuilt(m: Incoming, ps: seq<Plugin>, clock: Clock)
    requires m.hasUser && m.content.Some?
    ensures HasWarning(MessageLog(Dispatch(ps, m.id, SupportsFor(m), ProcessAsBuilt(m, clock)), m.id))
      <==> forall p :: p in ps && KindOf(p) == Time ==> !MatchesAny(m.content.value, KeywordsOf(Time))
  {
    var supports := SupportsFor(m);
    var process := ProcessAsBuilt(m, clock);
    assert Answered(ps, supports);
    WarningIff(ps, m.id, supports, process);
    forall p | p in ps
      ensures (supports(p) == Returns(true) ==> process(p).Throws?)
        <==> (KindOf(p) == Time ==> !MatchesAny(m.content.value, KeywordsOf(Time)))
    {
      SupportsIff(KindOf(p), m.hasUser, m.content);
      if supports(p) == Returns(true) {
        SupportedFailsAsBuilt(m, clock, p);
      }
    }
  }

  /** The greeting `hello` from a user. */
  function Greeting(id: Option<int>): Incoming {
    Incoming(id, true, Some("hello"))
  }

  /** `hello` holds none of the date/time keywords. */
  lemma HelloHasNoDateTimeKeyword()
    ensures !MatchesAny("hello", TimeKeywords + DateKeywords)
  {
    HelloNormal();
    KeywordsAreLowerCase();
    forall k | k in TimeKeywords + DateKeywords
      ensures !Contains("hello", Lower(k))
    {
      LowerOfLowerCase(k);
      assert k[0] in {'t', 'w', 'c', 'd'};
      FirstCharAbsent("hello", k);
    }
  }

  /** The greeting has a keyword of the generic plugin and none of the
      date/time plugins. */
  lemma GreetingKeywords()
    ensures MatchesAny("hello", KeywordsOf(Generic))
    ensures !MatchesAny("hello", TimeKeywords + DateKeywords)
  {
    HelloNormal();
    HelloKeywordMatches("hello");
    HelloHasNoDateTimeKeyword();
  }

  /** Three plugins of which only the last supports the message: one
      attempt by that plugin, however its `process` ends. */
  lemma LastOnlyRun(a: Plugin, b: Plugin, c: Plugin, id: Option<int>,
                    supports: Plugin -> Call<bool>, process: Plugin -> Call<()>)
    requires supports(a) == Returns(false) && supports(b) == Returns(false)
    requires supports(c) == Returns(true)
    ensures Dispatch([a, b, c], id, supports, process)
      == Run(Attempt(c, id, process(c)), if process(c).Returns? then 1 else 0, None)
  {
    var ps := [a, b, c];
    SkipHead(ps, id, supports, process);
    assert ps[1..] == [b, c];
    SkipHead(ps[1..], id, supports, process);
    assert ps[1..][1..] == [c];
    assert [c][1..] == [];
    assert Dispatch([c][1..], id, supports, process) == Run([], 0, None);
  }

  /** The sorted registered plugins on a message only the generic plugin
      supports: its attempt, then the warning unless its `process`
      returned. */
  lemma GenericOnlyLog(id: Option<int>, supports: Plugin -> Call<bool>, process: Plugin -> Call<()>)
    requires supports(DateTimePlugin) == Returns(false) && supports(TimePlugin) == Returns(false)
    requires supports(GenericPlugin) == Returns(true)
    ensures MessageLog(Dispatch(SortByPriority(RegisteredPlugins), id, supports, process), id)
      == Attempt(GenericPlugin, id, process(GenericPlugin))
         + (if process(GenericPlugin).Returns? then [] else [Warning(id)])
  {
    RegisteredOrder();
    LastOnlyRun(DateTimePlugin, TimePlugin, GenericPlugin, id, supports, process);
  }

  /** The events of the generic plugin's attempt. */
  lemma GenericAttempt(id: Option<int>, outcome: Call<()>)
    ensures Attempt(GenericPlugin, id, outcome)
      == [Debug(Name(Generic), id, Priority(Generic)), Called(GenericPlugin)]
         + (if outcome.Throws? then [Failed(Name(Generic), id, outcome.error)] else [])
  {
  }

  /** A plugin that does not support the message is passed over. */
  lemma SkipHead(ps: seq<Plugin>, id: Option<int>, supports: Plugin -> Call<bool>, process: Plugin -> Call<()>)
    requires ps != [] && supports(ps[0]) == Returns(false)
    ensures Dispatch(ps, id, supports, process) == Dispatch(ps[1..], id, supports, process)
  {
  }

  /** Only the generic plugin supports a message with a generic keyword and
      no date/time keyword. */
  lemma GenericOnlySupports(m: Incoming)
    requires m.hasUser && m.content.Some?
    requires MatchesAny(m.content.value, KeywordsOf(Generic))
    requires !MatchesAny(m.content.value, TimeKeywords + DateKeywords)
    ensures SupportsFor(m)(GenericPlugin) == Returns(true)
    ensures SupportsFor(m)(DateTimePlugin) == Returns(false) && SupportsFor(m)(TimePlugin) == Returns(false)
  {
    SupportsIff(Generic, m.hasUser, m.content);
    SupportsIff(DateTime, m.hasUser, m.content);
    SupportsIff(Time, m.hasUser, m.content);
  }

  lemma GenericFailsAsBuilt(m: Incoming, clock: Clock)
    requires m.content.Some? && MatchesAny(m.content.value, KeywordsOf(Generic))
    ensures ProcessAsBuilt(m, clock)(GenericPlugin) == Throws(UnsetUserRepository)
  {
    SupportsIffReply(Generic, m.content.value, clock);
  }

  /** As built, such a message is offered to the generic plugin only,
      which fails to save its reply: the error is logged, then the warning,
      as if no plugin had answered. */
  lemma GenericOnlyAsBuilt(m: Incoming, clock: Clock)
    requires m.hasUser && m.content.Some?
    requires MatchesAny(m.content.value, KeywordsOf(Generic))
    requires !MatchesAny(m.content.value, TimeKeywords + DateKeywords)
    ensures MessageLog(Dispatch(SortByPriority(RegisteredPlugins), m.id, SupportsFor(m),
                                ProcessAsBuilt(m, clock)), m.id)
      == Attempt(GenericPlugin, m.id, Throws(UnsetUserRepository)) + [Warning(m.id)]
  {
    var process := ProcessAsBuilt(m, clock);
    GenericOnlySupports(m);
    GenericFailsAsBuilt(m, clock);
    GenericOnlyLog(m.id, SupportsFor(m), process);
  }

  /** With both repositories set, the same message is answered: the
      generic plugin is called and counts, and nothing else is logged. */
  lemma GenericOnlyAnswered(m: Incoming)
    requires m.hasUser && m.content.Some?
    requires MatchesAny(m.content.value, KeywordsOf(Generic))
    requires !MatchesAny(m.content.value, TimeKeywords + DateKeywords)
    ensures MessageLog(Dispatch(SortByPriority(RegisteredPlugins), m.id, SupportsFor(m), ProcessFor(m)), m.id)
      == Attempt(GenericPlugin, m.id, Returns(()))
  {
    var process := ProcessFor(m);
    GenericOnlySupports(m);
    GenericOnlyLog(m.id, SupportsFor(m), process);
  }

  /** The greeting `hello`, as built: an error line and the warning. */
  lemma GreetingAsBuilt(id: Option<int>, clock: Clock)
    ensures MessageLog(Dispatch(SortByPriority(RegisteredPlugins), id, SupportsFor(Greeting(id)),
                                ProcessAsBuilt(Greeting(id), clock)), id)
      == Attempt(GenericPlugin, id, Throws(UnsetUserRepository)) + [Warning(id)]
  {
    GreetingKeywords();
    GenericOnlyAsBuilt(Greeting(id), clock);
  }

  /** The greeting `hello` with both repositories set: answered. */
  lemma GreetingAnswered(id: Option<int>)
    ensures MessageLog(Dispatch(SortByPriority(RegisteredPlugins), id, SupportsFor(Greeting(id)),
                                ProcessFor(Greeting(id))), id)
      == Attempt(GenericPlugin, id, Returns(()))
  {
    GreetingKeywords();
    GenericOnlyAnswered(Greeting(id));
  }
}
