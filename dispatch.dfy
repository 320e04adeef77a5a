/** The three concrete plugins registered with the manager: how their
    `supports` and `process` answer for one message, and what dispatching
    that message through the sorted list then does. */
module ChatbotDispatch {
  import opened Wrappers
  import opened ChatbotPlugins
  import opened PluginManager

  /** The parts of a message the plugins read: whether it has a user, and
      its content. */
  datatype Incoming = Incoming(id: Option<int>, hasUser: bool, content: Option<string>)

  /** The registered plugins, by registration number. */
  function KindOf(p: Plugin): Kind {
    if p.id == 0 then Generic else if p.id == 1 then DateTime else Time
  }

  function Registration(k: Kind, id: nat): Plugin {
    Plugin(id, Name(k), Priority(k))
  }

  const GenericPlugin: Plugin := Registration(Generic, 0)
  const DateTimePlugin: Plugin := Registration(DateTime, 1)
  const TimePlugin: Plugin := Registration(Time, 2)
  const RegisteredPlugins: seq<Plugin> := [GenericPlugin, DateTimePlugin, TimePlugin]

  /** What each plugin's `supports` answers for `m`. */
  function SupportsFor(m: Incoming): Plugin -> Call<bool> {
    p => SupportsAnswer(KindOf(p), m.hasUser, m.content)
  }

  /** How each plugin's `process` ends for `m`: with the TypeError of
      `normalizeContent` for a null content, else normally (saving at most
      one reply on the way). */
  function ProcessFor(m: Incoming): Plugin -> Call<()> {
    p => if m.content.None? then Throws(NullContentError) else Returns(())
  }

  /** Sorting puts the two priority-20 plugins first, in registration
      order, and the generic plugin last. */
  lemma RegisteredOrder()
    ensures SortByPriority(RegisteredPlugins) == [DateTimePlugin, TimePlugin, GenericPlugin]
  {
    SortLowFirst(GenericPlugin, DateTimePlugin, TimePlugin);
  }

  /** Three plugins of which the first has the lowest priority and the
      other two share a higher one are sorted as the second, the third and
      the first. */
  lemma SortLowFirst(a: Plugin, b: Plugin, c: Plugin)
    requires a.priority < b.priority && b.priority == c.priority
    ensures SortByPriority([a, b, c]) == [b, c, a]
  {
    assert [a, b, c][1..] == [b, c];
    assert [b, c][1..] == [c];
    assert [c][1..] == [];
    assert SortByPriority([c]) == [c];
    assert Insert(b, [c]) == [b, c];
    assert Insert(a, []) == [a];
    assert Insert(a, [c]) == [c, a] by {
      assert [c][1..] == [];
    }
    assert Insert(a, [b, c]) == [b] + Insert(a, [c]);
  }

  /** For the registered plugins in any order: the date/time plugin
      registered first is dispatched first. */
  lemma DateTimeTieOrder(ps: seq<Plugin>)
    requires WithPriority(ps, 20) == [DateTimePlugin, TimePlugin]
    ensures exists i, j ::
      0 <= i < j < |SortByPriority(ps)| && SortByPriority(ps)[i] == DateTimePlugin
      && SortByPriority(ps)[j] == TimePlugin
  {
    TiesKeepRegistrationOrder(ps, DateTimePlugin, TimePlugin);
  }

  /** A message without a user is supported by no plugin: nothing is
      processed and the warning is the one event. */
  lemma NoUserOnlyWarns(m: Incoming, ps: seq<Plugin>)
    requires !m.hasUser
    ensures MessageLog(Dispatch(ps, m.id, SupportsFor(m), ProcessFor(m)), m.id) == [Warning(m.id)]
  {
    var run := Dispatch(ps, m.id, SupportsFor(m), ProcessFor(m));
    assert Answered(ps, SupportsFor(m));
    DispatchCalls(ps, m.id, SupportsFor(m), ProcessFor(m));
    DispatchCount(ps, m.id, SupportsFor(m), ProcessFor(m));
    NoneSupporting(ps, m);
    DispatchEmpty(ps, m);
  }

  lemma {:induction false} NoneSupporting(ps: seq<Plugin>, m: Incoming)
    requires !m.hasUser
    ensures Supporting(ps, SupportsFor(m)) == []
  {
    if ps != [] {
      NoneSupporting(ps[1..], m);
    }
  }

  lemma {:induction false} DispatchEmpty(ps: seq<Plugin>, m: Incoming)
    requires !m.hasUser
    ensures Dispatch(ps, m.id, SupportsFor(m), ProcessFor(m)) == Run([], 0, None)
  {
    if ps != [] {
      DispatchEmpty(ps[1..], m);
    }
  }

  /** A message with a user and a null content: the first plugin's
      `supports` throws the TypeError, which leaves `processMessage`
      before anything is logged or processed. */
  lemma NullContentEscapes(m: Incoming)
    requires m.hasUser && m.content.None?
    ensures var run := Dispatch(SortByPriority(RegisteredPlugins), m.id, SupportsFor(m), ProcessFor(m));
      run == Run([], 0, Some(NullContentError))
  {
    RegisteredOrder();
  }

  lemma {:induction false} ReturningAll(ps: seq<Plugin>, process: Plugin -> Call<()>)
    requires forall p :: p in ps ==> process(p).Returns?
    ensures Returning(ps, process) == ps
  {
    if ps != [] {
      ReturningAll(ps[1..], process);
      assert ps == [ps[0]] + ps[1..];
    }
  }

  /** A message with a user and a content: exactly the plugins whose
      keywords occur in the content are processed, in sorted order, each
      of them succeeds, and the warning is logged exactly when no keyword
      of any plugin occurs. */
  lemma ContentDispatch(m: Incoming, ps: seq<Plugin>)
    requires m.hasUser && m.content.Some?
    ensures var run := Dispatch(ps, m.id, SupportsFor(m), ProcessFor(m));
      && run.escaped.None?
      && Calls(run.events) == Supporting(ps, SupportsFor(m))
      && (forall p :: p in Calls(run.events) <==> p in ps && MatchesAny(m.content.value, KeywordsOf(KindOf(p))))
      && run.count == |Supporting(ps, SupportsFor(m))|
      && (HasWarning(MessageLog(run, m.id))
          <==> forall p :: p in ps ==> !MatchesAny(m.content.value, KeywordsOf(KindOf(p))))
  {
    var supports := SupportsFor(m);
    var process := ProcessFor(m);
    assert Answered(ps, supports);
    DispatchCalls(ps, m.id, supports, process);
    DispatchCount(ps, m.id, supports, process);
    ReturningAll(Supporting(ps, supports), process);
    WarningIff(ps, m.id, supports, process);
    forall p ensures supports(p) == Returns(true) <==> MatchesAny(m.content.value, KeywordsOf(KindOf(p))) {
      SupportsIff(KindOf(p), m.hasUser, m.content);
    }
  }
}
