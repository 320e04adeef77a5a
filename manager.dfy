/** `ChatbotPluginManager`: the registered plugins are sorted once, by
    descending priority, when the manager is built; each message is then
    offered to them in that order. A plugin here is its identity (a
    registration number, its name and its priority); what its `supports`
    and `process` do for the message at hand is given to `ProcessMessage`
    as two functions. The logger is a trace of events. */
module PluginManager {
  import opened Wrappers

  /** A registered plugin. `id` tells apart two plugins that share a name
      and a priority, as the two date/time plugins do. */
  datatype Plugin = Plugin(id: nat, name: string, priority: int)

  /** What the manager writes to its logger, and the `process` calls it
      makes. */
  datatype Event =
    | Registered(count: nat, plugins: seq<(string, int)>)  // info: plugins registered
    | Debug(plugin: string, messageId: Option<int>, priority: int)  // debug: processing with plugin
    | Called(callee: Plugin)  // the call `$plugin->process($message)`
    | Failed(plugin: string, messageId: Option<int>, error: string)  // error: plugin execution failed
    | Warning(messageId: Option<int>)  // warning: no plugins processed the message

  // ---------------------------------------------------------------------
  // Sorting by priority

  predicate NonIncreasing(ps: seq<Plugin>) {
    forall i, j :: 0 <= i < j < |ps| ==> ps[i].priority >= ps[j].priority
  }

  /** The plugins of priority `k`, in their order in `ps`. */
  function WithPriority(ps: seq<Plugin>, k: int): (r: seq<Plugin>)
    ensures |r| <= |ps|
  {
    if ps == [] then []
    else (if ps[0].priority == k then [ps[0]] else []) + WithPriority(ps[1..], k)
  }

  /** `WithPriority` of a list with a known head. */
  lemma WithPriorityCons(x: Plugin, t: seq<Plugin>, k: int)
    ensures WithPriority([x] + t, k) == (if x.priority == k then [x] else []) + WithPriority(t, k)
  {
    assert ([x] + t)[0] == x && ([x] + t)[1..] == t;
  }

  lemma InsertFront(p: Plugin, r: seq<Plugin>)
    requires r == [] || r[0].priority <= p.priority
    ensures NonIncreasing(r) ==> NonIncreasing([p] + r)
    ensures forall k :: WithPriority([p] + r, k) == (if p.priority == k then [p] else []) + WithPriority(r, k)
  {
    forall k ensures WithPriority([p] + r, k) == (if p.priority == k then [p] else []) + WithPriority(r, k) {
      WithPriorityCons(p, r, k);
    }
    if NonIncreasing(r) {
      forall i, j | 0 <= i < j < |[p] + r| ensures ([p] + r)[i].priority >= ([p] + r)[j].priority {
        if i == 0 {
          assert ([p] + r)[j] == r[j - 1];
          assert r[0].priority >= r[j - 1].priority;
        }
      }
    }
  }

  lemma InsertStepSorted(p: Plugin, r: seq<Plugin>, t: seq<Plugin>)
    requires r != [] && r[0].priority > p.priority && NonIncreasing(r)
    requires multiset(t) == multiset(r[1..]) + multiset{p} && NonIncreasing(t)
    ensures NonIncreasing([r[0]] + t)
  {
    var s := [r[0]] + t;
    forall i, j | 0 <= i < j < |s| ensures s[i].priority >= s[j].priority {
      if i == 0 {
        var y := t[j - 1];
        assert y in multiset(t);
        assert y == p || y in multiset(r[1..]);
        if y != p {
          var m :| 0 <= m < |r[1..]| && r[1..][m] == y;
          assert r[m + 1] == y;
        }
      }
    }
  }

  lemma TailNonIncreasing(r: seq<Plugin>)
    requires r != [] && NonIncreasing(r)
    ensures NonIncreasing(r[1..])
  {
    forall i, j | 0 <= i < j < |r[1..]| ensures r[1..][i].priority >= r[1..][j].priority {
      assert r[1..][i] == r[i + 1] && r[1..][j] == r[j + 1];
    }
  }

  /** The recursive case of `Insert`: `p` goes after `r[0]`, into the
      tail. */
  lemma InsertBehind(p: Plugin, r: seq<Plugin>, t: seq<Plugin>)
    requires r != [] && r[0].priority > p.priority
    requires multiset(t) == multiset(r[1..]) + multiset{p}
    requires NonIncreasing(r[1..]) ==> NonIncreasing(t)
    requires forall k :: WithPriority(t, k) == (if p.priority == k then [p] else []) + WithPriority(r[1..], k)
    ensures multiset([r[0]] + t) == multiset(r) + multiset{p}
    ensures NonIncreasing(r) ==> NonIncreasing([r[0]] + t)
    ensures forall k :: WithPriority([r[0]] + t, k) == (if p.priority == k then [p] else []) + WithPriority(r, k)
  {
    assert r == [r[0]] + r[1..];
    if NonIncreasing(r) {
      TailNonIncreasing(r);
      InsertStepSorted(p, r, t);
    }
    forall k ensures WithPriority([r[0]] + t, k)
      == (if p.priority == k then [p] else []) + WithPriority(r, k) {
      WithPriorityBehind(p, r, t, k);
    }
  }

  lemma WithPriorityBehind(p: Plugin, r: seq<Plugin>, t: seq<Plugin>, k: int)
    requires r != [] && r[0].priority != p.priority
    requires WithPriority(t, k) == (if p.priority == k then [p] else []) + WithPriority(r[1..], k)
    ensures WithPriority([r[0]] + t, k) == (if p.priority == k then [p] else []) + WithPriority(r, k)
  {
    WithPriorityCons(r[0], t, k);
    WithPriorityCons(r[0], r[1..], k);
    assert r == [r[0]] + r[1..];
  }

  /** `p` placed before the first plugin of `r` whose priority is not
      greater than its own. */
  function Insert(p: Plugin, r: seq<Plugin>): (s: seq<Plugin>)
    ensures multiset(s) == multiset(r) + multiset{p}
    ensures NonIncreasing(r) ==> NonIncreasing(s)
    ensures forall k :: WithPriority(s, k) == (if p.priority == k then [p] else []) + WithPriority(r, k)
  {
    if r == [] || r[0].priority <= p.priority then
      InsertFront(p, r);
      [p] + r
    else
      var t := Insert(p, r[1..]);
      InsertBehind(p, r, t);
      [r[0]] + t
  }

  /** `usort` with the comparator `$b->getPriority() <=> $a->getPriority()`,
      stable as PHP 8 guarantees: of two plugins of equal priority, the
      one registered first stays first. */
  function SortByPriority(ps: seq<Plugin>): (r: seq<Plugin>)
    ensures |r| == |ps| && multiset(r) == multiset(ps)
    ensures NonIncreasing(r)
    ensures forall k :: WithPriority(r, k) == WithPriority(ps, k)
  {
    if ps == [] then []
    else
      var t := SortByPriority(ps[1..]);
      WithPriorityHead(ps);
      Insert(ps[0], t)
  }

  lemma WithPriorityHead(ps: seq<Plugin>)
    requires ps != []
    ensures multiset(ps) == multiset(ps[1..]) + multiset{ps[0]}
    ensures forall k :: WithPriority(ps, k) == (if ps[0].priority == k then [ps[0]] else []) + WithPriority(ps[1..], k)
  {
    assert ps == [ps[0]] + ps[1..];
  }

  /** Two plugins of equal priority are dispatched in registration order:
      after sorting, the one registered first still comes first. */
  lemma TiesKeepRegistrationOrder(ps: seq<Plugin>, a: Plugin, b: Plugin)
    requires a.priority == b.priority
    requires WithPriority(ps, a.priority) == [a, b]
    ensures exists i, j ::
      0 <= i < j < |SortByPriority(ps)| && SortByPriority(ps)[i] == a && SortByPriority(ps)[j] == b
  {
    var r := SortByPriority(ps);
    WithPriorityPositions(r, a.priority, a, b);
  }

  lemma {:induction false} WithPriorityPositions(r: seq<Plugin>, k: int, a: Plugin, b: Plugin)
    requires WithPriority(r, k) == [a, b]
    ensures exists i, j :: 0 <= i < j < |r| && r[i] == a && r[j] == b
  {
    assert r != [];
    WithPriorityCons(r[0], r[1..], k);
    assert r == [r[0]] + r[1..];
    if r[0].priority == k {
      var w := WithPriority(r[1..], k);
      assert [a, b] == [r[0]] + w;
      assert ([r[0]] + w)[0] == r[0] && ([r[0]] + w)[1..] == w;
      assert [a, b][0] == a && [a, b][1..] == [b];
      assert r[0] == a && w == [b];
      WithPriorityMember(r[1..], k, b);
      var j :| 0 <= j < |r[1..]| && r[1..][j] == b;
      assert r[0] == a && r[j + 1] == b;
    } else {
      WithPriorityPositions(r[1..], k, a, b);
      var i, j :| 0 <= i < j < |r[1..]| && r[1..][i] == a && r[1..][j] == b;
      assert r[i + 1] == a && r[j + 1] == b;
    }
  }

  lemma {:induction false} WithPriorityMember(r: seq<Plugin>, k: int, b: Plugin)
    requires b in WithPriority(r, k)
    ensures exists j :: 0 <= j < |r| && r[j] == b
  {
    assert r != [];
    WithPriorityCons(r[0], r[1..], k);
    assert r == [r[0]] + r[1..];
    if r[0] == b {
      assert r[0] == b;
    } else {
      assert b in WithPriority(r[1..], k);
      WithPriorityMember(r[1..], k, b);
      var j :| 0 <= j < |r[1..]| && r[1..][j] == b;
      assert r[j + 1] == b;
    }
  }

  /** The name and priority of each plugin, as the registration is logged. */
  function Infos(ps: seq<Plugin>): (r: seq<(string, int)>)
    ensures |r| == |ps|
    ensures forall i :: 0 <= i < |ps| ==> r[i] == (ps[i].name, ps[i].priority)
  {
    seq(|ps|, i requires 0 <= i < |ps| => (ps[i].name, ps[i].priority))
  }

  // ---------------------------------------------------------------------
  // Dispatching one message

  /** What the loop of `processMessage` leaves behind: the events it logged
      and the calls it made, the number of plugins whose `process`
      returned, and the exception that left the loop, if any. */
  datatype Run = Run(events: seq<Event>, count: nat, escaped: Option<string>)

  /** The events the `try` block and its `catch` produce for one
      supporting plugin. */
  function Attempt(p: Plugin, messageId: Option<int>, outcome: Call<()>): seq<Event> {
    [Debug(p.name, messageId, p.priority), Called(p)]
      + (if outcome.Throws? then [Failed(p.name, messageId, outcome.error)] else [])
  }

  /** The loop over `ps`: a plugin that does not support the message is
      skipped; one that does is processed, and an exception from its
      `process` is logged and swallowed; an exception from `supports`,
      which is called outside the `try`, ends the loop and leaves
      `processMessage`. */
  function Dispatch(ps: seq<Plugin>, messageId: Option<int>,
                    supports: Plugin -> Call<bool>, process: Plugin -> Call<()>): Run
  {
    if ps == [] then Run([], 0, None)
    else
      var p := ps[0];
      match supports(p)
      case Throws(e) => Run([], 0, Some(e))
      case Returns(false) => Dispatch(ps[1..], messageId, supports, process)
      case Returns(true) =>
        var rest := Dispatch(ps[1..], messageId, supports, process);
        Run(Attempt(p, messageId, process(p)) + rest.events,
            (if process(p).Returns? then 1 else 0) + rest.count,
            rest.escaped)
  }

  /** The events of a whole `processMessage` call: those of the loop, then
      the warning when the loop ended normally with a count of 0. */
  function MessageLog(run: Run, messageId: Option<int>): seq<Event> {
    run.events + (if run.escaped.None? && run.count == 0 then [Warning(messageId)] else [])
  }

  // Reference definitions the loop is compared with.

  /** Every `supports` call on `ps` returns. */
  predicate Answered(ps: seq<Plugin>, supports: Plugin -> Call<bool>) {
    forall i :: 0 <= i < |ps| ==> supports(ps[i]).Returns?
  }

  /** The plugins of `ps` whose `supports` returns true, in order. */
  function Supporting(ps: seq<Plugin>, supports: Plugin -> Call<bool>): (r: seq<Plugin>)
    ensures forall p :: p in r ==> p in ps && supports(p) == Returns(true)
    ensures forall p :: p in ps && supports(p) == Returns(true) ==> p in r
  {
    if ps == [] then []
    else (if supports(ps[0]) == Returns(true) then [ps[0]] else []) + Supporting(ps[1..], supports)
  }

  /** The plugins of `ps` whose `process` returns, in order. */
  function Returning(ps: seq<Plugin>, process: Plugin -> Call<()>): (r: seq<Plugin>)
    ensures forall p :: p in r ==> p in ps && process(p).Returns?
    ensures forall p :: p in ps && process(p).Returns? ==> p in r
  {
    if ps == [] then []
    else (if process(ps[0]).Returns? then [ps[0]] else []) + Returning(ps[1..], process)
  }

  /** The plugins of `ps` whose `process` throws, in order. */
  function Throwing(ps: seq<Plugin>, process: Plugin -> Call<()>): (r: seq<Plugin>)
    ensures forall p :: p in r ==> p in ps && process(p).Throws?
    ensures forall p :: p in ps && process(p).Throws? ==> p in r
  {
    if ps == [] then []
    else (if process(ps[0]).Throws? then [ps[0]] else []) + Throwing(ps[1..], process)
  }

  /** The plugins on which `process` was called, in call order. */
  function Calls(events: seq<Event>): seq<Plugin> {
    if events == [] then []
    else (if events[0].Called? then [events[0].callee] else []) + Calls(events[1..])
  }

  /** The plugins whose failure was logged, by name, in order. */
  function FailureNames(events: seq<Event>): seq<string> {
    if events == [] then []
    else (if events[0].Failed? then [events[0].plugin] else []) + FailureNames(events[1..])
  }

  function Names(ps: seq<Plugin>): (r: seq<string>)
    ensures |r| == |ps| && forall i :: 0 <= i < |ps| ==> r[i] == ps[i].name
  {
    seq(|ps|, i requires 0 <= i < |ps| => ps[i].name)
  }

  predicate HasWarning(events: seq<Event>) {
    exists i :: 0 <= i < |events| && events[i].Warning?
  }

  lemma {:induction false} CallsAppend(a: seq<Event>, b: seq<Event>)
    ensures Calls(a + b) == Calls(a) + Calls(b)
  {
    if a != [] {
      assert (a + b)[0] == a[0] && (a + b)[1..] == a[1..] + b;
      CallsAppend(a[1..], b);
    } else {
      assert a + b == b;
    }
  }

  lemma {:induction false} FailureNamesAppend(a: seq<Event>, b: seq<Event>)
    ensures FailureNames(a + b) == FailureNames(a) + FailureNames(b)
  {
    if a != [] {
      assert (a + b)[0] == a[0] && (a + b)[1..] == a[1..] + b;
      FailureNamesAppend(a[1..], b);
    } else {
      assert a + b == b;
    }
  }

  lemma AttemptShape(p: Plugin, messageId: Option<int>, outcome: Call<()>)
    ensures Calls(Attempt(p, messageId, outcome)) == [p]
    ensures FailureNames(Attempt(p, messageId, outcome)) == if outcome.Throws? then [p.name] else []
    ensures !HasWarning(Attempt(p, messageId, outcome))
  {
    var tail: seq<Event> := if outcome.Throws? then [Failed(p.name, messageId, outcome.error)] else [];
    assert Calls(tail) == [] && FailureNames(tail) == (if outcome.Throws? then [p.name] else []) by {
      if outcome.Throws? { assert tail[1..] == []; }
    }
    var a := Attempt(p, messageId, outcome);
    assert a == [Debug(p.name, messageId, p.priority)] + ([Called(p)] + tail);
    CallsAppend([Debug(p.name, messageId, p.priority)], [Called(p)] + tail);
    CallsAppend([Called(p)], tail);
    FailureNamesAppend([Debug(p.name, messageId, p.priority)], [Called(p)] + tail);
    FailureNamesAppend([Called(p)], tail);
    assert [Called(p)][1..] == [] && [Debug(p.name, messageId, p.priority)][1..] == [];
  }

  /** The loop logs no warning; only the code after it does. */
  lemma {:induction false} DispatchHasNoWarning(ps: seq<Plugin>, messageId: Option<int>,
                                                 supports: Plugin -> Call<bool>, process: Plugin -> Call<()>)
    ensures !HasWarning(Dispatch(ps, messageId, supports, process).events)
  {
    if ps != [] && supports(ps[0]).Returns? {
      DispatchHasNoWarning(ps[1..], messageId, supports, process);
      if supports(ps[0]).value {
        AttemptShape(ps[0], messageId, process(ps[0]));
        var a: seq<Event> := Attempt(ps[0], messageId, process(ps[0]));
        var rest: seq<Event> := Dispatch(ps[1..], messageId, supports, process).events;
        forall i | 0 <= i < |a + rest| ensures !(a + rest)[i].Warning? {
          if i < |a| { assert (a + rest)[i] == a[i]; } else { assert (a + rest)[i] == rest[i - |a|]; }
        }
      }
    }
  }

  /** Isolation: dispatching `ps + qs` is dispatching `ps` and then, unless
      a `supports` call in `ps` threw, dispatching `qs`. Whatever the
      plugins of `ps` do in `process`, the plugins of `qs` are offered the
      message all the same. */
  lemma {:induction false} DispatchAppend(ps: seq<Plugin>, qs: seq<Plugin>, messageId: Option<int>,
                                          supports: Plugin -> Call<bool>, process: Plugin -> Call<()>)
    ensures var a := Dispatch(ps, messageId, supports, process);
      var b := Dispatch(qs, messageId, supports, process);
      Dispatch(ps + qs, messageId, supports, process)
        == if a.escaped.Some? then a else Run(a.events + b.events, a.count + b.count, b.escaped)
  {
    if ps == [] {
      assert ps + qs == qs;
    } else {
      var p := ps[0];
      assert (ps + qs)[0] == p && (ps + qs)[1..] == ps[1..] + qs;
      DispatchAppend(ps[1..], qs, messageId, supports, process);
      if supports(p) == Returns(true) {
        var x := Attempt(p, messageId, process(p));
        var a' := Dispatch(ps[1..], messageId, supports, process);
        var b := Dispatch(qs, messageId, supports, process);
        assert x + (a'.events + b.events) == (x + a'.events) + b.events;
      }
    }
  }

  /** An exception from `supports` ends the dispatch: what happened before
      it stands, nothing after it happens, and the exception escapes. */
  lemma SupportsThrowEscapes(ps: seq<Plugin>, j: nat, messageId: Option<int>,
                             supports: Plugin -> Call<bool>, process: Plugin -> Call<()>)
    requires j < |ps| && Answered(ps[..j], supports) && supports(ps[j]).Throws?
    ensures var before := Dispatch(ps[..j], messageId, supports, process);
      Dispatch(ps, messageId, supports, process)
        == Run(before.events, before.count, Some(supports(ps[j]).error))
  {
    AnsweredNoEscape(ps[..j], messageId, supports, process);
    assert ps == ps[..j] + ps[j..];
    DispatchAppend(ps[..j], ps[j..], messageId, supports, process);
  }

  lemma AnsweredTail(ps: seq<Plugin>, supports: Plugin -> Call<bool>)
    requires ps != [] && Answered(ps, supports)
    ensures supports(ps[0]).Returns? && Answered(ps[1..], supports)
  {
    forall i | 0 <= i < |ps[1..]| ensures supports(ps[1..][i]).Returns? {
      assert ps[1..][i] == ps[i + 1];
    }
  }

  /** Supporting plugins of a non-empty list, split at its head. */
  lemma SupportingHead(ps: seq<Plugin>, supports: Plugin -> Call<bool>)
    requires ps != []
    ensures Supporting(ps, supports)
      == (if supports(ps[0]) == Returns(true) then [ps[0]] else []) + Supporting(ps[1..], supports)
  {
  }

  /** Ordering: when every `supports` call returns, `process` is called on
      exactly the supporting plugins, in the given order, and nothing
      escapes. */
  lemma {:induction false} DispatchCalls(ps: seq<Plugin>, messageId: Option<int>,
                                        supports: Plugin -> Call<bool>, process: Plugin -> Call<()>)
    requires Answered(ps, supports)
    ensures Dispatch(ps, messageId, supports, process).escaped.None?
    ensures Calls(Dispatch(ps, messageId, supports, process).events) == Supporting(ps, supports)
  {
    if ps != [] {
      AnsweredTail(ps, supports);
      DispatchCalls(ps[1..], messageId, supports, process);
      var p := ps[0];
      SupportingHead(ps, supports);
      if supports(p).value {
        var rest := Dispatch(ps[1..], messageId, supports, process);
        AttemptShape(p, messageId, process(p));
        CallsAppend(Attempt(p, messageId, process(p)), rest.events);
      }
    }
  }

  lemma ReturningHead(ps: seq<Plugin>, process: Plugin -> Call<()>)
    requires ps != []
    ensures Returning(ps, process) == (if process(ps[0]).Returns? then [ps[0]] else []) + Returning(ps[1..], process)
    ensures Throwing(ps, process) == (if process(ps[0]).Throws? then [ps[0]] else []) + Throwing(ps[1..], process)
  {
  }

  /** Counting: when every `supports` call returns, the count is the number
      of supporting plugins whose `process` returned. */
  lemma {:induction false} DispatchCount(ps: seq<Plugin>, messageId: Option<int>,
                                        supports: Plugin -> Call<bool>, process: Plugin -> Call<()>)
    requires Answered(ps, supports)
    ensures Dispatch(ps, messageId, supports, process).count
      == |Returning(Supporting(ps, supports), process)|
  {
    if ps != [] {
      AnsweredTail(ps, supports);
      DispatchCount(ps[1..], messageId, supports, process);
      var p := ps[0];
      SupportingHead(ps, supports);
      if supports(p).value {
        var s := Supporting(ps[1..], supports);
        var rest := Dispatch(ps[1..], messageId, supports, process);
        assert Dispatch(ps, messageId, supports, process).count
          == (if process(p).Returns? then 1 else 0) + rest.count;
        ReturningHead([p] + s, process);
        assert ([p] + s)[0] == p && ([p] + s)[1..] == s;
        assert Returning([p] + s, process) == (if process(p).Returns? then [p] else []) + Returning(s, process);
      } else {
        assert Dispatch(ps, messageId, supports, process) == Dispatch(ps[1..], messageId, supports, process);
        assert Supporting(ps, supports) == Supporting(ps[1..], supports);
      }
    }
  }

  lemma NamesAppend(a: seq<Plugin>, b: seq<Plugin>)
    ensures Names(a + b) == Names(a) + Names(b)
  {
  }

  lemma FailuresStep(p: Plugin, messageId: Option<int>, process: Plugin -> Call<()>,
                     rest: seq<Event>, s: seq<Plugin>)
    requires FailureNames(rest) == Names(Throwing(s, process))
    ensures FailureNames(Attempt(p, messageId, process(p)) + rest) == Names(Throwing([p] + s, process))
  {
    var a := Attempt(p, messageId, process(p));
    AttemptShape(p, messageId, process(p));
    FailureNamesAppend(a, rest);
    ReturningHead([p] + s, process);
    assert ([p] + s)[0] == p && ([p] + s)[1..] == s;
    if process(p).Throws? {
      assert Throwing([p] + s, process) == [p] + Throwing(s, process);
      NamesAppend([p], Throwing(s, process));
      assert Names([p]) == [p.name];
    } else {
      assert Throwing([p] + s, process) == Throwing(s, process);
      assert FailureNames(a) == [];
    }
  }

  /** Error lines: when every `supports` call returns, a failure is logged
      for each supporting plugin whose `process` threw, in order. */
  lemma {:induction false} DispatchFailures(ps: seq<Plugin>, messageId: Option<int>,
                                           supports: Plugin -> Call<bool>, process: Plugin -> Call<()>)
    requires Answered(ps, supports)
    ensures FailureNames(Dispatch(ps, messageId, supports, process).events)
      == Names(Throwing(Supporting(ps, supports), process))
  {
    if ps != [] {
      AnsweredTail(ps, supports);
      DispatchFailures(ps[1..], messageId, supports, process);
      var p := ps[0];
      SupportingHead(ps, supports);
      if supports(p).value {
        var rest := Dispatch(ps[1..], messageId, supports, process);
        assert Dispatch(ps, messageId, supports, process).events == Attempt(p, messageId, process(p)) + rest.events;
        FailuresStep(p, messageId, process, rest.events, Supporting(ps[1..], supports));
      } else {
        assert Dispatch(ps, messageId, supports, process) == Dispatch(ps[1..], messageId, supports, process);
        assert Supporting(ps, supports) == Supporting(ps[1..], supports);
      }
    }
  }

  lemma AnsweredNoEscape(ps: seq<Plugin>, messageId: Option<int>,
                         supports: Plugin -> Call<bool>, process: Plugin -> Call<()>)
    requires Answered(ps, supports)
    ensures Dispatch(ps, messageId, supports, process).escaped.None?
  {
    DispatchCalls(ps, messageId, supports, process);
  }

  lemma {:induction false} ReturningThrowingSplit(ps: seq<Plugin>, process: Plugin -> Call<()>)
    ensures |Returning(ps, process)| + |Throwing(ps, process)| == |ps|
  {
    if ps != [] {
      ReturningThrowingSplit(ps[1..], process);
    }
  }

  /** The supporting plugins are either counted or logged as failed: the
      count and the number of error lines add up to their number. */
  lemma CountPlusFailures(ps: seq<Plugin>, messageId: Option<int>,
                          supports: Plugin -> Call<bool>, process: Plugin -> Call<()>)
    requires Answered(ps, supports)
    ensures var run := Dispatch(ps, messageId, supports, process);
      run.count + |FailureNames(run.events)| == |Supporting(ps, supports)|
  {
    DispatchCount(ps, messageId, supports, process);
    DispatchFailures(ps, messageId, supports, process);
    ReturningThrowingSplit(Supporting(ps, supports), process);
  }

  lemma {:induction false} ReturningEmpty(ps: seq<Plugin>, process: Plugin -> Call<()>)
    ensures Returning(ps, process) == [] <==> forall p :: p in ps ==> process(p).Throws?
  {
    if ps != [] {
      ReturningEmpty(ps[1..], process);
      assert forall p :: p in ps <==> p == ps[0] || p in ps[1..];
    }
  }

  /** When every `supports` call returns, the warning is logged exactly when
      no supporting plugin's `process` returned: there are no plugins,
      none supports the message, or every one that does threw. */
  lemma WarningIff(ps: seq<Plugin>, messageId: Option<int>,
                   supports: Plugin -> Call<bool>, process: Plugin -> Call<()>)
    requires Answered(ps, supports)
    ensures HasWarning(MessageLog(Dispatch(ps, messageId, supports, process), messageId))
      <==> forall p :: p in ps && supports(p) == Returns(true) ==> process(p).Throws?
  {
    var run := Dispatch(ps, messageId, supports, process);
    DispatchCalls(ps, messageId, supports, process);
    DispatchCount(ps, messageId, supports, process);
    ReturningEmpty(Supporting(ps, supports), process);
    DispatchHasNoWarning(ps, messageId, supports, process);
    var log := MessageLog(run, messageId);
    if run.count == 0 {
      assert log[|log| - 1].Warning?;
    } else {
      assert log == run.events;
    }
  }

  /** The warning is logged only when the loop ended normally with a count
      of 0, and then it is the last event. */
  lemma WarningIffZero(run: Run, ps: seq<Plugin>, messageId: Option<int>,
                       supports: Plugin -> Call<bool>, process: Plugin -> Call<()>)
    requires run == Dispatch(ps, messageId, supports, process)
    ensures HasWarning(MessageLog(run, messageId)) <==> run.escaped.None? && run.count == 0
  {
    DispatchHasNoWarning(ps, messageId, supports, process);
    var log := MessageLog(run, messageId);
    if run.escaped.None? && run.count == 0 {
      assert log[|log| - 1].Warning?;
    } else {
      assert log == run.events;
    }
  }

  /** Without plugins there are no `process` calls and the one event is
      the warning. */
  lemma NoPlugins(messageId: Option<int>, supports: Plugin -> Call<bool>, process: Plugin -> Call<()>)
    ensures MessageLog(Dispatch([], messageId, supports, process), messageId) == [Warning(messageId)]
    ensures Calls(MessageLog(Dispatch([], messageId, supports, process), messageId)) == []
  {
    assert [Warning(messageId)][1..] == [];
  }

  /** The loop's invariant: the run over all plugins is what was logged
      and counted so far followed by the run over the plugins left. */
  ghost predicate Resumes(whole: Run, trace: seq<Event>, count: nat, rest: seq<Plugin>,
                          messageId: Option<int>, supports: Plugin -> Call<bool>, process: Plugin -> Call<()>)
  {
    var tail := Dispatch(rest, messageId, supports, process);
    whole == Run(trace + tail.events, count + tail.count, tail.escaped)
  }

  /** A plugin whose `supports` throws ends the run where it stands. */
  lemma EscapeStep(whole: Run, trace: seq<Event>, count: nat, ps: seq<Plugin>,
                   messageId: Option<int>, supports: Plugin -> Call<bool>, process: Plugin -> Call<()>)
    requires ps != [] && supports(ps[0]).Throws?
    requires Resumes(whole, trace, count, ps, messageId, supports, process)
    ensures whole == Run(trace, count, Some(supports(ps[0]).error))
  {
    assert trace + [] == trace;
  }

  /** A plugin that does not support the message adds nothing. */
  lemma SkipStep(whole: Run, trace: seq<Event>, count: nat, ps: seq<Plugin>,
                 messageId: Option<int>, supports: Plugin -> Call<bool>, process: Plugin -> Call<()>)
    requires ps != [] && supports(ps[0]) == Returns(false)
    requires Resumes(whole, trace, count, ps, messageId, supports, process)
    ensures Resumes(whole, trace, count, ps[1..], messageId, supports, process)
  {
  }

  /** A supporting plugin adds its attempt's events, and one to the count
      if its `process` returns. */
  lemma AttemptStep(whole: Run, trace: seq<Event>, count: nat, ps: seq<Plugin>,
                    messageId: Option<int>, supports: Plugin -> Call<bool>, process: Plugin -> Call<()>)
    requires ps != [] && supports(ps[0]) == Returns(true)
    requires Resumes(whole, trace, count, ps, messageId, supports, process)
    ensures Resumes(whole, trace + Attempt(ps[0], messageId, process(ps[0])),
                    count + (if process(ps[0]).Returns? then 1 else 0), ps[1..], messageId, supports, process)
  {
    var tail := Dispatch(ps[1..], messageId, supports, process);
    var step := Attempt(ps[0], messageId, process(ps[0]));
    assert trace + (step + tail.events) == (trace + step) + tail.events;
  }

  /** The loop has run through every plugin. */
  lemma FinishStep(whole: Run, trace: seq<Event>, count: nat,
                   messageId: Option<int>, supports: Plugin -> Call<bool>, process: Plugin -> Call<()>)
    requires Resumes(whole, trace, count, [], messageId, supports, process)
    ensures whole == Run(trace, count, None)
  {
    assert trace + [] == trace;
  }

  class ChatbotPluginManager {
    /** `sortedChatbotPlugins`. */
    const sorted: seq<Plugin>
    /** Everything logged so far, and the `process` calls made. */
    var events: seq<Event>

    /** The plugins sorted by descending priority, then the registration
        logged with their count, names and priorities in that order. */
    constructor (registered: seq<Plugin>)
      ensures sorted == SortByPriority(registered)
      ensures events == [Registered(|registered|, Infos(sorted))]
    {
      sorted := SortByPriority(registered);
      events := [Registered(|registered|, Infos(SortByPriority(registered)))];
    }

    /** The `try` block of `processMessage` and its `catch`: the debug
        line, the call, and the error line if the call throws. */
    method TryProcess(plugin: Plugin, messageId: Option<int>, process: Plugin -> Call<()>)
      returns (ok: bool)
      modifies this`events
      ensures events == old(events) + Attempt(plugin, messageId, process(plugin))
      ensures ok <==> process(plugin).Returns?
    {
      events := events + [Debug(plugin.name, messageId, plugin.priority)];
      events := events + [Called(plugin)];
      var r := process(plugin);
      if r.Returns? {
        ok := true;
      } else {
        events := events + [Failed(plugin.name, messageId, r.error)];
        ok := false;
      }
    }

    /** `processMessage` for a message with the given id, on whose
        plugins `supports` and `process` answer as given. */
    method ProcessMessage(messageId: Option<int>,
                          supports: Plugin -> Call<bool>, process: Plugin -> Call<()>)
      returns (outcome: Call<()>)
      modifies this`events
      ensures var run := Dispatch(sorted, messageId, supports, process);
        && events == old(events) + MessageLog(run, messageId)
        && outcome == if run.escaped.Some? then Throws(run.escaped.value) else Returns(())
    {
      var processedCount := 0;
      ghost var trace: seq<Event> := [];
      ghost var whole := Dispatch(sorted, messageId, supports, process);
      assert sorted[0..] == sorted;
      for i := 0 to |sorted|
        invariant events == old(events) + trace
        invariant Resumes(whole, trace, processedCount, sorted[i..], messageId, supports, process)
      {
        var plugin := sorted[i];
        assert sorted[i..][0] == plugin && sorted[i..][1..] == sorted[i + 1..];
        var s := supports(plugin);
        if s.Throws? {
          EscapeStep(whole, trace, processedCount, sorted[i..], messageId, supports, process);
          return Throws(s.error);
        }
        if !s.value {
          SkipStep(whole, trace, processedCount, sorted[i..], messageId, supports, process);
          continue;
        }
        AttemptStep(whole, trace, processedCount, sorted[i..], messageId, supports, process);
        var ok := TryProcess(plugin, messageId, process);
        if ok {
          processedCount := processedCount + 1;
        }
        assert old(events) + (trace + Attempt(plugin, messageId, process(plugin)))
          == (old(events) + trace) + Attempt(plugin, messageId, process(plugin));
        trace := trace + Attempt(plugin, messageId, process(plugin));
      }
      assert sorted[|sorted|..] == [];
      FinishStep(whole, trace, processedCount, messageId, supports, process);
      if processedCount == 0 {
        events := events + [Warning(messageId)];
      }
      return Returns(());
    }
  }
}
