/**
 * The firewall chain of the schedule under overlapping requests and ticks.
 * Nothing joins the listing of the chain to the change that follows it, so each
 * is a step of its own here, and the steps of all handlers interleave freely.
 */
module ChainRace {
  import opened Results
  import Schedule

  type HandlerId = nat

  /** Where a handler stands; `want` is whether it wants the chain blocked. */
  datatype Pc =
    | First(want: bool)    // an application of the schedule, before its own listing
    | Listing(want: bool)  // in `inet_block` or `inet_unblock`, before their listing
    | Adding               // has seen no rule, will add one
    | Flushing             // has seen a rule, will flush
    | Done

  datatype Chain = Chain(drops: nat, handlers: map<HandlerId, Pc>)

  datatype Event =
    | Press(id: HandlerId, want: bool)  // a button
    | Apply(id: HandlerId, want: bool)  // a tick or a saved schedule, once it knows what it wants
    | ListFirst(id: HandlerId, works: bool)
    | List(id: HandlerId, works: bool)
    | Add(id: HandlerId, ok: bool)
    | Flush(id: HandlerId, ok: bool)

  predicate At(m: Chain, id: HandlerId, pc: Pc) {
    id in m.handlers && m.handlers[id] == pc
  }

  function Goto(m: Chain, id: HandlerId, pc: Pc): Chain {
    m.(handlers := m.handlers[id := pc])
  }

  /** A listing that fails reads as not blocked. */
  predicate Seen(m: Chain, works: bool) {
    works && m.drops > 0
  }

  function Step(m: Chain, e: Event): Option<Chain> {
    match e
    case Press(id, want) => if id in m.handlers then None else Some(Goto(m, id, Listing(want)))
    case Apply(id, want) => if id in m.handlers then None else Some(Goto(m, id, First(want)))
    case ListFirst(id, works) =>
      if id !in m.handlers || !m.handlers[id].First? then None
      else
        var want := m.handlers[id].want;
        Some(Goto(m, id, if want == Seen(m, works) then Done else Listing(want)))
    case List(id, works) =>
      if id !in m.handlers || !m.handlers[id].Listing? then None
      else if m.handlers[id].want then Some(Goto(m, id, if Seen(m, works) then Done else Adding))
      else Some(Goto(m, id, if Seen(m, works) then Flushing else Done))
    case Add(id, ok) =>
      if !At(m, id, Adding) then None else Some(Goto(if ok then m.(drops := m.drops + 1) else m, id, Done))
    case Flush(id, ok) =>
      if !At(m, id, Flushing) then None else Some(Goto(if ok then m.(drops := 0) else m, id, Done))
  }

  function Run(m: Chain, es: seq<Event>): Option<Chain>
    decreases |es|
  {
    if es == [] then Some(m)
    else match Step(m, es[0]) case Some(m') => Run(m', es[1..]) case None => None
  }

  /** The handlers between their listing and their rule. */
  function Adders(m: Chain): set<HandlerId> {
    set id | id in m.handlers && m.handlers[id] == Adding
  }

  /** Rules there are, and rules under way. */
  function Load(m: Chain): nat {
    m.drops + |Adders(m)|
  }

  lemma AddersGoto(m: Chain, id: HandlerId, pc: Pc)
    ensures Adders(Goto(m, id, pc)) == if pc == Adding then Adders(m) + {id} else Adders(m) - {id}
    ensures id !in Adders(m) ==> |Adders(Goto(m, id, pc))| == |Adders(m)| + (if pc == Adding then 1 else 0)
    ensures id in Adders(m) ==> |Adders(Goto(m, id, pc))| == |Adders(m)| - (if pc == Adding then 0 else 1)
  {
    assert Adders(Goto(m, id, pc)) == if pc == Adding then Adders(m) + {id} else Adders(m) - {id};
    assert id in Adders(m) ==> Adders(m) + {id} == Adders(m);
    assert id !in Adders(m) ==> Adders(m) - {id} == Adders(m);
  }

  // ----------------------------------------------------- when a second rule appears

  /** A handler that wants a block is about to be sent on to add a rule. */
  predicate WillAdd(m: Chain, e: Event) {
    e.List? && At(m, e.id, Listing(true)) && !Seen(m, e.works)
  }

  lemma StepShape(m: Chain, e: Event, m': Chain)
    requires Step(m, e) == Some(m')
    ensures e.id in m'.handlers && m'.handlers == m.handlers[e.id := m'.handlers[e.id]]
    ensures m'.handlers[e.id] == Adding <==> WillAdd(m, e)
    ensures e.Add? ==> At(m, e.id, Adding) && m.drops <= m'.drops <= m.drops + 1
    ensures !e.Add? ==> !At(m, e.id, Adding) && m'.drops <= m.drops
  {
  }

  /** Only a listing that finds no rule raises the load, and it raises it by one. */
  lemma StepLoad(m: Chain, e: Event, m': Chain)
    requires Step(m, e) == Some(m')
    ensures WillAdd(m, e) ==> Load(m') == Load(m) + 1
    ensures !WillAdd(m, e) ==> Load(m') <= Load(m)
    ensures m'.drops > m.drops ==> e.Add? && m'.drops == m.drops + 1 && Load(m') == Load(m)
  {
    StepShape(m, e, m');
    var pc := m'.handlers[e.id];
    assert Adders(m') == Adders(Goto(m, e.id, pc));
    AddersGoto(m, e.id, pc);
    assert e.id in Adders(m) <==> At(m, e.id, Adding);
  }

  /**
   * Exactly when two rules become possible: a handler lists an empty chain while
   * another is on its way to add, or its listing fails while a rule is there.
   */
  lemma SecondRuleArises(m: Chain, e: Event, m': Chain)
    requires Step(m, e) == Some(m') && Load(m) <= 1
    ensures Load(m') >= 2
            <==> e.List? && At(m, e.id, Listing(true))
                 && if m.drops == 0 then |Adders(m)| == 1 else !e.works
  {
    StepLoad(m, e, m');
  }

  /** Runs in which no handler lists the chain before it changes it. */
  predicate NoListing(es: seq<Event>) {
    forall e | e in es :: !e.List?
  }

  lemma {:induction false} LoadFalls(m: Chain, es: seq<Event>, m': Chain)
    requires NoListing(es) && Run(m, es) == Some(m')
    ensures Load(m') <= Load(m)
    decreases |es|
  {
    if es != [] {
      assert es[0] in es;
      StepLoad(m, es[0], Step(m, es[0]).value);
      LoadFalls(Step(m, es[0]).value, es[1..], m');
    }
  }

  /** All handlers on their way can add their rule. */
  lemma {:induction false} AddersAdd(m: Chain) returns (es: seq<Event>, m': Chain)
    ensures NoListing(es) && Run(m, es) == Some(m') && m'.drops == Load(m)
    decreases |Adders(m)|
  {
    if Adders(m) == {} {
      es, m' := [], m;
    } else {
      var id :| id in Adders(m);
      var next := Step(m, Add(id, true)).value;
      AddersGoto(m, id, Done);
      assert Adders(next) == Adders(Goto(m, id, Done));
      var rest;
      rest, m' := AddersAdd(next);
      es := [Add(id, true)] + rest;
      assert es[1..] == rest;
    }
  }

  /** Whatever else happens, a second rule appears in some continuation without a further listing exactly when the load is two or more. */
  lemma SecondRuleIsReachable(m: Chain)
    ensures (exists es, m' :: NoListing(es) && Run(m, es) == Some(m') && m'.drops >= 2) <==> Load(m) >= 2
  {
    var all, full := AddersAdd(m);
    if es, m' :| NoListing(es) && Run(m, es) == Some(m') && m'.drops >= 2 {
      LoadFalls(m, es, m');
    }
  }

  // ----------------------------------------------------- how many rules there can be

  /** Never more than `c` handlers at once between listing and adding. */
  ghost predicate AtMostAdders(m: Chain, es: seq<Event>, c: nat)
    decreases |es|
  {
    |Adders(m)| <= c && (es != [] && Step(m, es[0]).Some? ==> AtMostAdders(Step(m, es[0]).value, es[1..], c))
  }

  /** Listings that fail while a rule is there, by handlers that want a block. */
  function Blind(m: Chain, es: seq<Event>): nat
    decreases |es|
  {
    if es == [] || Step(m, es[0]).None? then 0
    else (if WillAdd(m, es[0]) && m.drops > 0 then 1 else 0) + Blind(Step(m, es[0]).value, es[1..])
  }

  lemma {:induction false} LoadBound(m: Chain, es: seq<Event>, m': Chain, c: nat, b: nat)
    requires Run(m, es) == Some(m') && AtMostAdders(m, es, c) && Load(m) <= c + b
    ensures Load(m') <= c + b + Blind(m, es)
    decreases |es|
  {
    if es != [] {
      var next := Step(m, es[0]).value;
      StepLoad(m, es[0], next);
      if WillAdd(m, es[0]) && m.drops > 0 {
        LoadBound(next, es[1..], m', c, b + 1);
      } else {
        assert WillAdd(m, es[0]) ==> next.drops == 0;
        LoadBound(next, es[1..], m', c, b);
      }
    }
  }

  /**
   * In every interleaving: from one rule or none, with at most `c` handlers at
   * once between listing and adding, there are never more than `c` rules and one
   * for each listing that failed while a rule was there.
   */
  lemma RulesBound(drops: nat, es: seq<Event>, m': Chain, c: nat)
    requires drops <= 1 <= c && Run(Chain(drops, map[]), es) == Some(m') && AtMostAdders(Chain(drops, map[]), es, c)
    ensures m'.drops <= c + Blind(Chain(drops, map[]), es)
  {
    assert Adders(Chain(drops, map[])) == {};
    LoadBound(Chain(drops, map[]), es, m', c, 0);
  }

  lemma {:induction false} RunSplit(m: Chain, a: seq<Event>, b: seq<Event>)
    ensures Run(m, a + b) == match Run(m, a) case Some(n) => Run(n, b) case None => None
    decreases |a|
  {
    if a == [] {
      assert a + b == b;
    } else {
      assert (a + b)[1..] == a[1..] + b;
      if Step(m, a[0]).Some? {
        RunSplit(Step(m, a[0]).value, a[1..], b);
      }
    }
  }

  /** `c` requests to block, of which each lists before any adds; every listing works. */
  lemma {:induction false} Crowd(c: nat) returns (es: seq<Event>, m: Chain)
    ensures Run(Chain(0, map[]), es) == Some(m) && m.drops == 0 && |Adders(m)| == c
    ensures forall id | id in m.handlers :: id < c
    ensures forall e | e in es :: e.id < c && (e.Press? || (e.List? && e.works))
  {
    if c == 0 {
      es, m := [], Chain(0, map[]);
    } else {
      var before, n := Crowd(c - 1);
      var two := [Press(c - 1, true), List(c - 1, true)];
      m := OneMore(n, c - 1);
      es := before + two;
      RunSplit(Chain(0, map[]), before, two);
    }
  }

  /** One more request that wants a block lists and finds no rule. */
  lemma OneMore(n: Chain, id: HandlerId) returns (m: Chain)
    requires n.drops == 0 && id !in n.handlers
    ensures Run(n, [Press(id, true), List(id, true)]) == Some(m)
    ensures m.drops == 0 && |Adders(m)| == |Adders(n)| + 1 && m.handlers.Keys == n.handlers.Keys + {id}
  {
    m := n.(handlers := n.handlers[id := Adding]);
    PressAndList(n, id, m);
    AddersGoto(n, id, Adding);
  }

  lemma PressAndList(n: Chain, id: HandlerId, m: Chain)
    requires n.drops == 0 && id !in n.handlers && m == Goto(n, id, Adding)
    ensures Run(n, [Press(id, true), List(id, true)]) == Some(m)
  {
    var two := [Press(id, true), List(id, true)];
    var pressed := Goto(n, id, Listing(true));
    assert pressed.handlers[id := Adding] == m.handlers;
    assert Step(n, two[0]) == Some(pressed) && Step(pressed, two[1]) == Some(m);
    assert two[1..] == [two[1]] && two[1..][1..] == [];
    assert Run(pressed, two[1..]) == Run(m, []);
  }

  /** The bound is attained: `c` overlapping requests whose listings all work leave `c` rules. */
  lemma CrowdAddsRules(c: nat)
    ensures exists es, m :: Run(Chain(0, map[]), es) == Some(m) && m.drops == c
              && forall e: Event | e in es :: e.List? ==> e.works
  {
    var before, n := Crowd(c);
    var adds, m := AddersAdd(n);
    RunSplit(Chain(0, map[]), before, adds);
    assert Run(Chain(0, map[]), before + adds) == Some(m);
  }

  // ----------------------------------------------------- a handler that nobody disturbs

  lemma Go(m0: Chain, es: seq<Event>, m: Chain, e: Event) returns (es': seq<Event>, m': Chain)
    requires Run(m0, es) == Some(m) && Step(m, e).Some?
    ensures Run(m0, es') == Some(m') && Step(m, e) == Some(m')
  {
    es', m' := es + [e], Step(m, e).value;
    RunSplit(m0, es, [e]);
    assert [e][1..] == [];
    assert Run(m, [e]) == Run(m', []);
  }

  lemma FinishAlone(m0: Chain, es: seq<Event>, m: Chain, g: Schedule.Gate, want: bool, list: bool, run: bool)
    returns (es': seq<Event>, m': Chain)
    requires Run(m0, es) == Some(m) && m.handlers == map[0 := Listing(want)] && g.drops == m.drops
    ensures Run(m0, es') == Some(m') && m'.handlers == map[0 := Done]
    ensures m'.drops == (if want then Schedule.Block(g, list, run) else Schedule.Unblock(g, list, run)).0.drops
  {
    es', m' := Go(m0, es, m, List(0, list));
    if m'.handlers[0] == Adding {
      es', m' := Go(m0, es', m', Add(0, run));
    } else if m'.handlers[0] == Flushing {
      es', m' := Go(m0, es', m', Flush(0, run));
    }
  }

  /** Run alone, a button's steps do to the chain what `Schedule.Pressed` says. */
  lemma AloneIsButton(g: Schedule.Gate, want: bool, list: bool, run: bool)
    ensures exists es, m :: Run(Chain(g.drops, map[]), es) == Some(m) && m.handlers == map[0 := Done]
              && m.drops == Schedule.Pressed(g, want, Schedule.WRITTEN, list, run).0.drops
  {
    var m0 := Chain(g.drops, map[]);
    var es, m := Go(m0, [], m0, Press(0, want));
    es, m := FinishAlone(m0, es, m, g, want, list, run);
    assert m.drops == Schedule.Pressed(g, want, Schedule.WRITTEN, list, run).0.drops;
  }

  /** And a tick's steps do what `Schedule.Apply` says. */
  lemma AloneIsApply(g: Schedule.Gate, wish: bool, env: Schedule.Env)
    ensures exists es, m :: Run(Chain(g.drops, map[]), es) == Some(m) && m.handlers == map[0 := Done]
              && m.drops == Schedule.Apply(g, wish, env).0.drops
  {
    var m0 := Chain(g.drops, map[]);
    var ov := Schedule.OverrideOf(g.file);
    var want := if ov.Some? then ov.value else wish;
    var es, m := Go(m0, [], m0, Apply(0, want));
    es, m := Go(m0, es, m, ListFirst(0, env.list));
    if m.handlers[0].Listing? {
      assert m.handlers == map[0 := Listing(want)];
      es, m := FinishAlone(m0, es, m, g, want, env.listAgain, env.run);
    }
    assert m.drops == Schedule.Apply(g, wish, env).0.drops;
  }
}
