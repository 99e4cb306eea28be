// The tracker object (`build`, packages/arena-track/src/index.ts:152-385): the closure's variables as fields, its
// handlers as methods. Each is shown to make the step TrackerModel.dfy describes; the runs of these steps are
// the subject of EngagedTime.dfy and TrackerQueue.dfy.

module Tracker {
  import opened Base
  import opened TrackerModel
  import TQ = TrackerQueue

  lemma {:induction false} MineConcat(a: seq<Item>, b: seq<Item>, who: Option<string>)
    ensures Mine(a + b, who) == Mine(a, who) + Mine(b, who)
  {
    if b == [] {
      assert a + b == a;
    } else {
      var q, it := b[..|b|-1], b[|b|-1];
      MineConcat(a, q, who);
      assert (a + b)[..|a + b|-1] == a + q;
      SeqAssoc(Mine(a, who), Mine(q, who), if it.user == who then [it] else []);
    }
  }

  lemma {:induction false} MineFirst(queue: seq<Item>, k: nat, who: Option<string>)
    requires k < |queue|
    ensures Mine(queue[k..], who) == (if queue[k].user == who then [queue[k]] else []) + Mine(queue[k+1..], who)
  {
    assert queue[k..] == [queue[k]] + queue[k+1..];
    MineConcat([queue[k]], queue[k+1..], who);
    assert [queue[k]][..0] == [];
    assert Mine([queue[k]], who) == (if queue[k].user == who then [queue[k]] else []);
  }

  /** One more property, cleaned. */
  lemma {:induction false} CleanNext(cfg: Config, keys: seq<string>, k: nat, props: Props)
    requires k < |keys|
    ensures var key := keys[k];
            CleanProps(cfg, keys[..k+1], props) ==
              if key in props && cfg.clean(key, props[key]).Some?
              then CleanProps(cfg, keys[..k], props)[key := cfg.clean(key, props[key]).value]
              else CleanProps(cfg, keys[..k], props)
  {
    assert keys[..k+1] == keys[..k] + [keys[k]];
  }

  /** The loop of `push` over the allowed properties. */
  method Cleaned(cfg: Config, keys: seq<string>, props: Props) returns (clean: Props)
    ensures clean == CleanProps(cfg, keys, props)
  {
    hide CleanProps;
    clean := map[];
    NothingClean(cfg, props);
    for k := 0 to |keys|
      invariant clean == CleanProps(cfg, keys[..k], props)
    {
      CleanNext(cfg, keys, k, props);
      if keys[k] in props {
        var v := cfg.clean(keys[k], props[keys[k]]);
        if v.Some? { clean := clean[keys[k] := v.value]; }
      }
    }
    assert keys[..|keys|] == keys;
  }

  lemma {:induction false} NothingClean(cfg: Config, props: Props)
    ensures CleanProps(cfg, [], props) == map[]
  {}

  /** The backward loop of `flush` that cuts the events of other identities out. */
  method CutOthers(items: seq<Item>, who: Option<string>) returns (queue: seq<Item>)
    ensures queue == Mine(items, who)
  {
    hide Mine;
    queue := items;
    var k := |items|;
    NoneMine(who);
    assert items[|items|..] == [] && items + [] == items;
    while k > 0
      invariant 0 <= k <= |items| && queue == items[..k] + Mine(items[k..], who)
    {
      k := k - 1;
      MineFirst(items, k, who);
      assert items[..k+1] == items[..k] + [items[k]];
      assert queue[k] == items[k] && queue[..k] == items[..k] && queue[k+1..] == Mine(items[k+1..], who);
      if queue[k].user != who {
        queue := queue[..k] + queue[k+1..];
      }
    }
    assert items[0..] == items;
  }

  lemma {:induction false} NoneMine(who: Option<string>)
    ensures Mine([], who) == []
  {}

  lemma {:induction false} SizeNext(cfg: Config, b: Body, it: Item)
    ensures b == [] ==> BodySize(cfg, b + [it]) == cfg.headBytes(it.ctx, it.pv) + cfg.evBytes(it.ev)
    ensures b != [] ==> BodySize(cfg, b + [it]) == BodySize(cfg, b) + cfg.evBytes(it.ev) + 1
  {
    assert (b + [it])[..|b + [it]|-1] == b;
  }

  lemma {:induction false} SplitNext(cfg: Config, items: seq<Item>, i: nat, m: nat)
    requires i < m <= |items| && BodyEnd(cfg, items[i..], 1) == m - i
    ensures Split(cfg, items[i..]) == [items[i..m]] + Split(cfg, items[m..])
  {
    hide BodyEnd;
    assert items[i..][..m-i] == items[i..m] && items[i..][m-i..] == items[m..];
  }

  /** One body is filled: the inner loop of `flush`. */
  method FillBody(cfg: Config, items: seq<Item>, start: nat) returns (events: Body, i: nat)
    requires start < |items|
    ensures start < i <= |items| && events == items[start..i] && i - start == BodyEnd(cfg, items[start..], 1)
  {
    hide BodySize;
    var first := items[start];
    var size := cfg.headBytes(first.ctx, first.pv);
    events, i := [], start;
    ghost var rest := items[start..];
    while i < |items| && items[i].pv == first.pv && items[i].ctx == first.ctx && |events| < MAX_BATCH
      invariant start <= i <= |items| && events == items[start..i]
      invariant size == if i == start then cfg.headBytes(first.ctx, first.pv) else BodySize(cfg, events)
      invariant i > start ==> BodyEnd(cfg, rest, i - start) == BodyEnd(cfg, rest, 1)
      decreases |items| - i
    {
      var add := cfg.evBytes(items[i].ev) + if |events| > 0 then 1 else 0;
      SizeNext(cfg, events, items[i]);
      assert rest[..i-start+1] == events + [items[i]];
      assert rest[i-start] == items[i] && rest[0] == first;
      if size + add > MAX_BODY && |events| > 0 { break; }
      events := events + [items[i]];
      size := size + add;
      i := i + 1;
    }
  }

  /** The outer loop: all bodies. */
  method Bodies(cfg: Config, items: seq<Item>) returns (bodies: seq<Body>)
    ensures bodies == Split(cfg, items)
  {
    hide Split, BodyEnd;
    bodies := [];
    var i := 0;
    assert items[0..] == items && [] + Split(cfg, items) == Split(cfg, items);
    while i < |items|
      invariant i <= |items| && bodies + Split(cfg, items[i..]) == Split(cfg, items)
    {
      var events, m := FillBody(cfg, items, i);
      SplitNext(cfg, items, i, m);
      SeqAssoc(bodies, [events], Split(cfg, items[m..]));
      bodies := bodies + [events];
      i := m;
    }
    NoSplit(cfg);
    assert items[i..] == [] && bodies + [] == bodies;
  }

  lemma {:induction false} NoSplit(cfg: Config)
    ensures Split(cfg, []) == []
  {}

  lemma {:induction false} TotalFrom(cfg: Config, bodies: seq<Body>, from: nat)
    requires 0 < from <= |bodies|
    ensures TotalSize(cfg, bodies[from-1..]) == BodySize(cfg, bodies[from-1]) + TotalSize(cfg, bodies[from..])
  {
    assert bodies[from-1..][1..] == bodies[from..];
  }

  /** The loop that looks for the newest bodies within the budget. */
  method FirstToSend(cfg: Config, bodies: seq<Body>) returns (from: nat)
    ensures from == LeaveFrom(cfg, bodies, |bodies|)
  {
    hide BodySize, TotalSize;
    from := |bodies|;
    var total := 0;
    NoTotal(cfg);
    assert bodies[|bodies|..] == [];
    while from > 0
      invariant from <= |bodies| && total == TotalSize(cfg, bodies[from..])
      invariant LeaveFrom(cfg, bodies, from) == LeaveFrom(cfg, bodies, |bodies|)
    {
      TotalFrom(cfg, bodies, from);
      if total + BodySize(cfg, bodies[from-1]) > MAX_LEAVE_BYTES { break; }
      from := from - 1;
      total := total + BodySize(cfg, bodies[from]);
    }
  }

  lemma {:induction false} NoTotal(cfg: Config)
    ensures TotalSize(cfg, []) == 0
  {}

  class Tracker {
    const cfg: Config
    /** The clock reading at creation. */
    ghost const start: nat
    var queue: seq<Item>
    var pv: string
    var screen: string
    var dead: bool
    var engagedMs: nat
    var lastTick: Option<nat>
    var lastActive: nat
    var depthSent: set<int>
    var rage: Rage
    /** The bodies handed to the network. */
    var posts: seq<Body>
    ghost var recorded: multiset<Item>
    ghost var dropped: multiset<Item>
    ghost var settled: seq<Settlement>

    ghost function Abs(): State
      reads this
    {
      State(queue, pv, screen, dead, engagedMs, lastTick, lastActive, depthSent, rage, Log(recorded, dropped, posts, settled))
    }

    constructor (cfg: Config, env: Env, pv: string)
      ensures this.cfg == cfg && start == env.now && Abs() == Start(env, pv)
    {
      this.cfg, start := cfg, env.now;
      queue, this.pv, screen, dead := [], pv, "", false;
      engagedMs, lastTick, lastActive := 0, if env.hidden then None else Some(env.now), env.now;
      depthSent, rage, posts := {}, Rage(None, []), [];
      recorded, dropped, settled := multiset{}, multiset{}, [];
    }

    method TickNow(env: Env)
      modifies this`engagedMs, this`lastTick
      ensures Abs() == Tick(old(Abs()), env)
    {
      var t := env.now;
      if lastTick != None {
        var end := if t < lastActive + ACTIVE_MS then t else lastActive + ACTIVE_MS;
        if end > lastTick.value { engagedMs := engagedMs + (end - lastTick.value); }
      }
      lastTick := if env.hidden then None else Some(t);
    }

    method Record(env: Env, name: string, props: Props)
      modifies this`queue, this`recorded, this`dropped
      ensures Abs() == Push(cfg, old(Abs()), env, name, props)
    {
      hide CleanProps, Dict;
      if dead || !env.enabled || !Sendable(cfg, name) { return; }
      var clean := Cleaned(cfg, Dict(name).value.keys, props);
      var user := if cfg.hasIdentity then env.identity else Some("");
      var it := Item(pv, env.ctx, user, Ev(name, env.now, clean));
      queue := queue + [it];
      recorded := recorded + multiset{it};
      if |queue| > MAX_QUEUE {
        dropped := dropped + multiset{queue[0]};
        queue := queue[1..];
      }
    }

    method SettleEngaged(env: Env)
      modifies this`queue, this`recorded, this`dropped, this`engagedMs, this`lastTick, this`settled
      ensures Abs() == EmitEngaged(cfg, old(Abs()), env, Since(old(Abs()), start))
    {
      hide Gain, Push, Dict, CleanProps;
      ghost var from := Since(Abs(), start);
      TickNow(env);
      var ms := engagedMs;
      var seconds := (ms + 500) / 1000;
      engagedMs := 0;
      ghost var b := Abs();
      if seconds >= 1 && screen != "" {
        var props := map[(if cfg.site then "path" else "screen") := Str(screen), "seconds" := Num(seconds)];
        Record(env, "engaged", props);
        PushKeeps(cfg, b, env, "engaged", props);
      }
      TQ.EngagedSendable(cfg);
      ghost var report := if seconds >= 1 && b.screen != "" && IsOn(b, env)
                          then Some(NewItem(cfg, b, env, "engaged", EngagedProps(cfg, b.screen, seconds))) else None;
      settled := settled + [Settlement(b.pv, b.screen, from, env.now, ms, IsOn(b, env), report)];
    }

    method FlushQueue(env: Env, leaving: bool)
      modifies this
      ensures Abs() == Flush(cfg, old(Abs()), env, leaving)
    {
      hide Split, Mine, LeaveFrom, Items;
      if |queue| == 0 { return; }
      if dead || !env.enabled {
        dropped := dropped + multiset(queue);
        queue := [];
        return;
      }
      if cfg.hasIdentity {
        var mine := CutOthers(queue, env.identity);
        dropped := dropped + (multiset(queue) - multiset(mine));
        queue := mine;
        if |queue| == 0 { return; }
      }
      if cfg.hasHeaders && !env.signedIn { return; }
      SendAll(leaving);
    }

    /** The queue is taken out, split, and posted; a page being left posts the newest bodies only. */
    method SendAll(leaving: bool)
      modifies this`queue, this`posts, this`dropped
      ensures Abs() == Send(cfg, old(Abs()), leaving)
    {
      hide Split, LeaveFrom, Items;
      var items := queue;
      queue := [];
      var bodies := Bodies(cfg, items);
      var from := 0;
      if leaving { from := FirstToSend(cfg, bodies); }
      dropped := dropped + multiset(Items(bodies[..from]));
      PostFrom(bodies, from);
    }

    method PostFrom(bodies: seq<Body>, from: nat)
      requires from <= |bodies|
      modifies this`posts
      ensures posts == old(posts) + bodies[from..]
    {
      for k := from to |bodies|
        invariant posts == old(posts) + bodies[from..k]
      {
        posts := posts + [bodies[k]];
      }
      assert bodies[from..|bodies|] == bodies[from..];
    }

    method LeavePage(env: Env)
      modifies this
      ensures Abs() == Leave(cfg, old(Abs()), env, Since(old(Abs()), start))
    {
      hide EmitEngaged, Flush;
      SettleEngaged(env);
      FlushQueue(env, true);
    }

    method OpenView(env: Env, name: string, extra: Props, newPv: string)
      modifies this
      ensures Abs() == OnView(cfg, old(Abs()), env, Since(old(Abs()), start), name, extra, newPv)
    {
      hide EmitEngaged, Push;
      SettleEngaged(env);
      NewPage(env, cfg.route(name), newPv);
      Record(env, if cfg.site then "page_view" else "screen_view", extra[(if cfg.site then "path" else "screen") := Str(screen)]);
    }

    method NewPage(env: Env, route: string, newPv: string)
      modifies this`pv, this`screen, this`depthSent, this`rage, this`lastActive, this`lastTick
      ensures Abs() == old(Abs()).(pv := newPv, screen := route, depthSent := {}, rage := Rage(None, []),
                                   lastActive := env.now, lastTick := LastTickNow(env))
    {
      pv := newPv;
      screen := route;
      depthSent := {};
      rage := Rage(None, []);
      lastActive := env.now;
      lastTick := if env.hidden then None else Some(env.now);
    }

    method Input(env: Env)
      modifies this
      ensures Abs() == OnActivity(old(Abs()), env)
    {
      hide Tick;
      TickNow(env);
      lastActive := env.now;
      if lastTick == None && !env.hidden { lastTick := Some(lastActive); }
    }

    method VisibilityChange(env: Env)
      modifies this
      ensures Abs() == OnVisibility(cfg, old(Abs()), env, Since(old(Abs()), start))
    {
      hide Leave;
      if env.hidden {
        LeavePage(env);
      } else {
        lastActive := env.now;
        lastTick := Some(lastActive);
      }
    }

    method ClickOn(env: Env, mark: Option<string>, target: nat, tag: string)
      modifies this
      ensures Abs() == OnClick(cfg, old(Abs()), env, mark, target, tag)
    {
      hide Push, Recent;
      if mark != None {
        Record(env, "click", map["name" := Str(mark.value), (if cfg.site then "path" else "screen") := Str(screen)]);
      }
      ghost var a := Abs();
      if cfg.site { return; }
      var kept := RecentClicks(if rage.el == Some(target) then rage.at else [], env.now);
      rage := Rage(Some(target), kept + [env.now]);
      if |rage.at| >= RAGE_CLICKS {
        ghost var r := rage;
        var props: Props := map["screen" := Str(screen), "name" := Str(if mark == None then tag else mark.value)];
        Record(env, "rage_click", props);
        rage := Rage(None, []);
        PushRage(cfg, a, r, env, props);
      }
    }

    method ScrollTo(env: Env, percent: Option<real>)
      modifies this
      ensures Abs() == OnScroll(cfg, old(Abs()), env, percent)
    {
      hide Push;
      if percent == None { return; }
      for k := 0 to 4
        invariant Abs() == Depths(cfg, old(Abs()), env, percent.value, k)
      {
        var d := DepthAt(k);
        if percent.value >= (if d == 100 then 99 else d) as real && d !in depthSent {
          depthSent := depthSent + {d};
          Record(env, "scroll", map["path" := Str(screen), "depth" := Num(d)]);
        }
      }
    }

    method TimerFired(env: Env)
      modifies this
      ensures Abs() == OnTimer(cfg, old(Abs()), env)
    {
      hide Gain, Flush;
      TickNow(env);
      FlushQueue(env, false);
    }

    method Shutdown(env: Env)
      modifies this
      ensures Abs() == OnDestroy(cfg, old(Abs()), env, Since(old(Abs()), start))
    {
      hide Leave;
      LeavePage(env);
      dead := true;
      dropped := dropped + multiset(queue);
      queue := [];
    }

    /** One handler, by the event that starts it. */
    method Handle(call: Call, env: Env)
      modifies this
      ensures Abs() == Step(cfg, old(Abs()), call, env, start)
    {
      hide OnView, OnActivity, OnVisibility, Leave, OnClick, OnScroll, OnTimer, EmitEngaged, Push, Flush, OnDestroy;
      match call {
        case View(name, extra, newPv) => OpenView(env, name, extra, newPv);
        case Activity => Input(env);
        case Visibility => VisibilityChange(env);
        case PageHide => LeavePage(env);
        case Click(mark, target, tag) => ClickOn(env, mark, target, tag);
        case Scroll(percent) => ScrollTo(env, percent);
        case Timer => TimerFired(env);
        case Settle => SettleEngaged(env);
        case Track(event, props) => Record(env, event, props);
        case FlushNow => FlushQueue(env, false);
        case Destroy => Shutdown(env);
      }
    }
  }

  lemma {:induction false} PushKeeps(cfg: Config, s: State, env: Env, name: string, props: Props)
    ensures var s' := Push(cfg, s, env, name, props);
            s'.pv == s.pv && s'.screen == s.screen && s'.log.settled == s.log.settled
  {
    hide Sendable, NewItem;
  }

  /** The rage window does not enter what is recorded. */
  lemma {:induction false} PushRage(cfg: Config, s: State, r: Rage, env: Env, props: Props)
    ensures Push(cfg, s.(rage := r), env, "rage_click", props).(rage := Rage(None, []))
         == Push(cfg, s, env, "rage_click", props).(rage := Rage(None, []))
  {
    hide Sendable, CleanProps;
  }

  /** The filter of the click times. */
  method RecentClicks(at: seq<nat>, t: nat) returns (kept: seq<nat>)
    ensures kept == Recent(at, t)
  {
    kept := [];
    for k := 0 to |at|
      invariant kept == Recent(at[..k], t)
    {
      assert at[..k+1][..k] == at[..k];
      if t - at[k] < RAGE_MS { kept := kept + [at[k]]; }
    }
    assert at[..|at|] == at;
  }
}
