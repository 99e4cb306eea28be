// Which events a run records, and with what in them (packages/arena-track/src/index.ts:77-91, 196-215, 283-380): the table of events and
// properties written out, and every handler's events read off its call.

module TrackerEvents {
  import opened Base
  import opened TrackerModel
  import opened EngagedTime
  import opened TrackerQueue

  // ---- the table ----

  const ON_SITE: map<string, set<string>> := map[
    "page_view" := {"path", "title", "lang", "ref_host", "utm_source", "utm_medium", "utm_campaign", "utm_term", "utm_content"},
    "engaged" := {"path", "screen", "seconds"},
    "scroll" := {"path", "depth"},
    "click" := {"name", "path", "screen"},
    "consent" := {"analytics"}]

  const IN_CENTER: map<string, set<string>> := map[
    "screen_view" := {"screen"},
    "engaged" := {"path", "screen", "seconds"},
    "click" := {"name", "path", "screen"},
    "flow_step" := {"flow", "step"},
    "ui_error" := {"screen", "code"},
    "rage_click" := {"screen", "name"}]

  function Table(site: bool): map<string, set<string>> { if site then ON_SITE else IN_CENTER }

  /** The properties of an event: those of its list that are given and survive cleaning. */
  function Kept(cfg: Config, keys: set<string>, props: Props): Props {
    map k | k in keys && k in props && cfg.clean(k, props[k]).Some? :: cfg.clean(k, props[k]).value
  }

  /** The event that is recorded, if the table has it for the surface. */
  function Recorded(cfg: Config, env: Env, pv: string, name: string, props: Props): seq<Item> {
    if name !in Table(cfg.site) then []
    else [Item(pv, env.ctx, if cfg.hasIdentity then env.identity else Some(""), Ev(name, env.now, Kept(cfg, Table(cfg.site)[name], props)))]
  }

  lemma {:induction false} SiteTable(name: string)
    ensures name in ON_SITE <==> Dict(name).Some? && Dict(name).value.site
    ensures name in ON_SITE ==> forall k :: k in ON_SITE[name] <==> k in Dict(name).value.keys
  {}

  lemma {:induction false} CenterTable(name: string)
    ensures name in IN_CENTER <==> Dict(name).Some? && Dict(name).value.center
    ensures name in IN_CENTER ==> forall k :: k in IN_CENTER[name] <==> k in Dict(name).value.keys
  {}

  lemma {:induction false} InTable(cfg: Config, name: string)
    ensures name in Table(cfg.site) <==> Sendable(cfg, name)
    ensures name in Table(cfg.site) ==> forall k :: k in Table(cfg.site)[name] <==> k in Dict(name).value.keys
  {
    hide Dict, ON_SITE, IN_CENTER;
    if cfg.site { SiteTable(name); } else { CenterTable(name); }
  }

  lemma {:induction false} SameProps(cfg: Config, name: string, props: Props)
    requires Sendable(cfg, name)
    ensures name in Table(cfg.site) && Kept(cfg, Table(cfg.site)[name], props) == CleanProps(cfg, Dict(name).value.keys, props)
  {
    hide Dict, ON_SITE, IN_CENTER, Table;
    InTable(cfg, name);
  }

  // ---- the queue ----

  /** The newest 200. */
  function Newest(q: seq<Item>): seq<Item> {
    if |q| <= MAX_QUEUE then q else q[|q|-MAX_QUEUE..]
  }

  lemma {:induction false} NewestMore(a: seq<Item>, b: seq<Item>)
    ensures Newest(Newest(a) + b) == Newest(a + b)
  {}

  /** What `push` does: the event is recorded and joins the queue, or nothing happens. */
  ghost predicate Gains(s: State, s': State, items: seq<Item>) {
    s'.log.recorded == s.log.recorded + multiset(items) && s'.queue == Newest(s.queue + items)
  }

  lemma {:induction false} PushGains(cfg: Config, s: State, env: Env, name: string, props: Props)
    requires |s.queue| <= MAX_QUEUE
    ensures var s' := Push(cfg, s, env, name, props);
            && Gains(s, s', if IsOn(s, env) then Recorded(cfg, env, s.pv, name, props) else [])
            && s' == s.(queue := s'.queue, log := s.log.(recorded := s'.log.recorded, dropped := s'.log.dropped))
  {
    hide CleanProps, Kept, Dict, Table;
    InTable(cfg, name);
    if Sendable(cfg, name) { SameProps(cfg, name, props); }
    NothingGained(s);
  }

  lemma {:induction false} NothingGained(s: State)
    requires |s.queue| <= MAX_QUEUE
    ensures Gains(s, s, [])
  {
    assert s.queue + [] == s.queue;
  }

  lemma {:induction false} GainsOn(a: State, b: State, c: State, x: seq<Item>, y: seq<Item>)
    requires Gains(a, b, x) && Gains(b, c, y)
    ensures Gains(a, c, x + y) && |c.queue| <= MAX_QUEUE
  {
    NewestMore(a.queue + x, y);
    assert a.queue + x + y == a.queue + (x + y);
  }

  // ---- what each call records ----

  function PlaceKey(cfg: Config): string { if cfg.site then "path" else "screen" }

  /** The report of the engaged time of the page being closed: whole seconds, when there is one and a screen. */
  function Reported(cfg: Config, s: State, env: Env): seq<Item> {
    var seconds := (s.engagedMs + Gain(s, env.now) + 500) / 1000;
    if seconds == 0 || s.screen == "" then []
    else Recorded(cfg, env, s.pv, "engaged", map[PlaceKey(cfg) := Str(s.screen), "seconds" := Num(seconds)])
  }

  /** The earlier clicks on the same element less than a second ago. */
  function FreshClicks(r: Rage, target: nat, t: nat): set<nat> {
    set k: nat | k < |r.at| && r.el == Some(target) && t - r.at[k] < 1000
  }

  function ClickEvents(cfg: Config, s: State, env: Env, mark: Option<string>, target: nat, tag: string): seq<Item> {
    (if mark == None then [] else Recorded(cfg, env, s.pv, "click", map["name" := Str(mark.value), PlaceKey(cfg) := Str(s.screen)]))
    + (if cfg.site || |FreshClicks(s.rage, target, env.now)| < 2 then []
       else Recorded(cfg, env, s.pv, "rage_click", map["screen" := Str(s.screen), "name" := Str(if mark == None then tag else mark.value)]))
  }

  const DEPTHS := [25, 50, 75, 100]

  /** Where a depth counts as reached: the bottom a little early. */
  function Threshold(d: int): real { if d == 100 then 99.0 else d as real }

  function DepthEvents(cfg: Config, s: State, env: Env, percent: real, ds: seq<int>): seq<Item> {
    if ds == [] then []
    else
      var d := ds[|ds|-1];
      DepthEvents(cfg, s, env, percent, ds[..|ds|-1])
      + (if percent >= Threshold(d) && d !in s.depthSent
         then Recorded(cfg, env, s.pv, "scroll", map["path" := Str(s.screen), "depth" := Num(d)]) else [])
  }

  /** The events of one call while the tracker is on. */
  function Happened(cfg: Config, s: State, call: Call, env: Env): seq<Item> {
    if !IsOn(s, env) then []
    else
      match call
      case View(name, extra, newPv) =>
        Reported(cfg, s, env)
        + Recorded(cfg, env, newPv, if cfg.site then "page_view" else "screen_view", extra[PlaceKey(cfg) := Str(cfg.route(name))])
      case Visibility => if env.hidden then Reported(cfg, s, env) else []
      case PageHide => Reported(cfg, s, env)
      case Settle => Reported(cfg, s, env)
      case Destroy => Reported(cfg, s, env)
      case Click(mark, target, tag) => ClickEvents(cfg, s, env, mark, target, tag)
      case Scroll(percent) => if percent == None then [] else DepthEvents(cfg, s, env, percent.value, DEPTHS)
      case Track(event, props) => Recorded(cfg, env, s.pv, event, props)
      case Activity => []
      case Timer => []
      case FlushNow => []
  }

  lemma {:induction false} EmitGains(cfg: Config, s: State, env: Env, from: nat)
    requires |s.queue| <= MAX_QUEUE
    ensures var s' := EmitEngaged(cfg, s, env, from);
            && Gains(s, s', if IsOn(s, env) then Reported(cfg, s, env) else [])
            && |s'.queue| <= MAX_QUEUE && s'.dead == s.dead && s'.pv == s.pv && s'.screen == s.screen && s'.depthSent == s.depthSent
  {
    hide Push, Gain, Recorded, NewItem, Sendable;
    var b := Tick(s, env).(engagedMs := 0);
    var seconds := Rounded(Tick(s, env).engagedMs);
    PushGains(cfg, b, env, "engaged", EngagedProps(cfg, s.screen, seconds));
    NothingGained(s);
    NothingGained(b);
    EngagedSendable(cfg);
  }

  lemma {:induction false} ViewGains(cfg: Config, s: State, env: Env, from: nat, name: string, extra: Props, newPv: string)
    requires |s.queue| <= MAX_QUEUE
    ensures Gains(s, OnView(cfg, s, env, from, name, extra, newPv), Happened(cfg, s, View(name, extra, newPv), env))
  {
    hide EmitEngaged, Push, Recorded, Reported;
    EmitGains(cfg, s, env, from);
    var a := EmitEngaged(cfg, s, env, from);
    var b := a.(pv := newPv, screen := cfg.route(name), depthSent := {}, rage := Rage(None, []),
                lastActive := env.now, lastTick := LastTickNow(env));
    var kind := if cfg.site then "page_view" else "screen_view";
    var props := extra[Place(cfg) := Str(b.screen)];
    PushGains(cfg, b, env, kind, props);
    var x := if IsOn(s, env) then Reported(cfg, s, env) else [];
    var y := if IsOn(b, env) then Recorded(cfg, env, b.pv, kind, props) else [];
    assert Gains(s, b, x);
    GainsOn(s, b, Push(cfg, b, env, kind, props), x, y);
  }

  // ---- clicks ----

  lemma {:induction false} RecentCount(at: seq<nat>, t: nat)
    ensures |Recent(at, t)| == |set k: nat | k < |at| && t - at[k] < 1000|
  {
    var all := set k: nat | k < |at| && t - at[k] < 1000;
    if at == [] {
      assert all == {};
    } else {
      var n := |at| - 1;
      RecentCount(at[..n], t);
      var before := set k: nat | k < |at[..n]| && t - at[..n][k] < 1000;
      assert before == set k: nat | k < n && t - at[k] < 1000;
      assert all == before + if t - at[n] < 1000 then {n} else {};
    }
  }

  lemma {:induction false} ClickGains(cfg: Config, s: State, env: Env, mark: Option<string>, target: nat, tag: string)
    requires |s.queue| <= MAX_QUEUE
    ensures Gains(s, OnClick(cfg, s, env, mark, target, tag), if IsOn(s, env) then ClickEvents(cfg, s, env, mark, target, tag) else [])
  {
    hide Push, Recent, Recorded;
    NothingGained(s);
    var props := if mark == None then map[] else ClickProps(cfg, mark.value, s.screen);
    PushGains(cfg, s, env, "click", props);
    var a := if mark == None then s else Push(cfg, s, env, "click", props);
    var x := if IsOn(s, env) && mark.Some? then Recorded(cfg, env, s.pv, "click", props) else [];
    assert Gains(s, a, x);
    assert x + [] == x;
    var earlier := if s.rage.el == Some(target) then s.rage.at else [];
    RecentCount(earlier, env.now);
    assert FreshClicks(s.rage, target, env.now) == set k: nat | k < |earlier| && env.now - earlier[k] < 1000;
    var shown := if mark == None then tag else mark.value;
    var more := map["screen" := Str(s.screen), "name" := Str(shown)];
    PushGains(cfg, a, env, "rage_click", more);
    GainsOn(s, a, Push(cfg, a, env, "rage_click", more), x, if IsOn(s, env) then Recorded(cfg, env, s.pv, "rage_click", more) else []);
  }

  // ---- depths ----

  lemma {:induction false} DepthsOf(k: nat)
    requires 0 < k <= 4
    ensures k <= |DEPTHS| && DEPTHS[..k] == DEPTHS[..k-1] + [DepthAt(k - 1)] && DEPTHS[..k][..k-1] == DEPTHS[..k-1] && DepthAt(k - 1) !in DEPTHS[..k-1]
    ensures var d := DepthAt(k - 1); Threshold(d) == (if d == 100 then 99 else d) as real
  {}

  function Past(percent: real, ds: seq<int>): set<int> { set d | d in ds && percent >= Threshold(d) }

  lemma {:induction false} PastMore(percent: real, k: nat)
    requires 0 < k <= 4
    ensures var d := DepthAt(k - 1);
            && Past(percent, DEPTHS[..k]) == Past(percent, DEPTHS[..k-1]) + (if percent >= Threshold(d) then {d} else {})
            && d !in Past(percent, DEPTHS[..k-1])
  {
    hide Threshold, DEPTHS;
    DepthsOf(k);
  }

  /** One depth: at most one event. */
  lemma {:induction false} DepthGains(cfg: Config, a: State, env: Env, percent: real, d: int)
    requires |a.queue| <= MAX_QUEUE
    ensures var s' := if percent >= Threshold(d) && d !in a.depthSent
                      then Push(cfg, a.(depthSent := a.depthSent + {d}), env, "scroll", map["path" := Str(a.screen), "depth" := Num(d)]) else a;
            && Gains(a, s', if IsOn(a, env) then DepthEvents(cfg, a, env, percent, [d]) else [])
            && s' == a.(queue := s'.queue, log := s'.log, depthSent := s'.depthSent)
            && s'.depthSent == a.depthSent + if percent >= Threshold(d) then {d} else {}
  {
    hide Push, Recorded, Threshold, Newest, DepthEvents;
    OneDepth(cfg, a, env, percent, d);
    var b := a.(depthSent := a.depthSent + {d});
    PushGains(cfg, b, env, "scroll", map["path" := Str(a.screen), "depth" := Num(d)]);
    NothingGained(a);
    if d in a.depthSent { assert a.depthSent + {d} == a.depthSent; }
  }

  lemma {:induction false} OneDepth(cfg: Config, a: State, env: Env, percent: real, d: int)
    ensures DepthEvents(cfg, a, env, percent, [d]) ==
      if percent >= Threshold(d) && d !in a.depthSent
      then Recorded(cfg, env, a.pv, "scroll", map["path" := Str(a.screen), "depth" := Num(d)]) else []
  {
    hide Recorded, Threshold;
    assert [d][..0] == [] && DepthEvents(cfg, a, env, percent, [d][..0]) == [];
  }

  lemma {:induction false} DepthEventsMore(cfg: Config, s: State, a: State, env: Env, percent: real, k: nat)
    requires 0 < k <= 4 && a.pv == s.pv && a.screen == s.screen && (DepthAt(k - 1) in a.depthSent <==> DepthAt(k - 1) in s.depthSent)
    ensures DepthEvents(cfg, s, env, percent, DEPTHS[..k]) ==
              DepthEvents(cfg, s, env, percent, DEPTHS[..k-1]) + DepthEvents(cfg, a, env, percent, [DepthAt(k - 1)])
  {
    hide Recorded, Threshold, DEPTHS, DepthAt;
    DepthsOf(k);
    var d := DepthAt(k - 1);
    assert [d][..0] == [] && DepthEvents(cfg, a, env, percent, [d][..0]) == [];
  }

  lemma {:induction false} DepthsGain(cfg: Config, s: State, env: Env, percent: real, k: nat)
    requires |s.queue| <= MAX_QUEUE && k <= 4
    ensures var s' := Depths(cfg, s, env, percent, k);
            && Gains(s, s', if IsOn(s, env) then DepthEvents(cfg, s, env, percent, DEPTHS[..k]) else [])
            && |s'.queue| <= MAX_QUEUE && s'.dead == s.dead && s'.pv == s.pv && s'.screen == s.screen
            && s'.depthSent == s.depthSent + Past(percent, DEPTHS[..k])
  {
    hide Push, Recorded, Threshold, DepthAt, DEPTHS, Gains, Past, DepthEvents;
    if k == 0 {
      NothingGained(s);
      NoDepths(cfg, s, env, percent);
    } else {
      DepthsGain(cfg, s, env, percent, k - 1);
      var a, d := Depths(cfg, s, env, percent, k - 1), DepthAt(k - 1);
      DepthsOf(k);
      PastMore(percent, k);
      DepthGains(cfg, a, env, percent, d);
      DepthEventsMore(cfg, s, a, env, percent, k);
      var x := if IsOn(s, env) then DepthEvents(cfg, s, env, percent, DEPTHS[..k-1]) else [];
      var y := if IsOn(s, env) then DepthEvents(cfg, a, env, percent, [d]) else [];
      GainsOn(s, a, Depths(cfg, s, env, percent, k), x, y);
      assert IsOn(s, env) || x + y == [];
    }
  }

  lemma {:induction false} NoDepths(cfg: Config, s: State, env: Env, percent: real)
    ensures DEPTHS[..0] == [] && DepthEvents(cfg, s, env, percent, []) == [] && Past(percent, []) == {}
  {}

  // ---- steps ----

  /** The calls after which the queue is flushed. */
  predicate Flushes(call: Call, env: Env) {
    call.PageHide? || call.Timer? || call.FlushNow? || call.Destroy? || (call.Visibility? && env.hidden)
  }

  lemma {:induction false} FlushRecords(cfg: Config, s: State, env: Env, leaving: bool)
    ensures var s' := TrackerModel.Flush(cfg, s, env, leaving);
            && s'.log.recorded == s.log.recorded && s'.pv == s.pv && s'.screen == s.screen && s'.depthSent == s.depthSent && s'.dead == s.dead
  {
    hide Mine, Split, LeaveFrom, Items;
  }

  /** One call records exactly its events, in order; where it does not flush, they are the newest of the queue. */
  lemma {:induction false} StepRecords(cfg: Config, s: State, call: Call, env: Env, start: nat)
    requires |s.queue| <= MAX_QUEUE
    ensures var s' := Step(cfg, s, call, env, start);
            && s'.log.recorded == s.log.recorded + multiset(Happened(cfg, s, call, env))
            && (!Flushes(call, env) ==> s'.queue == Newest(s.queue + Happened(cfg, s, call, env)))
  {
    hide EmitEngaged, TrackerModel.Flush, Push, OnView, OnClick, Depths, Gain, ClickEvents, DepthEvents, Reported, Recorded;
    var from := Since(s, start);
    NothingGained(s);
    EmitGains(cfg, s, env, from);
    FlushRecords(cfg, EmitEngaged(cfg, s, env, from), env, true);
    match call
    case View(name, extra, newPv) => ViewGains(cfg, s, env, from, name, extra, newPv);
    case Click(mark, target, tag) => ClickGains(cfg, s, env, mark, target, tag);
    case Scroll(percent) =>
      if percent.Some? {
        DepthsGain(cfg, s, env, percent.value, 4);
        assert DEPTHS[..4] == DEPTHS;
      }
    case Timer => FlushRecords(cfg, Tick(s, env), env, false);
    case Track(event, props) => PushGains(cfg, s, env, event, props);
    case FlushNow => FlushRecords(cfg, s, env, false);
    case _ =>
  }

  // ---- the page, read off the run ----

  /** The page view and the screen of a run: those of its last view. */
  function PageOf(cfg: Config, pv0: string, h: History): (string, string) {
    if h == [] then (pv0, "")
    else
      match h[|h|-1].call
      case View(name, _, newPv) => (newPv, cfg.route(name))
      case _ => PageOf(cfg, pv0, h[..|h|-1])
  }

  /** The depths reached since the last view. */
  function Reached(h: History): set<int> {
    if h == [] then {}
    else
      var front := h[..|h|-1];
      match h[|h|-1].call
      case View(_, _, _) => {}
      case Scroll(percent) => Reached(front) + (if percent == None then {} else set d | d in DEPTHS && percent.value >= Threshold(d))
      case _ => Reached(front)
  }

  predicate Destroyed(h: History) { exists k :: 0 <= k < |h| && h[k].call.Destroy? }

  lemma {:induction false} DestroyedSnoc(h: History, e: Happening)
    ensures Destroyed(h + [e]) <==> Destroyed(h) || e.call.Destroy?
  {
    var more := h + [e];
    if Destroyed(h) {
      var k :| 0 <= k < |h| && h[k].call.Destroy?;
      assert more[k].call.Destroy?;
    }
    if e.call.Destroy? { assert more[|h|].call.Destroy?; }
  }

  /** The fields a page is made of. */
  predicate SamePage(a: State, b: State) {
    a.pv == b.pv && a.screen == b.screen && a.depthSent == b.depthSent && a.dead == b.dead
  }

  lemma {:induction false} PushPage(cfg: Config, s: State, env: Env, name: string, props: Props)
    ensures SamePage(s, Push(cfg, s, env, name, props))
  {
    hide Sendable, NewItem;
  }

  lemma {:induction false} ViewPage(cfg: Config, s: State, env: Env, from: nat, name: string, extra: Props, newPv: string)
    requires |s.queue| <= MAX_QUEUE
    ensures var s' := OnView(cfg, s, env, from, name, extra, newPv);
            s'.pv == newPv && s'.screen == cfg.route(name) && s'.depthSent == {} && s'.dead == s.dead
  {
    hide EmitEngaged, Push;
    EmitGains(cfg, s, env, from);
    var b := EmitEngaged(cfg, s, env, from).(pv := newPv, screen := cfg.route(name), depthSent := {}, rage := Rage(None, []),
                lastActive := env.now, lastTick := LastTickNow(env));
    PushPage(cfg, b, env, if cfg.site then "page_view" else "screen_view", extra[Place(cfg) := Str(b.screen)]);
  }

  lemma {:induction false} ClickPage(cfg: Config, s: State, env: Env, mark: Option<string>, target: nat, tag: string)
    ensures SamePage(s, OnClick(cfg, s, env, mark, target, tag))
  {
    hide Push, RageAfter;
    if mark.Some? { PushPage(cfg, s, env, "click", ClickProps(cfg, mark.value, s.screen)); }
    var a := if mark == None then s else Push(cfg, s, env, "click", ClickProps(cfg, mark.value, s.screen));
    PushPage(cfg, a, env, "rage_click", map["screen" := Str(a.screen), "name" := Str(if mark == None then tag else mark.value)]);
  }

  lemma {:induction false} PageStep(cfg: Config, s: State, call: Call, env: Env, start: nat)
    requires |s.queue| <= MAX_QUEUE
    ensures var s' := Step(cfg, s, call, env, start);
            match call
            case View(name, _, newPv) => s'.pv == newPv && s'.screen == cfg.route(name) && s'.depthSent == {} && s'.dead == s.dead
            case Scroll(percent) =>
              && s'.pv == s.pv && s'.screen == s.screen && s'.dead == s.dead
              && s'.depthSent == s.depthSent + (if percent == None then {} else set d | d in DEPTHS && percent.value >= Threshold(d))
            case Destroy => s'.dead && SamePage(s', s.(dead := true))
            case _ => SamePage(s, s')
  {
    hide EmitEngaged, TrackerModel.Flush, Push, OnView, OnClick, Depths, Gain, DEPTHS, Threshold;
    var from := Since(s, start);
    EmitGains(cfg, s, env, from);
    FlushRecords(cfg, EmitEngaged(cfg, s, env, from), env, true);
    match call
    case View(name, extra, newPv) => ViewPage(cfg, s, env, from, name, extra, newPv);
    case Click(mark, target, tag) => ClickPage(cfg, s, env, mark, target, tag);
    case Scroll(percent) =>
      if percent.Some? {
        DepthsGain(cfg, s, env, percent.value, 4);
        AllDepths();
      }
    case Timer => FlushRecords(cfg, Tick(s, env), env, false);
    case Track(event, props) => PushPage(cfg, s, env, event, props);
    case FlushNow => FlushRecords(cfg, s, env, false);
    case _ =>
  }

  lemma {:induction false} AllDepths()
    ensures |DEPTHS| == 4 && DEPTHS[..4] == DEPTHS
  {}

  /** Over every run: page view, screen and reported depths are those of the calls since the last view. */
  lemma {:induction false} PageRuns(cfg: Config, env0: Env, pv0: string, h: History)
    ensures var s := Run(cfg, env0, pv0, h);
            (s.pv, s.screen) == PageOf(cfg, pv0, h) && s.depthSent == Reached(h) && (s.dead <==> Destroyed(h))
  {
    hide Step, DEPTHS, Threshold, Destroyed;
    if h == [] {
      NoneDestroyed();
    } else {
      var front, e := h[..|h|-1], h[|h|-1];
      assert h == front + [e];
      PageRuns(cfg, env0, pv0, front);
      DestroyedSnoc(front, e);
      QueueBounded(cfg, env0, pv0, front);
      PageStep(cfg, Run(cfg, env0, pv0, front), e.call, e.env, env0.now);
    }
  }

  lemma {:induction false} NoneDestroyed()
    ensures !Destroyed([])
  {}

  lemma {:induction false} QueueBounded(cfg: Config, env0: Env, pv0: string, h: History)
    ensures |Run(cfg, env0, pv0, h).queue| <= MAX_QUEUE
  {
    hide Run;
    QueueRuns(cfg, env0, pv0, h);
  }

  // ---- whole runs ----

  /** The events of a run, call by call. */
  function AllHappened(cfg: Config, env0: Env, pv0: string, h: History): seq<Item> {
    if h == [] then []
    else
      var front, e := h[..|h|-1], h[|h|-1];
      AllHappened(cfg, env0, pv0, front) + Happened(cfg, Run(cfg, env0, pv0, front), e.call, e.env)
  }

  /** Over every run, what was recorded is what happened, each event as often. */
  lemma {:induction false} EventsRun(cfg: Config, env0: Env, pv0: string, h: History)
    ensures Run(cfg, env0, pv0, h).log.recorded == multiset(AllHappened(cfg, env0, pv0, h))
  {
    hide Step, Happened;
    if h != [] {
      var front, e := h[..|h|-1], h[|h|-1];
      EventsRun(cfg, env0, pv0, front);
      QueueBounded(cfg, env0, pv0, front);
      StepRecords(cfg, Run(cfg, env0, pv0, front), e.call, e.env, env0.now);
    }
  }

  /** The event of a view: its own page view, its time, its name on the surface, and its route as far as cleaning lets it through. */
  predicate IsView(cfg: Config, it: Item, env: Env, name: string, newPv: string) {
    && it.pv == newPv && it.ctx == env.ctx && it.ev.at == env.now
    && it.ev.name == (if cfg.site then "page_view" else "screen_view")
    && var key, route := PlaceKey(cfg), Str(cfg.route(name));
       if cfg.clean(key, route).Some? then key in it.ev.props && it.ev.props[key] == cfg.clean(key, route).value
       else key !in it.ev.props
  }

  /** In any run whose tracker is on, a view records one event besides the report of the page it closes, the newest of the queue. */
  lemma {:induction false} ViewIsRecorded(cfg: Config, env0: Env, pv0: string, h: History, env: Env, name: string, extra: Props, newPv: string)
    requires !Destroyed(h) && env.enabled
    ensures var s := Run(cfg, env0, pv0, h);
            var s' := Step(cfg, s, View(name, extra, newPv), env, env0.now);
            && s'.queue != [] && IsView(cfg, s'.queue[|s'.queue|-1], env, name, newPv)
            && s'.log.recorded == s.log.recorded + multiset(Reported(cfg, s, env)) + multiset{s'.queue[|s'.queue|-1]}
  {
    hide Run, Step, Reported, Destroyed, IsView;
    var s := Run(cfg, env0, pv0, h);
    PageRuns(cfg, env0, pv0, h);
    QueueBounded(cfg, env0, pv0, h);
    var call := View(name, extra, newPv);
    StepRecords(cfg, s, call, env, env0.now);
    var kind := if cfg.site then "page_view" else "screen_view";
    var props := extra[PlaceKey(cfg) := Str(cfg.route(name))];
    ViewInTable(cfg);
    var it := Recorded(cfg, env, newPv, kind, props)[0];
    assert Happened(cfg, s, call, env) == Reported(cfg, s, env) + [it];
    NewestLast(s.queue, Reported(cfg, s, env), it);
    EventIsView(cfg, env, name, extra, newPv);
  }

  lemma {:induction false} EventIsView(cfg: Config, env: Env, name: string, extra: Props, newPv: string)
    ensures var kind := if cfg.site then "page_view" else "screen_view";
            var r := Recorded(cfg, env, newPv, kind, extra[PlaceKey(cfg) := Str(cfg.route(name))]);
            |r| == 1 && IsView(cfg, r[0], env, name, newPv)
  {
    hide Table;
    ViewInTable(cfg);
  }

  lemma {:induction false} ViewInTable(cfg: Config)
    ensures var kind := if cfg.site then "page_view" else "screen_view"; kind in Table(cfg.site) && PlaceKey(cfg) in Table(cfg.site)[kind]
  {}

  lemma {:induction false} NewestLast(q: seq<Item>, x: seq<Item>, it: Item)
    ensures var n := Newest(q + (x + [it])); n != [] && n[|n|-1] == it
  {}

  /** While the tracker is off nothing is recorded. */
  lemma {:induction false} OffRecordsNothing(cfg: Config, env0: Env, pv0: string, h: History, e: Happening)
    requires Destroyed(h) || !e.env.enabled
    ensures Run(cfg, env0, pv0, h + [e]).log.recorded == Run(cfg, env0, pv0, h).log.recorded
  {
    hide Step, Destroyed;
    assert (h + [e])[..|h|] == h;
    PageRuns(cfg, env0, pv0, h);
    QueueBounded(cfg, env0, pv0, h);
    StepRecords(cfg, Run(cfg, env0, pv0, h), e.call, e.env, env0.now);
  }

  /** A scroll records exactly the depths first reached by it on this page, none twice. */
  lemma {:induction false} DepthOnce(cfg: Config, env0: Env, pv0: string, h: History, env: Env, percent: real, d: int)
    requires cfg.site && !Destroyed(h) && env.enabled && d in DEPTHS
    ensures var s := Run(cfg, env0, pv0, h);
            var it := Recorded(cfg, env, s.pv, "scroll", map["path" := Str(s.screen), "depth" := Num(d)])[0];
            percent >= Threshold(d) && d !in Reached(h) ==> it in Happened(cfg, s, Scroll(Some(percent)), env)
    ensures |Happened(cfg, Run(cfg, env0, pv0, h), Scroll(Some(percent)), env)| == |set k | k in DEPTHS && percent >= Threshold(k) && k !in Reached(h)|
  {
    hide Run, Destroyed, Recorded;
    PageRuns(cfg, env0, pv0, h);
    var s := Run(cfg, env0, pv0, h);
    DepthCount(cfg, s, env, percent, 4);
    assert DEPTHS[..4] == DEPTHS;
    if percent >= Threshold(d) && d !in Reached(h) { DepthIn(cfg, s, env, percent, d, 4); }
  }

  lemma {:induction false} ScrollInTable(cfg: Config, env: Env, pv: string, props: Props)
    requires cfg.site
    ensures |Recorded(cfg, env, pv, "scroll", props)| == 1
  {}

  lemma {:induction false} DepthCount(cfg: Config, s: State, env: Env, percent: real, k: nat)
    requires cfg.site && k <= 4
    ensures |DepthEvents(cfg, s, env, percent, DEPTHS[..k])| == |set d | d in DEPTHS[..k] && percent >= Threshold(d) && d !in s.depthSent|
  {
    hide Recorded, Threshold, DEPTHS, DepthAt;
    if k == 0 {
      NoDepths(cfg, s, env, percent);
      assert (set d | d in DEPTHS[..0] && percent >= Threshold(d) && d !in s.depthSent) == {};
    } else {
      DepthCount(cfg, s, env, percent, k - 1);
      DepthsOf(k);
      var d := DepthAt(k - 1);
      ScrollInTable(cfg, env, s.pv, map["path" := Str(s.screen), "depth" := Num(d)]);
      var before := set x | x in DEPTHS[..k-1] && percent >= Threshold(x) && x !in s.depthSent;
      assert (set x | x in DEPTHS[..k] && percent >= Threshold(x) && x !in s.depthSent)
          == before + if percent >= Threshold(d) && d !in s.depthSent then {d} else {};
    }
  }

  lemma {:induction false} DepthIn(cfg: Config, s: State, env: Env, percent: real, d: int, k: nat)
    requires cfg.site && k <= 4 && d in DEPTHS[..k] && percent >= Threshold(d) && d !in s.depthSent
    ensures var r := Recorded(cfg, env, s.pv, "scroll", map["path" := Str(s.screen), "depth" := Num(d)]);
            |r| == 1 && r[0] in DepthEvents(cfg, s, env, percent, DEPTHS[..k])
  {
    hide Recorded;
    var x := DEPTHS[k-1];
    assert DEPTHS[..k][..k-1] == DEPTHS[..k-1] && DEPTHS[..k] == DEPTHS[..k-1] + [x];
    ScrollInTable(cfg, env, s.pv, map["path" := Str(s.screen), "depth" := Num(d)]);
    if x != d { DepthIn(cfg, s, env, percent, d, k - 1); }
  }
}
