// The browser tracker as a state machine (packages/arena-track/src/index.ts). A step is one handler run at one
// clock reading; what the browser answers during it (visibility, switch, context, identity, headers) is its `Env`.
// Texts are cleaned and bytes are counted by functions the configuration supplies.

module TrackerModel {
  import opened Base

  const MAX_QUEUE := 200
  const MAX_BATCH := 50
  const MAX_BODY := 15000
  const MAX_LEAVE_BYTES := 60000
  const ACTIVE_MS := 30000
  const RAGE_CLICKS := 3
  const RAGE_MS := 1000

  datatype Value = Num(n: int) | Flag(b: bool) | Str(s: string)
  type Props = map<string, Value>

  datatype Ev = Ev(name: string, at: nat, props: Props)

  /** A queued event with the page view, the context and the identity it happened under. */
  datatype Item = Item(pv: string, ctx: string, user: Option<string>, ev: Ev)

  type Body = seq<Item>

  datatype Config = Config(
    site: bool, hasIdentity: bool, hasHeaders: bool,
    clean: (string, Value) -> Option<Value>, route: string -> string,
    headBytes: (string, string) -> nat, evBytes: Ev -> nat)

  datatype Env = Env(now: nat, hidden: bool, enabled: bool, ctx: string, identity: Option<string>, signedIn: bool)

  // ---- the dictionary ----

  datatype Entry = Entry(site: bool, center: bool, keys: seq<string>)

  function Dict(name: string): Option<Entry> {
    match name
    case "page_view" =>
      Some(Entry(true, false, ["path", "title", "lang", "ref_host", "utm_source", "utm_medium", "utm_campaign", "utm_term", "utm_content"]))
    case "engaged" => Some(Entry(true, true, ["path", "screen", "seconds"]))
    case "scroll" => Some(Entry(true, false, ["path", "depth"]))
    case "click" => Some(Entry(true, true, ["name", "path", "screen"]))
    case "consent" => Some(Entry(true, false, ["analytics"]))
    case "screen_view" => Some(Entry(false, true, ["screen"]))
    case "flow_step" => Some(Entry(false, true, ["flow", "step"]))
    case "ui_error" => Some(Entry(false, true, ["screen", "code"]))
    case "rage_click" => Some(Entry(false, true, ["screen", "name"]))
    case _ => None
  }

  predicate Sendable(cfg: Config, name: string) {
    Dict(name).Some? && if cfg.site then Dict(name).value.site else Dict(name).value.center
  }

  /** The allowed properties that survive cleaning. */
  function CleanProps(cfg: Config, keys: seq<string>, props: Props): Props {
    map k | k in keys && k in props && cfg.clean(k, props[k]).Some? :: cfg.clean(k, props[k]).value
  }

  function Place(cfg: Config): string { if cfg.site then "path" else "screen" }

  // ---- the state ----

  /** The clicks of the current rage window; elements are numbered. */
  datatype Rage = Rage(el: Option<nat>, at: seq<nat>)

  /** One closing of the engaged time: what had been earned since `from`, and the seconds it rounds to. */
  datatype Settlement = Settlement(pv: string, screen: string, from: nat, to: nat, ms: nat, on: bool, report: Option<Item>)

  /** What happened to the recorded events, for the statements about whole runs. */
  datatype Log = Log(recorded: multiset<Item>, dropped: multiset<Item>, sent: seq<Body>, settled: seq<Settlement>)

  datatype State = State(
    queue: seq<Item>, pv: string, screen: string, dead: bool,
    engagedMs: nat, lastTick: Option<nat>, lastActive: nat,
    depthSent: set<int>, rage: Rage, log: Log)

  function Start(env: Env, pv: string): State {
    State([], pv, "", false, 0, if env.hidden then None else Some(env.now), env.now, {}, Rage(None, []),
          Log(multiset{}, multiset{}, [], []))
  }

  predicate IsOn(s: State, env: Env) { !s.dead && env.enabled }

  // ---- engaged time ----

  function Gain(s: State, t: nat): nat {
    if s.lastTick == None then 0
    else
      var end := if t < s.lastActive + ACTIVE_MS then t else s.lastActive + ACTIVE_MS;
      if end > s.lastTick.value then end - s.lastTick.value else 0
  }

  function Tick(s: State, env: Env): State {
    s.(engagedMs := s.engagedMs + Gain(s, env.now), lastTick := if env.hidden then None else Some(env.now))
  }

  function Rounded(ms: nat): nat { (ms + 500) / 1000 }

  // ---- the queue ----

  function NewItem(cfg: Config, s: State, env: Env, name: string, props: Props): Item
    requires Sendable(cfg, name)
  {
    Item(s.pv, env.ctx, if cfg.hasIdentity then env.identity else Some(""),
         Ev(name, env.now, CleanProps(cfg, Dict(name).value.keys, props)))
  }

  function Enqueue(s: State, it: Item): State {
    var q := s.queue + [it];
    var log := s.log.(recorded := s.log.recorded + multiset{it});
    if |q| > MAX_QUEUE then s.(queue := q[1..], log := log.(dropped := log.dropped + multiset{q[0]}))
    else s.(queue := q, log := log)
  }

  function Push(cfg: Config, s: State, env: Env, name: string, props: Props): State {
    if !IsOn(s, env) || !Sendable(cfg, name) then s else Enqueue(s, NewItem(cfg, s, env, name, props))
  }

  function EngagedProps(cfg: Config, screen: string, seconds: nat): Props {
    map[Place(cfg) := Str(screen), "seconds" := Num(seconds)]
  }

  function Settled(s: State, st: Settlement): State {
    s.(log := s.log.(settled := s.log.settled + [st]))
  }

  /** The settlement of the engaged time: it is rounded, reported when it rounds to a second or more, and starts anew. */
  function EmitEngaged(cfg: Config, s: State, env: Env, from: nat): State {
    var a := Tick(s, env);
    var seconds := Rounded(a.engagedMs);
    var b := a.(engagedMs := 0);
    var reports := seconds >= 1 && s.screen != "";
    var props := EngagedProps(cfg, s.screen, seconds);
    var c := if reports then Push(cfg, b, env, "engaged", props) else b;
    var report := if reports && IsOn(b, env) then Some(NewItem(cfg, b, env, "engaged", props)) else None;
    Settled(c, Settlement(s.pv, s.screen, from, env.now, a.engagedMs, IsOn(b, env), report))
  }

  /** The end of the last settlement. */
  function Since(s: State, start: nat): nat {
    var l := s.log.settled;
    if l == [] then start else l[|l|-1].to
  }

  // ---- flushing ----

  function BodySize(cfg: Config, b: Body): nat {
    if b == [] then 0
    else if |b| == 1 then cfg.headBytes(b[0].ctx, b[0].pv) + cfg.evBytes(b[0].ev)
    else BodySize(cfg, b[..|b|-1]) + cfg.evBytes(b[|b|-1].ev) + 1
  }

  function Mine(items: seq<Item>, who: Option<string>): seq<Item> {
    if items == [] then []
    else Mine(items[..|items|-1], who) + (if items[|items|-1].user == who then [items[|items|-1]] else [])
  }

  /** The next item joins a body of `n` items: same page view and context, and room for it. */
  predicate Joins(cfg: Config, items: seq<Item>, n: nat)
    requires 0 < n < |items|
  {
    && items[n].pv == items[0].pv && items[n].ctx == items[0].ctx && n < MAX_BATCH
    && BodySize(cfg, items[..n+1]) <= MAX_BODY
  }

  function BodyEnd(cfg: Config, items: seq<Item>, n: nat): (m: nat)
    requires 0 < n <= |items|
    ensures n <= m <= |items|
    decreases |items| - n
  {
    if n < |items| && Joins(cfg, items, n) then BodyEnd(cfg, items, n + 1) else n
  }

  function Split(cfg: Config, items: seq<Item>): seq<Body>
    decreases |items|
  {
    if items == [] then []
    else
      var n := BodyEnd(cfg, items, 1);
      [items[..n]] + Split(cfg, items[n..])
  }

  function TotalSize(cfg: Config, bodies: seq<Body>): nat {
    if bodies == [] then 0 else BodySize(cfg, bodies[0]) + TotalSize(cfg, bodies[1..])
  }

  /** Where the newest bodies start that fit the budget of a page being left. */
  function LeaveFrom(cfg: Config, bodies: seq<Body>, from: nat): (k: nat)
    requires from <= |bodies|
    ensures k <= from
  {
    if from > 0 && TotalSize(cfg, bodies[from-1..]) <= MAX_LEAVE_BYTES then LeaveFrom(cfg, bodies, from - 1) else from
  }

  function Items(bodies: seq<Body>): seq<Item> {
    if bodies == [] then [] else bodies[0] + Items(bodies[1..])
  }

  function Drop(s: State, gone: multiset<Item>, queue: seq<Item>): State {
    s.(queue := queue, log := s.log.(dropped := s.log.dropped + gone))
  }

  /** Everything that is left goes out, the oldest bodies only when the page stays. */
  function Send(cfg: Config, s: State, leaving: bool): State {
    var bodies := Split(cfg, s.queue);
    var from := if leaving then LeaveFrom(cfg, bodies, |bodies|) else 0;
    s.(queue := [], log := s.log.(sent := s.log.sent + bodies[from..], dropped := s.log.dropped + multiset(Items(bodies[..from]))))
  }

  /** Only events of the current identity survive a flush. */
  function Purge(cfg: Config, s: State, env: Env): State {
    if !cfg.hasIdentity then s
    else
      var mine := Mine(s.queue, env.identity);
      Drop(s, multiset(s.queue) - multiset(mine), mine)
  }

  function Flush(cfg: Config, s: State, env: Env, leaving: bool): State {
    if s.queue == [] then s
    else if !IsOn(s, env) then Drop(s, multiset(s.queue), [])
    else
      var p := Purge(cfg, s, env);
      if p.queue == [] || (cfg.hasHeaders && !env.signedIn) then p else Send(cfg, p, leaving)
  }

  // ---- the handlers ----

  datatype Call =
    | View(name: string, extra: Props, newPv: string)
    | Activity
    | Visibility
    | PageHide
    | Click(mark: Option<string>, target: nat, tag: string)
    | Scroll(percent: Option<real>)
    | Timer
    | Settle
    | Track(event: string, props: Props)
    | FlushNow
    | Destroy

  function Leave(cfg: Config, s: State, env: Env, from: nat): State {
    Flush(cfg, EmitEngaged(cfg, s, env, from), env, true)
  }

  function LastTickNow(env: Env): Option<nat> { if env.hidden then None else Some(env.now) }

  function OnView(cfg: Config, s: State, env: Env, from: nat, name: string, extra: Props, newPv: string): State {
    var a := EmitEngaged(cfg, s, env, from);
    var b := a.(pv := newPv, screen := cfg.route(name), depthSent := {}, rage := Rage(None, []),
                lastActive := env.now, lastTick := LastTickNow(env));
    Push(cfg, b, env, if cfg.site then "page_view" else "screen_view", extra[Place(cfg) := Str(b.screen)])
  }

  function OnActivity(s: State, env: Env): State {
    var a := Tick(s, env).(lastActive := env.now);
    if a.lastTick == None && !env.hidden then a.(lastTick := Some(env.now)) else a
  }

  function OnVisibility(cfg: Config, s: State, env: Env, from: nat): State {
    if env.hidden then Leave(cfg, s, env, from) else s.(lastActive := env.now, lastTick := Some(env.now))
  }

  function Recent(at: seq<nat>, t: nat): seq<nat> {
    if at == [] then [] else Recent(at[..|at|-1], t) + (if t - at[|at|-1] < RAGE_MS then [at[|at|-1]] else [])
  }

  function RageAfter(r: Rage, target: nat, t: nat): Rage {
    Rage(Some(target), Recent(if r.el == Some(target) then r.at else [], t) + [t])
  }

  function ClickProps(cfg: Config, name: string, screen: string): Props {
    map["name" := Str(name), Place(cfg) := Str(screen)]
  }

  function OnClick(cfg: Config, s: State, env: Env, name: Option<string>, target: nat, tag: string): State {
    var a := if name == None then s else Push(cfg, s, env, "click", ClickProps(cfg, name.value, s.screen));
    if cfg.site then a
    else
      var r := RageAfter(a.rage, target, env.now);
      if |r.at| < RAGE_CLICKS then a.(rage := r)
      else
        var shown := if name == None then tag else name.value;
        Push(cfg, a, env, "rage_click", map["screen" := Str(a.screen), "name" := Str(shown)]).(rage := Rage(None, []))
  }

  function DepthAt(k: nat): int
    requires k < 4
  { 25 * (k + 1) }

  /** Each depth is reported once a screen; the bottom counts from 99 percent. */
  function Depths(cfg: Config, s: State, env: Env, percent: real, k: nat): State
    requires k <= 4
  {
    if k == 0 then s
    else
      var a := Depths(cfg, s, env, percent, k - 1);
      var d := DepthAt(k - 1);
      if percent >= (if d == 100 then 99 else d) as real && d !in a.depthSent
      then Push(cfg, a.(depthSent := a.depthSent + {d}), env, "scroll", map["path" := Str(a.screen), "depth" := Num(d)])
      else a
  }

  function OnScroll(cfg: Config, s: State, env: Env, percent: Option<real>): State {
    if percent == None then s else Depths(cfg, s, env, percent.value, 4)
  }

  function OnTimer(cfg: Config, s: State, env: Env): State {
    Flush(cfg, Tick(s, env), env, false)
  }

  function OnDestroy(cfg: Config, s: State, env: Env, from: nat): State {
    var a := Leave(cfg, s, env, from);
    Drop(a.(dead := true), multiset(a.queue), [])
  }

  function Step(cfg: Config, s: State, call: Call, env: Env, start: nat): State {
    var from := Since(s, start);
    match call
    case View(name, extra, newPv) => OnView(cfg, s, env, from, name, extra, newPv)
    case Activity => OnActivity(s, env)
    case Visibility => OnVisibility(cfg, s, env, from)
    case PageHide => Leave(cfg, s, env, from)
    case Click(name, target, tag) => OnClick(cfg, s, env, name, target, tag)
    case Scroll(percent) => OnScroll(cfg, s, env, percent)
    case Timer => OnTimer(cfg, s, env)
    case Settle => EmitEngaged(cfg, s, env, from)
    case Track(event, props) => Push(cfg, s, env, event, props)
    case FlushNow => Flush(cfg, s, env, false)
    case Destroy => OnDestroy(cfg, s, env, from)
  }
}
