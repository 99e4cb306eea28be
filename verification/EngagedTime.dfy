// What the engaged time is (packages/arena-track/src/index.ts:190-215, 283-313): over any run, wherever ticks fall,
// it is the number of milliseconds at which the page was visible and the last input was less than 30 s old.

module EngagedTime {
  import opened Base
  import opened TrackerModel

  /** One handler run: what was called, and what the browser answered. */
  datatype Happening = Happening(call: Call, env: Env)
  type History = seq<Happening>

  function Run(cfg: Config, env0: Env, pv0: string, h: History): State {
    if h == [] then Start(env0, pv0)
    else
      var e := h[|h|-1];
      Step(cfg, Run(cfg, env0, pv0, h[..|h|-1]), e.call, e.env, env0.now)
  }

  function Last(env0: Env, h: History): Env {
    if h == [] then env0 else h[|h|-1].env
  }

  /** `e` may happen after `last`: the clock does not run back, and the page hides or shows only in its own event. */
  predicate Follows(last: Env, e: Happening) {
    last.now <= e.env.now && (e.env.hidden != last.hidden <==> e.call.Visibility?)
  }

  /** A possible run: nothing follows the destruction of the tracker, which removes its listeners. */
  predicate Possible(env0: Env, h: History) {
    h != [] ==>
      var front, e := h[..|h|-1], h[|h|-1];
      Possible(env0, front) && Follows(Last(env0, front), e) && (front != [] ==> !front[|front|-1].call.Destroy?)
  }

  // ---- the instants, read off the run ----

  predicate Visible(env0: Env, h: History, u: nat) {
    if h == [] then !env0.hidden
    else if h[|h|-1].env.now <= u then !h[|h|-1].env.hidden
    else Visible(env0, h[..|h|-1], u)
  }

  /** What counts as input: the listened events, a new view, and the return to the page. */
  predicate IsInput(e: Happening) {
    e.call.Activity? || e.call.View? || (e.call.Visibility? && !e.env.hidden)
  }

  predicate JustBefore(t: nat, u: nat) { t <= u < t + ACTIVE_MS }

  predicate Active(env0: Env, h: History, u: nat) {
    if h == [] then JustBefore(env0.now, u)
    else (IsInput(h[|h|-1]) && JustBefore(h[|h|-1].env.now, u)) || Active(env0, h[..|h|-1], u)
  }

  predicate Engaged(env0: Env, h: History, u: nat) { Visible(env0, h, u) && Active(env0, h, u) }

  /** The page view and the screen at an instant. */
  function PageAt(cfg: Config, pv0: string, h: History, u: nat): (string, string) {
    if h == [] then (pv0, "")
    else
      var e := h[|h|-1];
      if e.env.now <= u && e.call.View? then (e.call.newPv, cfg.route(e.call.name)) else PageAt(cfg, pv0, h[..|h|-1], u)
  }

  /** How many instants of `[a, b)` are engaged. */
  function Measure(env0: Env, h: History, a: nat, b: nat): nat {
    if b <= a then 0 else Measure(env0, h, a, b - 1) + (if Engaged(env0, h, b - 1) then 1 else 0)
  }

  // ---- later events change nothing before them ----

  lemma {:induction false} MeasureSplit(env0: Env, h: History, a: nat, b: nat, c: nat)
    requires a <= b <= c
    ensures Measure(env0, h, a, c) == Measure(env0, h, a, b) + Measure(env0, h, b, c)
  {
    hide Engaged;
    if b < c { MeasureSplit(env0, h, a, b, c - 1); }
  }

  lemma {:induction false} Snoc(h: History, e: Happening)
    ensures (h + [e])[..|h + [e]| - 1] == h && (h + [e])[|h + [e]| - 1] == e
  {}

  lemma {:induction false} EngagedBefore(env0: Env, h: History, e: Happening, u: nat)
    requires u < e.env.now
    ensures Engaged(env0, h + [e], u) == Engaged(env0, h, u)
  {
    Snoc(h, e);
  }

  lemma {:induction false} PageBefore(cfg: Config, pv0: string, h: History, e: Happening, u: nat)
    requires u < e.env.now || !e.call.View?
    ensures PageAt(cfg, pv0, h + [e], u) == PageAt(cfg, pv0, h, u)
  {
    Snoc(h, e);
  }

  lemma {:induction false} MeasureBefore(env0: Env, h: History, e: Happening, a: nat, b: nat)
    requires b <= e.env.now
    ensures Measure(env0, h + [e], a, b) == Measure(env0, h, a, b)
    decreases b
  {
    hide Engaged;
    if a < b {
      MeasureBefore(env0, h, e, a, b - 1);
      EngagedBefore(env0, h, e, b - 1);
    }
  }

  // ---- the invariant of the clock ----

  /** Where counting goes on from. */
  function Front(s: State, now: nat): nat {
    match s.lastTick case None => now case Some(t) => t
  }

  ghost predicate VisibleFrom(env0: Env, h: History, base: nat, shown: bool) {
    forall u: nat :: base <= u ==> Visible(env0, h, u) == shown
  }

  ghost predicate ActiveFrom(env0: Env, h: History, base: nat, last: nat) {
    forall u: nat :: base <= u ==> (Active(env0, h, u) <==> u < last + ACTIVE_MS)
  }

  ghost predicate PageFrom(cfg: Config, pv0: string, h: History, since: nat, page: (string, string)) {
    forall u: nat :: since <= u ==> PageAt(cfg, pv0, h, u) == page
  }

  ghost predicate PageDuring(cfg: Config, pv0: string, h: History, from: nat, to: nat, page: (string, string)) {
    forall u: nat :: from <= u < to ==> PageAt(cfg, pv0, h, u) == page
  }

  /** A settlement holds what was earned since the one before it, on its own page. */
  ghost predicate Earned(cfg: Config, env0: Env, pv0: string, h: History, st: Settlement) {
    && st.from <= st.to && st.ms == Measure(env0, h, st.from, st.to)
    && PageDuring(cfg, pv0, h, st.from, st.to, (st.pv, st.screen))
  }

  /** The settlements follow each other without a gap from the start. */
  ghost predicate AllEarned(cfg: Config, env0: Env, pv0: string, h: History, l: seq<Settlement>) {
    l != [] ==>
      && AllEarned(cfg, env0, pv0, h, l[..|l|-1])
      && Earned(cfg, env0, pv0, h, l[|l|-1])
      && l[|l|-1].from == LastEnd(l[..|l|-1], env0.now)
  }

  function LastEnd(l: seq<Settlement>, start: nat): nat {
    if l == [] then start else l[|l|-1].to
  }

  ghost predicate ClockOk(cfg: Config, env0: Env, pv0: string, h: History, s: State) {
    var now, since := Last(env0, h).now, Since(s, env0.now);
    var base := Front(s, now);
    && env0.now <= since <= base <= now && s.lastActive <= base
    && s.lastTick.Some? == !Last(env0, h).hidden
    && VisibleFrom(env0, h, base, s.lastTick.Some?)
    && ActiveFrom(env0, h, base, s.lastActive)
    && PageFrom(cfg, pv0, h, since, (s.pv, s.screen))
    && s.engagedMs == Measure(env0, h, since, base)
    && AllEarned(cfg, env0, pv0, h, s.log.settled)
  }

  /** Between the last tick and now, exactly the instants before the 30 s are over count. */
  lemma {:induction false} MeasureGain(env0: Env, h: History, base: nat, t: nat, last: nat)
    requires base <= t && last <= base
    requires VisibleFrom(env0, h, base, true) && ActiveFrom(env0, h, base, last)
    ensures Measure(env0, h, base, t) == Positive((if t < last + ACTIVE_MS then t else last + ACTIVE_MS) - base)
  {
    if base < t {
      MeasureGain(env0, h, base, t - 1, last);
      assert Visible(env0, h, t - 1);
      assert Active(env0, h, t - 1) <==> t - 1 < last + ACTIVE_MS;
      hide Visible, Active;
    }
  }

  function Positive(x: int): nat { if x > 0 then x else 0 }

  lemma {:induction false} MeasureHidden(env0: Env, h: History, base: nat, t: nat)
    requires VisibleFrom(env0, h, base, false)
    ensures Measure(env0, h, base, t) == 0
    decreases t
  {
    if base < t {
      MeasureHidden(env0, h, base, t - 1);
      assert !Visible(env0, h, t - 1);
      hide Visible, Active;
    }
  }

  /** What a tick adds is what was earned since the last one. */
  lemma {:induction false} TickCounts(cfg: Config, env0: Env, pv0: string, h: History, s: State, t: nat)
    requires ClockOk(cfg, env0, pv0, h, s) && Last(env0, h).now <= t
    ensures s.engagedMs + Gain(s, t) == Measure(env0, h, Since(s, env0.now), t)
  {
    hide AllEarned, VisibleFrom, ActiveFrom, PageFrom, Measure;
    var base := Front(s, Last(env0, h).now);
    MeasureSplit(env0, h, Since(s, env0.now), base, t);
    if s.lastTick.Some? {
      MeasureGain(env0, h, base, t, s.lastActive);
    } else {
      MeasureHidden(env0, h, base, t);
    }
  }

  // ---- what an event changes ----

  lemma {:induction false} VisibleAfter(env0: Env, h: History, e: Happening)
    ensures VisibleFrom(env0, h + [e], e.env.now, !e.env.hidden)
  {
    Snoc(h, e);
  }

  lemma {:induction false} VisibleStill(env0: Env, h: History, e: Happening, base: nat)
    requires VisibleFrom(env0, h, base, !e.env.hidden)
    ensures VisibleFrom(env0, h + [e], base, !e.env.hidden)
  {
    Snoc(h, e);
  }

  lemma {:induction false} ActiveAfter(env0: Env, h: History, e: Happening, base: nat, last: nat)
    requires ActiveFrom(env0, h, base, last) && last <= base <= e.env.now
    ensures IsInput(e) ==> ActiveFrom(env0, h + [e], e.env.now, e.env.now)
    ensures !IsInput(e) ==> ActiveFrom(env0, h + [e], base, last)
  {
    Snoc(h, e);
  }

  lemma {:induction false} ActiveLater(env0: Env, h: History, base: nat, more: nat, last: nat)
    requires ActiveFrom(env0, h, base, last) && base <= more
    ensures ActiveFrom(env0, h, more, last)
  {}

  lemma {:induction false} PageAfter(cfg: Config, pv0: string, h: History, e: Happening, since: nat, page: (string, string))
    requires PageFrom(cfg, pv0, h, since, page) && since <= e.env.now
    ensures e.call.View? ==> PageFrom(cfg, pv0, h + [e], e.env.now, (e.call.newPv, cfg.route(e.call.name)))
    ensures !e.call.View? ==> PageFrom(cfg, pv0, h + [e], since, page)
    ensures PageDuring(cfg, pv0, h + [e], since, e.env.now, page)
  {
    Snoc(h, e);
  }

  lemma {:induction false} PageLater(cfg: Config, pv0: string, h: History, since: nat, more: nat, page: (string, string))
    requires PageFrom(cfg, pv0, h, since, page) && since <= more
    ensures PageFrom(cfg, pv0, h, more, page)
  {}

  lemma {:induction false} EarnedStill(cfg: Config, env0: Env, pv0: string, h: History, e: Happening, st: Settlement)
    requires Earned(cfg, env0, pv0, h, st) && st.to <= e.env.now
    ensures Earned(cfg, env0, pv0, h + [e], st)
  {
    hide PageAt, Measure;
    MeasureBefore(env0, h, e, st.from, st.to);
    forall u: nat | st.from <= u < st.to ensures PageAt(cfg, pv0, h + [e], u) == (st.pv, st.screen) {
      PageBefore(cfg, pv0, h, e, u);
    }
  }

  lemma {:induction false} AllStill(cfg: Config, env0: Env, pv0: string, h: History, e: Happening, l: seq<Settlement>)
    requires AllEarned(cfg, env0, pv0, h, l) && LastEnd(l, env0.now) <= e.env.now
    ensures AllEarned(cfg, env0, pv0, h + [e], l)
    decreases |l|
  {
    hide Measure, PageDuring;
    if l != [] {
      AllStill(cfg, env0, pv0, h, e, l[..|l|-1]);
      EarnedStill(cfg, env0, pv0, h, e, l[|l|-1]);
    }
  }

  lemma {:induction false} AllMore(cfg: Config, env0: Env, pv0: string, h: History, l: seq<Settlement>, st: Settlement)
    requires AllEarned(cfg, env0, pv0, h, l) && Earned(cfg, env0, pv0, h, st) && st.from == LastEnd(l, env0.now)
    ensures AllEarned(cfg, env0, pv0, h, l + [st])
  {
    assert (l + [st])[..|l|] == l;
  }

  // ---- the three ways a handler treats the clock ----

  predicate SamePage(a: State, b: State) { a.pv == b.pv && a.screen == b.screen }

  predicate SameClock(a: State, b: State) {
    && a.engagedMs == b.engagedMs && a.lastTick == b.lastTick && a.lastActive == b.lastActive
    && a.log.settled == b.log.settled && SamePage(a, b)
  }

  function ActiveTime(s: State, e: Happening): nat {
    if IsInput(e) then e.env.now else s.lastActive
  }

  /** Only the clock goes on. */
  lemma {:induction false} Idle(cfg: Config, env0: Env, pv0: string, h: History, s: State, e: Happening, s': State)
    requires ClockOk(cfg, env0, pv0, h, s) && Follows(Last(env0, h), e)
    requires !IsInput(e) && !e.call.Visibility? && SameClock(s, s')
    ensures ClockOk(cfg, env0, pv0, h + [e], s')
  {
    hide AllEarned, VisibleFrom, ActiveFrom, PageFrom, Measure;
    Snoc(h, e);
    var now, since := Last(env0, h).now, Since(s, env0.now);
    var base, base' := Front(s, now), Front(s', e.env.now);
    VisibleStill(env0, h, e, base);
    ActiveAfter(env0, h, e, base, s.lastActive);
    ActiveLater(env0, h + [e], base, base', s.lastActive);
    VisibleLater(env0, h + [e], base, base', !e.env.hidden);
    PageAfter(cfg, pv0, h, e, since, (s.pv, s.screen));
    AllStill(cfg, env0, pv0, h, e, s.log.settled);
    MeasureBefore(env0, h, e, since, base');
    if s.lastTick == None {
      MeasureSplit(env0, h, since, base, base');
      MeasureHidden(env0, h, base, base');
    }
  }

  lemma {:induction false} VisibleLater(env0: Env, h: History, base: nat, more: nat, shown: bool)
    requires VisibleFrom(env0, h, base, shown) && base <= more
    ensures VisibleFrom(env0, h, more, shown)
  {}

  /** A tick, or an input, or the return to the page. */
  lemma {:induction false} Ticking(cfg: Config, env0: Env, pv0: string, h: History, s: State, e: Happening, s': State)
    requires ClockOk(cfg, env0, pv0, h, s) && Follows(Last(env0, h), e) && !e.call.View?
    requires s'.engagedMs == s.engagedMs + Gain(s, e.env.now) && s'.lastTick == LastTickNow(e.env)
    requires s'.lastActive == ActiveTime(s, e) && s'.log.settled == s.log.settled && SamePage(s, s')
    ensures ClockOk(cfg, env0, pv0, h + [e], s')
  {
    hide AllEarned, VisibleFrom, ActiveFrom, PageFrom, Measure, Gain;
    Snoc(h, e);
    var now, since, t := Last(env0, h).now, Since(s, env0.now), e.env.now;
    var base := Front(s, now);
    TickCounts(cfg, env0, pv0, h, s, t);
    VisibleAfter(env0, h, e);
    ActiveAfter(env0, h, e, base, s.lastActive);
    if !IsInput(e) { ActiveLater(env0, h + [e], base, t, s.lastActive); }
    PageAfter(cfg, pv0, h, e, since, (s.pv, s.screen));
    AllStill(cfg, env0, pv0, h, e, s.log.settled);
    MeasureBefore(env0, h, e, since, t);
  }

  /** A settlement; a view starts the next page. */
  lemma {:induction false} Settling(cfg: Config, env0: Env, pv0: string, h: History, s: State, e: Happening, s': State, st: Settlement)
    requires ClockOk(cfg, env0, pv0, h, s) && Follows(Last(env0, h), e)
    requires s'.engagedMs == 0 && s'.lastTick == LastTickNow(e.env) && s'.lastActive == ActiveTime(s, e)
    requires s'.log.settled == s.log.settled + [st]
    requires st.pv == s.pv && st.screen == s.screen && st.from == Since(s, env0.now) && st.to == e.env.now
    requires st.ms == s.engagedMs + Gain(s, e.env.now)
    requires if e.call.View? then s'.pv == e.call.newPv && s'.screen == cfg.route(e.call.name) else SamePage(s, s')
    ensures ClockOk(cfg, env0, pv0, h + [e], s')
  {
    hide AllEarned, VisibleFrom, ActiveFrom, PageFrom, Measure, Gain;
    Snoc(h, e);
    var now, since, t := Last(env0, h).now, Since(s, env0.now), e.env.now;
    var base := Front(s, now);
    TickCounts(cfg, env0, pv0, h, s, t);
    VisibleAfter(env0, h, e);
    ActiveAfter(env0, h, e, base, s.lastActive);
    if !IsInput(e) { ActiveLater(env0, h + [e], base, t, s.lastActive); }
    PageAfter(cfg, pv0, h, e, since, (s.pv, s.screen));
    if !e.call.View? { PageLater(cfg, pv0, h + [e], since, t, (s.pv, s.screen)); }
    AllStill(cfg, env0, pv0, h, e, s.log.settled);
    MeasureBefore(env0, h, e, since, t);
    AllMore(cfg, env0, pv0, h + [e], s.log.settled, st);
    NoMeasure(env0, h + [e], t);
  }

  lemma {:induction false} NoMeasure(env0: Env, h: History, t: nat)
    ensures Measure(env0, h, t, t) == 0
  {}

  lemma {:induction false} AtStart(cfg: Config, env0: Env, pv0: string)
    ensures ClockOk(cfg, env0, pv0, [], Start(env0, pv0))
  {}

  // ---- the handlers ----

  lemma {:induction false} PushClock(cfg: Config, s: State, env: Env, name: string, props: Props)
    ensures SameClock(s, Push(cfg, s, env, name, props)) && Push(cfg, s, env, name, props).dead == s.dead
    ensures Push(cfg, s, env, name, props).log.sent == s.log.sent
  {
    hide Dict, NewItem;
  }

  lemma {:induction false} FlushClock(cfg: Config, s: State, env: Env, leaving: bool)
    ensures SameClock(s, Flush(cfg, s, env, leaving))
  {
    hide Split, Mine, LeaveFrom, Items;
  }

  /** What a settlement does to the clock. */
  lemma {:induction false} EmitClock(cfg: Config, s: State, env: Env, from: nat)
    ensures var a := EmitEngaged(cfg, s, env, from); var l := a.log.settled;
            && a.engagedMs == 0 && a.lastTick == LastTickNow(env) && a.lastActive == s.lastActive && SamePage(s, a)
            && l != [] && l[..|l|-1] == s.log.settled
            && l[|l|-1].pv == s.pv && l[|l|-1].screen == s.screen && l[|l|-1].from == from && l[|l|-1].to == env.now
            && l[|l|-1].ms == s.engagedMs + Gain(s, env.now)
  {
    hide Dict, NewItem, Gain, Push;
    var b := Tick(s, env).(engagedMs := 0);
    PushClock(cfg, b, env, "engaged", EngagedProps(cfg, s.screen, Rounded(Tick(s, env).engagedMs)));
  }

  lemma {:induction false} ClickClock(cfg: Config, s: State, env: Env, mark: Option<string>, target: nat, tag: string)
    ensures SameClock(s, OnClick(cfg, s, env, mark, target, tag))
  {
    hide Push, RageAfter;
    var a := if mark == None then s else Push(cfg, s, env, "click", ClickProps(cfg, mark.value, s.screen));
    if mark.Some? { PushClock(cfg, s, env, "click", ClickProps(cfg, mark.value, s.screen)); }
    var shown := if mark == None then tag else mark.value;
    PushClock(cfg, a, env, "rage_click", map["screen" := Str(a.screen), "name" := Str(shown)]);
  }

  lemma {:induction false} DepthsClock(cfg: Config, s: State, env: Env, percent: real, k: nat)
    requires k <= 4
    ensures SameClock(s, Depths(cfg, s, env, percent, k))
  {
    hide Push;
    if k > 0 {
      DepthsClock(cfg, s, env, percent, k - 1);
      var a, d := Depths(cfg, s, env, percent, k - 1), DepthAt(k - 1);
      PushClock(cfg, a.(depthSent := a.depthSent + {d}), env, "scroll", map["path" := Str(a.screen), "depth" := Num(d)]);
    }
  }

  lemma {:induction false} LastOf(l: seq<Settlement>)
    requires l != []
    ensures l == l[..|l|-1] + [l[|l|-1]]
  {}

  lemma {:induction false} LeaveStep(cfg: Config, env0: Env, pv0: string, h: History, s: State, e: Happening, s': State)
    requires ClockOk(cfg, env0, pv0, h, s) && Follows(Last(env0, h), e) && !IsInput(e)
    requires SameClock(EmitEngaged(cfg, s, e.env, Since(s, env0.now)), s')
    ensures ClockOk(cfg, env0, pv0, h + [e], s')
  {
    hide ClockOk, EmitEngaged, Gain;
    EmitClock(cfg, s, e.env, Since(s, env0.now));
    LastOf(s'.log.settled);
    Settling(cfg, env0, pv0, h, s, e, s', s'.log.settled[|s'.log.settled|-1]);
  }

  lemma {:induction false} ViewStep(cfg: Config, env0: Env, pv0: string, h: History, s: State, e: Happening)
    requires ClockOk(cfg, env0, pv0, h, s) && Follows(Last(env0, h), e) && e.call.View?
    ensures ClockOk(cfg, env0, pv0, h + [e], OnView(cfg, s, e.env, Since(s, env0.now), e.call.name, e.call.extra, e.call.newPv))
  {
    hide ClockOk, EmitEngaged, Gain, Push;
    var from := Since(s, env0.now);
    EmitClock(cfg, s, e.env, from);
    var a := EmitEngaged(cfg, s, e.env, from);
    var b := a.(pv := e.call.newPv, screen := cfg.route(e.call.name), depthSent := {}, rage := Rage(None, []),
                lastActive := e.env.now, lastTick := LastTickNow(e.env));
    PushClock(cfg, b, e.env, if cfg.site then "page_view" else "screen_view", e.call.extra[Place(cfg) := Str(b.screen)]);
    var s' := OnView(cfg, s, e.env, from, e.call.name, e.call.extra, e.call.newPv);
    LastOf(s'.log.settled);
    Settling(cfg, env0, pv0, h, s, e, s', s'.log.settled[|s'.log.settled|-1]);
  }

  lemma {:induction false} HiddenGains(cfg: Config, env0: Env, pv0: string, h: History, s: State, t: nat)
    requires ClockOk(cfg, env0, pv0, h, s) && Last(env0, h).hidden
    ensures Gain(s, t) == 0
  {}

  lemma {:induction false} VisibilityStep(cfg: Config, env0: Env, pv0: string, h: History, s: State, e: Happening)
    requires ClockOk(cfg, env0, pv0, h, s) && Follows(Last(env0, h), e) && e.call.Visibility?
    ensures ClockOk(cfg, env0, pv0, h + [e], OnVisibility(cfg, s, e.env, Since(s, env0.now)))
  {
    hide ClockOk, EmitEngaged, Gain, Flush;
    var s' := OnVisibility(cfg, s, e.env, Since(s, env0.now));
    if e.env.hidden {
      FlushClock(cfg, EmitEngaged(cfg, s, e.env, Since(s, env0.now)), e.env, true);
      LeaveStep(cfg, env0, pv0, h, s, e, s');
    } else {
      HiddenGains(cfg, env0, pv0, h, s, e.env.now);
      Ticking(cfg, env0, pv0, h, s, e, s');
    }
  }

  /** An input ticks and is noted; the source's last statement, which starts the tick of a visible page, finds it started. */
  lemma {:induction false} InputOnlyTicks(s: State, env: Env)
    ensures OnActivity(s, env) == Tick(s, env).(lastActive := env.now)
  {
    hide Gain;
  }

  lemma {:induction false} ActivityStep(cfg: Config, env0: Env, pv0: string, h: History, s: State, e: Happening)
    requires ClockOk(cfg, env0, pv0, h, s) && Follows(Last(env0, h), e) && e.call.Activity?
    ensures ClockOk(cfg, env0, pv0, h + [e], OnActivity(s, e.env))
  {
    hide ClockOk, Gain;
    Ticking(cfg, env0, pv0, h, s, e, OnActivity(s, e.env));
  }

  lemma {:induction false} TimerStep(cfg: Config, env0: Env, pv0: string, h: History, s: State, e: Happening)
    requires ClockOk(cfg, env0, pv0, h, s) && Follows(Last(env0, h), e) && e.call.Timer?
    ensures ClockOk(cfg, env0, pv0, h + [e], OnTimer(cfg, s, e.env))
  {
    hide ClockOk, Gain, Flush;
    FlushClock(cfg, Tick(s, e.env), e.env, false);
    Ticking(cfg, env0, pv0, h, s, e, OnTimer(cfg, s, e.env));
  }

  lemma {:induction false} ClockStep(cfg: Config, env0: Env, pv0: string, h: History, s: State, e: Happening)
    requires ClockOk(cfg, env0, pv0, h, s) && Follows(Last(env0, h), e)
    ensures ClockOk(cfg, env0, pv0, h + [e], Step(cfg, s, e.call, e.env, env0.now))
  {
    hide ClockOk, Gain, Flush, Push, EmitEngaged, OnClick, Depths, OnView, OnVisibility, OnActivity, OnTimer;
    var from, s' := Since(s, env0.now), Step(cfg, s, e.call, e.env, env0.now);
    match e.call
    case View(_, _, _) => ViewStep(cfg, env0, pv0, h, s, e);
    case Activity => ActivityStep(cfg, env0, pv0, h, s, e);
    case Visibility => VisibilityStep(cfg, env0, pv0, h, s, e);
    case PageHide =>
      FlushClock(cfg, EmitEngaged(cfg, s, e.env, from), e.env, true);
      LeaveStep(cfg, env0, pv0, h, s, e, s');
    case Click(mark, target, tag) =>
      ClickClock(cfg, s, e.env, mark, target, tag);
      Idle(cfg, env0, pv0, h, s, e, s');
    case Scroll(percent) =>
      if percent.Some? { DepthsClock(cfg, s, e.env, percent.value, 4); }
      Idle(cfg, env0, pv0, h, s, e, s');
    case Timer => TimerStep(cfg, env0, pv0, h, s, e);
    case Settle => LeaveStep(cfg, env0, pv0, h, s, e, s');
    case Track(event, props) =>
      PushClock(cfg, s, e.env, event, props);
      Idle(cfg, env0, pv0, h, s, e, s');
    case FlushNow =>
      FlushClock(cfg, s, e.env, false);
      Idle(cfg, env0, pv0, h, s, e, s');
    case Destroy =>
      FlushClock(cfg, EmitEngaged(cfg, s, e.env, from), e.env, true);
      LeaveStep(cfg, env0, pv0, h, s, e, s');
  }

  // ---- whole runs ----

  /** Over every possible run the tracker's clock fields mean what the instants of the run say. */
  lemma {:induction false} ClockRuns(cfg: Config, env0: Env, pv0: string, h: History)
    requires Possible(env0, h)
    ensures ClockOk(cfg, env0, pv0, h, Run(cfg, env0, pv0, h))
  {
    hide ClockOk, Step;
    if h == [] {
      AtStart(cfg, env0, pv0);
    } else {
      var front, e := h[..|h|-1], h[|h|-1];
      ClockRuns(cfg, env0, pv0, front);
      ClockStep(cfg, env0, pv0, front, Run(cfg, env0, pv0, front), e);
      assert front + [e] == h;
    }
  }

  function SettledMs(l: seq<Settlement>): nat {
    if l == [] then 0 else SettledMs(l[..|l|-1]) + l[|l|-1].ms
  }

  lemma {:induction false} SettledIsMeasure(cfg: Config, env0: Env, pv0: string, h: History, l: seq<Settlement>)
    requires AllEarned(cfg, env0, pv0, h, l)
    ensures env0.now <= LastEnd(l, env0.now) && SettledMs(l) == Measure(env0, h, env0.now, LastEnd(l, env0.now))
    decreases |l|
  {
    hide PageDuring, Engaged;
    if l != [] {
      var front, st := l[..|l|-1], l[|l|-1];
      SettledIsMeasure(cfg, env0, pv0, h, front);
      MeasureSplit(env0, h, env0.now, st.from, st.to);
    }
  }

  /** All that was ever settled, what is pending, and what a tick now would add: together, every engaged instant until now. */
  lemma {:induction false} EngagedTimeIsExact(cfg: Config, env0: Env, pv0: string, h: History)
    requires Possible(env0, h)
    ensures var s, now := Run(cfg, env0, pv0, h), Last(env0, h).now;
            SettledMs(s.log.settled) + s.engagedMs + Gain(s, now) == Measure(env0, h, env0.now, now)
  {
    hide Run, Measure, AllEarned, VisibleFrom, ActiveFrom, PageFrom, Gain;
    ClockRuns(cfg, env0, pv0, h);
    var s, now := Run(cfg, env0, pv0, h), Last(env0, h).now;
    SettledIsMeasure(cfg, env0, pv0, h, s.log.settled);
    TickCounts(cfg, env0, pv0, h, s, now);
    MeasureSplit(env0, h, env0.now, Since(s, env0.now), now);
  }

  lemma {:induction false} EarnedAt(cfg: Config, env0: Env, pv0: string, h: History, l: seq<Settlement>, i: nat)
    requires AllEarned(cfg, env0, pv0, h, l) && i < |l|
    ensures Earned(cfg, env0, pv0, h, l[i]) && l[i].from == LastEnd(l[..i], env0.now)
    decreases |l|
  {
    hide Earned;
    if i < |l| - 1 {
      EarnedAt(cfg, env0, pv0, h, l[..|l|-1], i);
      assert l[..|l|-1][..i] == l[..i];
    }
  }

  /** Each settlement begins where the one before it ended, holds the engaged instants between, and they all fell on its page. */
  lemma {:induction false} SettlementsAreEarned(cfg: Config, env0: Env, pv0: string, h: History, i: nat)
    requires Possible(env0, h) && i < |Run(cfg, env0, pv0, h).log.settled|
    ensures var l := Run(cfg, env0, pv0, h).log.settled;
            && Earned(cfg, env0, pv0, h, l[i]) && l[i].from == LastEnd(l[..i], env0.now)
  {
    hide Run, Measure, Earned, AllEarned, VisibleFrom, ActiveFrom, PageFrom;
    ClockRuns(cfg, env0, pv0, h);
    EarnedAt(cfg, env0, pv0, h, Run(cfg, env0, pv0, h).log.settled, i);
  }
}
