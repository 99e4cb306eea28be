// What the tracker keeps, sends and forgets (packages/arena-track/src/index.ts:196-208, 237-276): bodies are split greedily,
// a page being left sends the longest run of newest bodies that fits, and over any run each recorded event is in the
// queue, dropped or sent, once.

module TrackerQueue {
  import opened Base
  import opened TrackerModel
  import opened EngagedTime

  // ---- bodies ----

  /** A body the collector accepts: one page view and context, at most 50 events, at most 15,000 bytes unless it is a single event. */
  predicate Accepted(cfg: Config, b: Body) {
    && (forall i :: 0 <= i < |b| ==> b[i].pv == b[0].pv && b[i].ctx == b[0].ctx)
    && |b| <= MAX_BATCH && (|b| <= 1 || BodySize(cfg, b) <= MAX_BODY)
  }

  /** The items in order, in nonempty accepted bodies, none of which could have taken the next item. */
  predicate IsSplit(cfg: Config, bodies: seq<Body>, items: seq<Item>) {
    && Items(bodies) == items
    && (forall i :: 0 <= i < |bodies| ==> bodies[i] != [] && Accepted(cfg, bodies[i]))
    && forall i :: 0 < i < |bodies| && bodies[i] != [] ==> !Accepted(cfg, bodies[i-1] + [bodies[i][0]])
  }

  lemma {:induction false} SizeGrows(cfg: Config, b: Body, n: nat)
    requires n <= |b|
    ensures BodySize(cfg, b[..n]) <= BodySize(cfg, b)
    decreases |b|
  {
    if n < |b| {
      SizeGrows(cfg, b[..|b|-1], n);
      assert b[..|b|-1][..n] == b[..n];
      if |b| == 1 { assert b[..n] == []; }
    } else {
      assert b[..n] == b;
    }
  }

  lemma {:induction false} AcceptedFront(cfg: Config, b: Body, n: nat)
    requires Accepted(cfg, b) && n <= |b|
    ensures Accepted(cfg, b[..n])
  {
    hide BodySize;
    SizeGrows(cfg, b, n);
  }

  /** The body the source builds is the longest accepted one. */
  lemma {:induction false} BodyEndAccepted(cfg: Config, items: seq<Item>, n: nat)
    requires 0 < n <= |items| && Accepted(cfg, items[..n])
    ensures var m := BodyEnd(cfg, items, n); Accepted(cfg, items[..m]) && (m < |items| ==> !Accepted(cfg, items[..m+1]))
    decreases |items| - n
  {
    hide BodySize;
    if n < |items| {
      JoinsMeans(cfg, items, n);
      if Joins(cfg, items, n) { BodyEndAccepted(cfg, items, n + 1); }
    }
  }

  lemma {:induction false} JoinsMeans(cfg: Config, items: seq<Item>, n: nat)
    requires 0 < n < |items| && Accepted(cfg, items[..n])
    ensures Joins(cfg, items, n) <==> Accepted(cfg, items[..n+1])
  {
    hide BodySize;
    var b, c := items[..n], items[..n+1];
    assert c[n] == items[n] && c[0] == items[0];
    if Joins(cfg, items, n) {
      forall i | 0 <= i < |c| ensures c[i].pv == c[0].pv && c[i].ctx == c[0].ctx {
        if i < n { assert c[i] == b[i]; }
      }
    }
  }

  lemma {:induction false} ItemsHead(b: Body, bodies: seq<Body>)
    ensures Items([b] + bodies) == b + Items(bodies)
  {
    assert ([b] + bodies)[1..] == bodies;
  }

  /** `flush` splits the items as the declarative reading demands. */
  lemma {:induction false} SplitIs(cfg: Config, items: seq<Item>)
    ensures IsSplit(cfg, Split(cfg, items), items)
    decreases |items|
  {
    hide BodySize, Joins, Accepted, BodyEnd;
    if items != [] {
      var n := BodyEnd(cfg, items, 1);
      var b, rest := items[..n], Split(cfg, items[n..]);
      OneAccepted(cfg, items[..1]);
      BodyEndAccepted(cfg, items, 1);
      SplitIs(cfg, items[n..]);
      ItemsHead(b, rest);
      assert b + items[n..] == items;
      if rest != [] {
        SplitStart(cfg, items[n..]);
        assert b + [rest[0][0]] == items[..n+1];
      }
    }
  }

  lemma {:induction false} OneAccepted(cfg: Config, b: Body)
    requires |b| <= 1
    ensures Accepted(cfg, b)
  {}

  lemma {:induction false} SplitStart(cfg: Config, items: seq<Item>)
    requires Split(cfg, items) != []
    ensures items != [] && Split(cfg, items)[0] != [] && Split(cfg, items)[0][0] == items[0]
  {
    hide BodyEnd;
  }

  /** And nothing else meets that reading. */
  lemma {:induction false} SplitOnly(cfg: Config, a: seq<Body>, b: seq<Body>, items: seq<Item>)
    requires IsSplit(cfg, a, items) && IsSplit(cfg, b, items)
    ensures a == b
    decreases |a|
  {
    hide BodySize, Accepted, IsSplit;
    NothingSplit(cfg, items, a);
    NothingSplit(cfg, items, b);
    if a != [] {
      SplitTail(cfg, a, items);
      SplitTail(cfg, b, items);
      if |a[0]| < |b[0]| { FirstBody(cfg, a, b, items); }
      if |b[0]| < |a[0]| { FirstBody(cfg, b, a, items); }
      assert a[0] == b[0];
      SplitOnly(cfg, a[1..], b[1..], items[|a[0]|..]);
      assert a == [a[0]] + a[1..] && b == [b[0]] + b[1..];
    }
  }

  lemma {:induction false} NothingSplit(cfg: Config, items: seq<Item>, b: seq<Body>)
    requires IsSplit(cfg, b, items)
    ensures b == [] <==> items == []
  {
    hide Accepted;
  }

  lemma {:induction false} SplitTail(cfg: Config, a: seq<Body>, items: seq<Item>)
    requires IsSplit(cfg, a, items) && a != []
    ensures a[0] != [] && |a[0]| <= |items| && a[0] == items[..|a[0]|] && IsSplit(cfg, a[1..], items[|a[0]|..])
  {
    hide Accepted;
    assert items == a[0] + Items(a[1..]);
  }

  /** Of two splits the first bodies are equally long: the shorter one could have taken another item. */
  lemma {:induction false} FirstBody(cfg: Config, a: seq<Body>, b: seq<Body>, items: seq<Item>)
    requires IsSplit(cfg, a, items) && IsSplit(cfg, b, items) && a != [] && b != []
    ensures |a[0]| >= |b[0]|
  {
    hide BodySize, Accepted, IsSplit;
    SplitTail(cfg, a, items);
    SplitTail(cfg, b, items);
    var n := |a[0]|;
    if n < |b[0]| {
      SecondBody(cfg, a, items);
      assert b[0][..n+1] == items[..n+1];
      FirstAccepted(cfg, b, items);
      AcceptedFront(cfg, b[0], n + 1);
    }
  }

  lemma {:induction false} FirstAccepted(cfg: Config, b: seq<Body>, items: seq<Item>)
    requires IsSplit(cfg, b, items) && b != []
    ensures Accepted(cfg, b[0])
  {}

  lemma {:induction false} SecondBody(cfg: Config, a: seq<Body>, items: seq<Item>)
    requires IsSplit(cfg, a, items) && a != [] && |a[0]| < |items|
    ensures !Accepted(cfg, items[..|a[0]|+1])
  {
    hide Accepted;
    var n := |a[0]|;
    assert items == a[0] + Items(a[1..]);
    assert a[1..] != [];
    assert a[1..][0] == a[1] && Items(a[1..]) == a[1] + Items(a[1..][1..]);
    assert items[..n+1] == a[0] + [a[1][0]];
  }

  // ---- leaving the page ----

  lemma {:induction false} TotalTail(cfg: Config, bodies: seq<Body>, k: nat, l: nat)
    requires k <= l <= |bodies|
    ensures TotalSize(cfg, bodies[l..]) <= TotalSize(cfg, bodies[k..])
    decreases l - k
  {
    hide BodySize;
    if k < l {
      TotalTail(cfg, bodies, k + 1, l);
      assert bodies[k..][1..] == bodies[k+1..];
    }
  }

  /** On leaving, exactly the longest run of newest bodies within the budget goes out. */
  lemma {:induction false} LeaveLongest(cfg: Config, bodies: seq<Body>, from: nat, k: nat)
    requires k <= from <= |bodies| && TotalSize(cfg, bodies[from..]) <= MAX_LEAVE_BYTES
    ensures TotalSize(cfg, bodies[k..]) <= MAX_LEAVE_BYTES <==> LeaveFrom(cfg, bodies, from) <= k
    decreases from
  {
    hide TotalSize;
    if from > 0 {
      if TotalSize(cfg, bodies[from-1..]) <= MAX_LEAVE_BYTES {
        if k < from { LeaveLongest(cfg, bodies, from - 1, k); }
        else { LeaveLongest(cfg, bodies, from - 1, from - 1); }
      } else if k < from {
        TotalTail(cfg, bodies, k, from - 1);
      }
    }
  }

  // ---- one flush ----

  lemma {:induction false} MineOnly(items: seq<Item>, who: Option<string>)
    ensures forall it | it in Mine(items, who) :: it.user == who
    ensures multiset(Mine(items, who)) <= multiset(items)
    ensures forall it | it in items && it.user == who :: multiset(Mine(items, who))[it] == multiset(items)[it]
    ensures |Mine(items, who)| <= |items|
  {
    if items != [] {
      var n := |items| - 1;
      MineOnly(items[..n], who);
      assert items == items[..n] + [items[n]];
      MineSnoc(items, who);
    }
  }

  lemma {:induction false} MineSnoc(items: seq<Item>, who: Option<string>)
    requires items != []
    ensures var n := |items| - 1; multiset(items) == multiset(items[..n]) + multiset{items[n]}
    ensures multiset(Mine(items, who)) == multiset(Mine(items[..|items|-1], who))
         + (if items[|items|-1].user == who then multiset{items[|items|-1]} else multiset{})
  {
    var n := |items| - 1;
    assert items == items[..n] + [items[n]];
  }

  /** The bodies one flush sends. */
  function Sent(s: State, s': State): seq<Body>
    requires |s.log.sent| <= |s'.log.sent|
  {
    s'.log.sent[|s.log.sent|..]
  }

  lemma {:induction false} ItemsSplit(bodies: seq<Body>, k: nat)
    requires k <= |bodies|
    ensures Items(bodies) == Items(bodies[..k]) + Items(bodies[k..])
  {
    if k == 0 {
      assert bodies[0..] == bodies && bodies[..0] == [];
    } else {
      ItemsSplit(bodies[1..], k - 1);
      assert bodies[..k][1..] == bodies[1..][..k-1] && bodies[1..][k-1..] == bodies[k..];
      SeqAssoc(bodies[0], Items(bodies[1..][..k-1]), Items(bodies[k..]));
    }
  }

  /** What a flush may send, and when it sends nothing: it needs the switch on, the same identity, and credentials where they are asked for. */
  lemma {:induction false} FlushSends(cfg: Config, s: State, env: Env, leaving: bool)
    ensures var s' := Flush(cfg, s, env, leaving);
            && |s.log.sent| <= |s'.log.sent| && s.log.sent == s'.log.sent[..|s.log.sent|]
            && var mine := if cfg.hasIdentity then Mine(s.queue, env.identity) else s.queue;
               var bodies := Split(cfg, mine);
               Sent(s, s') == if !IsOn(s, env) || (cfg.hasHeaders && !env.signedIn) then []
                              else if leaving then bodies[LeaveFrom(cfg, bodies, |bodies|)..] else bodies
    ensures var s' := Flush(cfg, s, env, leaving);
            s'.queue == if IsOn(s, env) && cfg.hasHeaders && !env.signedIn
                        then (if cfg.hasIdentity then Mine(s.queue, env.identity) else s.queue) else []
  {
    hide LeaveFrom, Items, BodyEnd;
    NoMine(cfg, env.identity);
    var mine := if cfg.hasIdentity then Mine(s.queue, env.identity) else s.queue;
    LeaveAll(Split(cfg, mine));
  }

  lemma {:induction false} LeaveAll(bodies: seq<Body>)
    ensures bodies[0..] == bodies && bodies[|bodies|..] == []
  {}

  lemma {:induction false} NoMine(cfg: Config, who: Option<string>)
    ensures Mine([], who) == [] && Split(cfg, []) == [] && LeaveFrom(cfg, [], 0) == 0
  {}

  /** A queue's own events: what a flush sends was recorded under the identity of that moment. */
  lemma {:induction false} SentIsMine(cfg: Config, s: State, env: Env, leaving: bool)
    requires cfg.hasIdentity
    ensures var s' := Flush(cfg, s, env, leaving);
            |s.log.sent| <= |s'.log.sent| && forall it | it in Items(Sent(s, s')) :: it.user == env.identity && it in s.queue
  {
    hide Flush, Mine, Split, LeaveFrom, Items, IsSplit;
    var mine := Mine(s.queue, env.identity);
    var bodies := Split(cfg, mine);
    FlushSends(cfg, s, env, leaving);
    SplitIs(cfg, mine);
    SplitItems(cfg, bodies, mine);
    MineOnly(s.queue, env.identity);
    ItemsSplit(bodies, LeaveFrom(cfg, bodies, |bodies|));
    NoItems();
    forall it | it in mine ensures it in s.queue {
      assert it in multiset(mine);
    }
  }

  lemma {:induction false} NoItems()
    ensures Items([]) == []
  {}

  lemma {:induction false} SplitItems(cfg: Config, bodies: seq<Body>, items: seq<Item>)
    requires IsSplit(cfg, bodies, items)
    ensures Items(bodies) == items
  {}

  // ---- whole runs ----

  /** What the dictionary lets through: an event of this surface, with allowed properties only. */
  predicate Allowed(cfg: Config, it: Item) {
    Sendable(cfg, it.ev.name) && forall k | k in it.ev.props :: k in Dict(it.ev.name).value.keys
  }

  ghost predicate AllAllowed(cfg: Config, m: multiset<Item>) {
    forall it | it in m :: Allowed(cfg, it)
  }

  ghost predicate AllAccepted(cfg: Config, bodies: seq<Body>) {
    forall i :: 0 <= i < |bodies| ==> bodies[i] != [] && Accepted(cfg, bodies[i])
  }

  /** Each recorded event is queued, dropped or sent: none is lost, none counted twice. */
  ghost predicate Conserved(s: State) {
    s.log.recorded == multiset(s.queue) + s.log.dropped + multiset(Items(s.log.sent))
  }

  ghost predicate QueueOk(cfg: Config, s: State) {
    && |s.queue| <= MAX_QUEUE && Conserved(s)
    && AllAllowed(cfg, s.log.recorded) && AllAccepted(cfg, s.log.sent)
    && (s.dead ==> s.queue == [])
  }

  /** The parts of the state the queue invariant speaks of. */
  predicate SameQueue(a: State, b: State) {
    && a.queue == b.queue && a.dead == b.dead
    && a.log.recorded == b.log.recorded && a.log.dropped == b.log.dropped && a.log.sent == b.log.sent
  }

  lemma {:induction false} QueueStill(cfg: Config, a: State, b: State)
    requires QueueOk(cfg, a) && SameQueue(a, b)
    ensures QueueOk(cfg, b)
  {
    hide Accepted, Allowed, Items;
  }

  lemma {:induction false} NewAllowed(cfg: Config, s: State, env: Env, name: string, props: Props)
    requires Sendable(cfg, name)
    ensures Allowed(cfg, NewItem(cfg, s, env, name, props))
  {
    hide Dict;
  }

  lemma {:induction false} EnqueueOk(cfg: Config, s: State, it: Item)
    requires QueueOk(cfg, s) && Allowed(cfg, it) && !s.dead
    ensures QueueOk(cfg, Enqueue(s, it))
  {
    hide Accepted, Allowed, Items, AllAccepted, AllAllowed, Conserved;
    EnqueueConserves(s, it);
    AllowedMore(cfg, s.log.recorded, it);
  }

  lemma {:induction false} EnqueueConserves(s: State, it: Item)
    requires Conserved(s)
    ensures Conserved(Enqueue(s, it))
  {
    hide Items;
    var q := s.queue + [it];
    assert multiset(q) == multiset(s.queue) + multiset{it};
    HeadOff(q);
    var sent := multiset(Items(s.log.sent));
    assert s.log.recorded + multiset{it} == multiset(q) + s.log.dropped + sent;
    assert multiset{q[0]} + multiset(q[1..]) + s.log.dropped + sent == multiset(q[1..]) + (s.log.dropped + multiset{q[0]}) + sent;
  }

  lemma {:induction false} HeadOff(q: seq<Item>)
    requires q != []
    ensures multiset(q) == multiset{q[0]} + multiset(q[1..])
  {
    assert q == [q[0]] + q[1..];
  }

  lemma {:induction false} AllowedMore(cfg: Config, m: multiset<Item>, it: Item)
    requires AllAllowed(cfg, m) && Allowed(cfg, it)
    ensures AllAllowed(cfg, m + multiset{it})
  {
    hide Allowed;
  }

  lemma {:induction false} PushOk(cfg: Config, s: State, env: Env, name: string, props: Props)
    requires QueueOk(cfg, s)
    ensures QueueOk(cfg, Push(cfg, s, env, name, props))
  {
    hide QueueOk, Enqueue, Allowed, Sendable, NewItem;
    if IsOn(s, env) && Sendable(cfg, name) {
      NewAllowed(cfg, s, env, name, props);
      EnqueueOk(cfg, s, NewItem(cfg, s, env, name, props));
    }
  }

  lemma {:induction false} DropOk(cfg: Config, s: State, queue: seq<Item>, dead: bool)
    requires QueueOk(cfg, s) && multiset(queue) <= multiset(s.queue) && |queue| <= |s.queue|
    ensures QueueOk(cfg, Drop(s, multiset(s.queue) - multiset(queue), queue))
  {
    hide Accepted, Allowed, Items;
  }

  lemma {:induction false} PurgeOk(cfg: Config, s: State, env: Env)
    requires QueueOk(cfg, s)
    ensures QueueOk(cfg, Purge(cfg, s, env))
  {
    hide QueueOk, Drop, Mine;
    if cfg.hasIdentity {
      MineOnly(s.queue, env.identity);
      DropOk(cfg, s, Mine(s.queue, env.identity), s.dead);
    }
  }

  lemma {:induction false} ItemsConcat(a: seq<Body>, b: seq<Body>)
    ensures Items(a + b) == Items(a) + Items(b)
  {
    ItemsSplit(a + b, |a|);
    assert (a + b)[..|a|] == a && (a + b)[|a|..] == b;
  }

  lemma {:induction false} AcceptedMore(cfg: Config, a: seq<Body>, bodies: seq<Body>, from: nat, items: seq<Item>)
    requires AllAccepted(cfg, a) && IsSplit(cfg, bodies, items) && from <= |bodies|
    ensures AllAccepted(cfg, a + bodies[from..])
  {
    hide Accepted, Items;
  }

  lemma {:induction false} SendOk(cfg: Config, s: State, leaving: bool)
    requires QueueOk(cfg, s)
    ensures QueueOk(cfg, Send(cfg, s, leaving))
  {
    hide Accepted, Allowed, Items, Split, LeaveFrom, IsSplit, AllAccepted;
    var bodies := Split(cfg, s.queue);
    var from := if leaving then LeaveFrom(cfg, bodies, |bodies|) else 0;
    SplitIs(cfg, s.queue);
    SplitItems(cfg, bodies, s.queue);
    ItemsSplit(bodies, from);
    ItemsConcat(s.log.sent, bodies[from..]);
    AcceptedMore(cfg, s.log.sent, bodies, from, s.queue);
    assert multiset(s.queue) == multiset(Items(bodies[..from])) + multiset(Items(bodies[from..]));
  }

  lemma {:induction false} EmptyDrop(s: State)
    ensures multiset(s.queue) - multiset([]) == multiset(s.queue)
  {}

  lemma {:induction false} FlushOk(cfg: Config, s: State, env: Env, leaving: bool)
    requires QueueOk(cfg, s)
    ensures QueueOk(cfg, Flush(cfg, s, env, leaving))
  {
    hide QueueOk, Drop, Purge, Send;
    if s.queue != [] {
      if !IsOn(s, env) {
        EmptyDrop(s);
        DropOk(cfg, s, [], s.dead);
      } else {
        PurgeOk(cfg, s, env);
        SendOk(cfg, Purge(cfg, s, env), leaving);
      }
    }
  }

  lemma {:induction false} EmitOk(cfg: Config, s: State, env: Env, from: nat)
    requires QueueOk(cfg, s)
    ensures QueueOk(cfg, EmitEngaged(cfg, s, env, from))
  {
    hide QueueOk, Push, Gain, NewItem;
    var a := Tick(s, env);
    var b := a.(engagedMs := 0);
    QueueStill(cfg, s, b);
    var seconds := Rounded(a.engagedMs);
    var c := if seconds >= 1 && s.screen != "" then Push(cfg, b, env, "engaged", EngagedProps(cfg, s.screen, seconds)) else b;
    PushOk(cfg, b, env, "engaged", EngagedProps(cfg, s.screen, seconds));
    QueueStill(cfg, c, EmitEngaged(cfg, s, env, from));
  }

  lemma {:induction false} ViewOk(cfg: Config, s: State, env: Env, from: nat, name: string, extra: Props, newPv: string)
    requires QueueOk(cfg, s)
    ensures QueueOk(cfg, OnView(cfg, s, env, from, name, extra, newPv))
  {
    hide QueueOk, Push, EmitEngaged;
    EmitOk(cfg, s, env, from);
    var a := EmitEngaged(cfg, s, env, from);
    var b := a.(pv := newPv, screen := cfg.route(name), depthSent := {}, rage := Rage(None, []),
                lastActive := env.now, lastTick := LastTickNow(env));
    QueueStill(cfg, a, b);
    PushOk(cfg, b, env, if cfg.site then "page_view" else "screen_view", extra[Place(cfg) := Str(b.screen)]);
  }

  lemma {:induction false} ClickOk(cfg: Config, s: State, env: Env, mark: Option<string>, target: nat, tag: string)
    requires QueueOk(cfg, s)
    ensures QueueOk(cfg, OnClick(cfg, s, env, mark, target, tag))
  {
    hide QueueOk, Push, RageAfter;
    var a := if mark == None then s else Push(cfg, s, env, "click", ClickProps(cfg, mark.value, s.screen));
    if mark.Some? { PushOk(cfg, s, env, "click", ClickProps(cfg, mark.value, s.screen)); }
    var shown := if mark == None then tag else mark.value;
    var props: Props := map["screen" := Str(a.screen), "name" := Str(shown)];
    PushOk(cfg, a, env, "rage_click", props);
    QueueStill(cfg, a, a.(rage := RageAfter(a.rage, target, env.now)));
    var b := Push(cfg, a, env, "rage_click", props);
    QueueStill(cfg, b, b.(rage := Rage(None, [])));
  }

  lemma {:induction false} DepthsOk(cfg: Config, s: State, env: Env, percent: real, k: nat)
    requires k <= 4 && QueueOk(cfg, s)
    ensures QueueOk(cfg, Depths(cfg, s, env, percent, k))
  {
    hide Push, QueueOk;
    if k > 0 {
      DepthsOk(cfg, s, env, percent, k - 1);
      var a, d := Depths(cfg, s, env, percent, k - 1), DepthAt(k - 1);
      var b := a.(depthSent := a.depthSent + {d});
      QueueStill(cfg, a, b);
      PushOk(cfg, b, env, "scroll", map["path" := Str(a.screen), "depth" := Num(d)]);
    }
  }

  lemma {:induction false} LeaveOk(cfg: Config, s: State, env: Env, from: nat)
    requires QueueOk(cfg, s)
    ensures QueueOk(cfg, Leave(cfg, s, env, from))
  {
    hide QueueOk, EmitEngaged, Flush;
    EmitOk(cfg, s, env, from);
    FlushOk(cfg, EmitEngaged(cfg, s, env, from), env, true);
  }

  lemma {:induction false} DestroyOk(cfg: Config, s: State, env: Env, from: nat)
    requires QueueOk(cfg, s)
    ensures QueueOk(cfg, OnDestroy(cfg, s, env, from))
  {
    hide Leave, Allowed, Accepted, Items;
    LeaveOk(cfg, s, env, from);
  }

  lemma {:induction false} QueueStep(cfg: Config, s: State, call: Call, env: Env, start: nat)
    requires QueueOk(cfg, s)
    ensures QueueOk(cfg, Step(cfg, s, call, env, start))
  {
    hide QueueOk, EmitEngaged, Flush, Push, OnView, OnClick, Depths, Leave, OnDestroy, Gain;
    var from := Since(s, start);
    match call
    case View(name, extra, newPv) => ViewOk(cfg, s, env, from, name, extra, newPv);
    case Activity => QueueStill(cfg, s, OnActivity(s, env));
    case Visibility =>
      LeaveOk(cfg, s, env, from);
      QueueStill(cfg, s, s.(lastActive := env.now, lastTick := Some(env.now)));
    case PageHide => LeaveOk(cfg, s, env, from);
    case Click(mark, target, tag) => ClickOk(cfg, s, env, mark, target, tag);
    case Scroll(percent) => if percent.Some? { DepthsOk(cfg, s, env, percent.value, 4); }
    case Timer =>
      QueueStill(cfg, s, Tick(s, env));
      FlushOk(cfg, Tick(s, env), env, false);
    case Settle => EmitOk(cfg, s, env, from);
    case Track(event, props) => PushOk(cfg, s, env, event, props);
    case FlushNow => FlushOk(cfg, s, env, false);
    case Destroy => DestroyOk(cfg, s, env, from);
  }

  /** Over every run: the queue is bounded, recorded events are conserved and allowed, and every body is accepted. */
  lemma {:induction false} QueueRuns(cfg: Config, env0: Env, pv0: string, h: History)
    ensures QueueOk(cfg, Run(cfg, env0, pv0, h))
  {
    hide QueueOk, Step;
    if h == [] {
      QueueStart(cfg, env0, pv0);
    } else {
      var front, e := h[..|h|-1], h[|h|-1];
      QueueRuns(cfg, env0, pv0, front);
      QueueStep(cfg, Run(cfg, env0, pv0, front), e.call, e.env, env0.now);
    }
  }

  lemma {:induction false} QueueStart(cfg: Config, env0: Env, pv0: string)
    ensures QueueOk(cfg, Start(env0, pv0))
  {
    NoItems();
  }

  // ---- reports of engaged time ----

  /** A settlement is reported when the tracker is on, a screen is set and it rounds to a second; the report names the page it was earned on. */
  predicate ReportOk(cfg: Config, st: Settlement) {
    && (st.report.Some? <==> st.on && st.screen != "" && Rounded(st.ms) >= 1)
    && (st.report.Some? ==>
          && st.report.value.pv == st.pv
          && st.report.value.ev == Ev("engaged", st.to, CleanProps(cfg, Dict("engaged").value.keys, EngagedProps(cfg, st.screen, Rounded(st.ms)))))
  }

  ghost predicate ReportsOk(cfg: Config, s: State) {
    forall i :: 0 <= i < |s.log.settled| ==>
      ReportOk(cfg, s.log.settled[i]) && (s.log.settled[i].report.Some? ==> s.log.settled[i].report.value in s.log.recorded)
  }

  /** Recorded events only grow and the settlements stay. */
  ghost predicate Grows(a: State, b: State) {
    a.log.recorded <= b.log.recorded && a.log.settled == b.log.settled
  }

  lemma {:induction false} ReportsStill(cfg: Config, a: State, b: State)
    requires ReportsOk(cfg, a) && Grows(a, b)
    ensures ReportsOk(cfg, b)
  {
    hide ReportOk;
  }

  lemma {:induction false} PushGrows(cfg: Config, s: State, env: Env, name: string, props: Props)
    ensures Grows(s, Push(cfg, s, env, name, props))
    ensures IsOn(s, env) && Sendable(cfg, name) ==> NewItem(cfg, s, env, name, props) in Push(cfg, s, env, name, props).log.recorded
  {
    hide Sendable, NewItem;
  }

  lemma {:induction false} FlushGrows(cfg: Config, s: State, env: Env, leaving: bool)
    ensures Grows(s, Flush(cfg, s, env, leaving))
  {
    hide Mine, Split, LeaveFrom, Items;
  }

  lemma {:induction false} EngagedSendable(cfg: Config)
    ensures Sendable(cfg, "engaged")
  {}

  lemma {:induction false} EmitReports(cfg: Config, s: State, env: Env, from: nat)
    requires ReportsOk(cfg, s)
    ensures ReportsOk(cfg, EmitEngaged(cfg, s, env, from))
  {
    hide Push, Gain, Dict, Sendable, CleanProps, EngagedProps;
    var a := Tick(s, env);
    var b := a.(engagedMs := 0);
    var props := EngagedProps(cfg, s.screen, Rounded(a.engagedMs));
    EngagedSendable(cfg);
    PushGrows(cfg, b, env, "engaged", props);
    var c := if Rounded(a.engagedMs) >= 1 && s.screen != "" then Push(cfg, b, env, "engaged", props) else b;
    var d := EmitEngaged(cfg, s, env, from);
    var n := |s.log.settled|;
    assert d.log.recorded == c.log.recorded && d.log.settled == s.log.settled + [d.log.settled[n]];
    assert ReportOk(cfg, d.log.settled[n]);
    hide ReportOk;
    OneMoreReport(cfg, s, d);
  }

  lemma {:induction false} OneMoreReport(cfg: Config, s: State, d: State)
    requires ReportsOk(cfg, s) && s.log.recorded <= d.log.recorded
    requires var n := |s.log.settled|;
             && |d.log.settled| == n + 1 && d.log.settled == s.log.settled + [d.log.settled[n]] && ReportOk(cfg, d.log.settled[n])
             && (d.log.settled[n].report.Some? ==> d.log.settled[n].report.value in d.log.recorded)
    ensures ReportsOk(cfg, d)
  {
    hide ReportOk;
    var n := |s.log.settled|;
    forall i | 0 <= i < |d.log.settled|
      ensures ReportOk(cfg, d.log.settled[i]) && (d.log.settled[i].report.Some? ==> d.log.settled[i].report.value in d.log.recorded)
    {
      if i < n { assert d.log.settled[i] == s.log.settled[i]; }
    }
  }

  lemma {:induction false} ClickGrows(cfg: Config, s: State, env: Env, mark: Option<string>, target: nat, tag: string)
    ensures Grows(s, OnClick(cfg, s, env, mark, target, tag))
  {
    hide Push, RageAfter;
    var a := if mark == None then s else Push(cfg, s, env, "click", ClickProps(cfg, mark.value, s.screen));
    if mark.Some? { PushGrows(cfg, s, env, "click", ClickProps(cfg, mark.value, s.screen)); }
    var shown := if mark == None then tag else mark.value;
    PushGrows(cfg, a, env, "rage_click", map["screen" := Str(a.screen), "name" := Str(shown)]);
  }

  lemma {:induction false} DepthsGrow(cfg: Config, s: State, env: Env, percent: real, k: nat)
    requires k <= 4
    ensures Grows(s, Depths(cfg, s, env, percent, k))
  {
    hide Push;
    if k > 0 {
      DepthsGrow(cfg, s, env, percent, k - 1);
      var a, d := Depths(cfg, s, env, percent, k - 1), DepthAt(k - 1);
      PushGrows(cfg, a.(depthSent := a.depthSent + {d}), env, "scroll", map["path" := Str(a.screen), "depth" := Num(d)]);
    }
  }

  lemma {:induction false} LeaveReports(cfg: Config, s: State, env: Env, from: nat)
    requires ReportsOk(cfg, s)
    ensures ReportsOk(cfg, Leave(cfg, s, env, from)) && ReportsOk(cfg, OnDestroy(cfg, s, env, from))
  {
    hide ReportsOk, EmitEngaged, Flush;
    EmitReports(cfg, s, env, from);
    var a := EmitEngaged(cfg, s, env, from);
    FlushGrows(cfg, a, env, true);
    ReportsStill(cfg, a, Leave(cfg, s, env, from));
    ReportsStill(cfg, a, OnDestroy(cfg, s, env, from));
  }

  lemma {:induction false} ViewReports(cfg: Config, s: State, env: Env, from: nat, name: string, extra: Props, newPv: string)
    requires ReportsOk(cfg, s)
    ensures ReportsOk(cfg, OnView(cfg, s, env, from, name, extra, newPv))
  {
    hide ReportsOk, EmitEngaged, Push;
    EmitReports(cfg, s, env, from);
    var a := EmitEngaged(cfg, s, env, from);
    var b := a.(pv := newPv, screen := cfg.route(name), depthSent := {}, rage := Rage(None, []),
                lastActive := env.now, lastTick := LastTickNow(env));
    PushGrows(cfg, b, env, if cfg.site then "page_view" else "screen_view", extra[Place(cfg) := Str(b.screen)]);
    ReportsStill(cfg, a, OnView(cfg, s, env, from, name, extra, newPv));
  }

  lemma {:induction false} ReportStep(cfg: Config, s: State, call: Call, env: Env, start: nat)
    requires ReportsOk(cfg, s)
    ensures ReportsOk(cfg, Step(cfg, s, call, env, start))
  {
    hide ReportsOk, EmitEngaged, Flush, Push, OnView, OnClick, Depths, Leave, OnDestroy, Gain;
    var from, s' := Since(s, start), Step(cfg, s, call, env, start);
    match call
    case View(name, extra, newPv) => ViewReports(cfg, s, env, from, name, extra, newPv);
    case Activity => ReportsStill(cfg, s, s');
    case Visibility =>
      if env.hidden { LeaveReports(cfg, s, env, from); } else { ReportsStill(cfg, s, s'); }
    case PageHide => LeaveReports(cfg, s, env, from);
    case Click(mark, target, tag) =>
      ClickGrows(cfg, s, env, mark, target, tag);
      ReportsStill(cfg, s, s');
    case Scroll(percent) =>
      if percent.Some? { DepthsGrow(cfg, s, env, percent.value, 4); }
      ReportsStill(cfg, s, s');
    case Timer =>
      FlushGrows(cfg, Tick(s, env), env, false);
      ReportsStill(cfg, s, s');
    case Settle => EmitReports(cfg, s, env, from);
    case Track(event, props) =>
      PushGrows(cfg, s, env, event, props);
      ReportsStill(cfg, s, s');
    case FlushNow =>
      FlushGrows(cfg, s, env, false);
      ReportsStill(cfg, s, s');
    case Destroy => LeaveReports(cfg, s, env, from);
  }

  lemma {:induction false} ReportRuns(cfg: Config, env0: Env, pv0: string, h: History)
    ensures ReportsOk(cfg, Run(cfg, env0, pv0, h))
  {
    hide ReportsOk, Step;
    if h == [] {
      NoReports(cfg, env0, pv0);
    } else {
      var front, e := h[..|h|-1], h[|h|-1];
      ReportRuns(cfg, env0, pv0, front);
      ReportStep(cfg, Run(cfg, env0, pv0, front), e.call, e.env, env0.now);
    }
  }

  lemma {:induction false} NoReports(cfg: Config, env0: Env, pv0: string)
    ensures ReportsOk(cfg, Start(env0, pv0))
  {}

  /** The seconds a settlement reported: what stands in the event, none without one. */
  function ReportedSeconds(st: Settlement): int {
    if st.report == None then 0
    else
      var props := st.report.value.ev.props;
      if "seconds" in props && props["seconds"].Num? then props["seconds"].n else 0
  }

  function Reported(l: seq<Settlement>): int {
    if l == [] then 0 else Reported(l[..|l|-1]) + ReportedSeconds(l[|l|-1])
  }

  /** Finite numbers pass the cleaning as they are. */
  ghost predicate NumbersPass(cfg: Config) {
    forall k, n :: cfg.clean(k, Num(n)) == Some(Num(n))
  }

  lemma {:induction false} ReportNear(cfg: Config, st: Settlement)
    requires NumbersPass(cfg) && ReportOk(cfg, st) && st.on && st.screen != ""
    ensures -500 <= 1000 * ReportedSeconds(st) - st.ms <= 500
  {
    if st.report.Some? {
      var keys, props := Dict("engaged").value.keys, EngagedProps(cfg, st.screen, Rounded(st.ms));
      assert keys[2] == "seconds";
      assert props["seconds"] == Num(Rounded(st.ms));
      assert cfg.clean("seconds", Num(Rounded(st.ms))) == Some(Num(Rounded(st.ms)));
    }
  }

  /** A settlement that is due a report: the tracker is on and a screen is set. */
  predicate Due(st: Settlement) { st.on && st.screen != "" }

  /** The engaged instants of the settlements that are due a report, and their number. */
  function DueTime(env0: Env, h: History, l: seq<Settlement>): nat {
    if l == [] then 0
    else
      var st := l[|l|-1];
      DueTime(env0, h, l[..|l|-1]) + (if Due(st) then Measure(env0, h, st.from, st.to) else 0)
  }

  function DueCount(l: seq<Settlement>): nat {
    if l == [] then 0 else DueCount(l[..|l|-1]) + (if Due(l[|l|-1]) then 1 else 0)
  }

  lemma {:induction false} ReportsNear(cfg: Config, env0: Env, pv0: string, h: History, l: seq<Settlement>)
    requires NumbersPass(cfg) && AllEarned(cfg, env0, pv0, h, l) && forall i :: 0 <= i < |l| ==> ReportOk(cfg, l[i])
    ensures -500 * DueCount(l) <= 1000 * Reported(l) - DueTime(env0, h, l) <= 500 * DueCount(l)
    decreases |l|
  {
    hide ReportOk, ReportedSeconds, NumbersPass, Measure, PageDuring;
    if l != [] {
      ReportsNear(cfg, env0, pv0, h, l[..|l|-1]);
      if Due(l[|l|-1]) { ReportNear(cfg, l[|l|-1]); } else { NotDue(cfg, l[|l|-1]); }
    }
  }

  lemma {:induction false} NotDue(cfg: Config, st: Settlement)
    requires ReportOk(cfg, st) && !Due(st)
    ensures ReportedSeconds(st) == 0
  {}

  /**
   * While the tracker is on and a screen is set, the reported seconds are within half a second per settlement of the
   * engaged instants; what was earned otherwise is not reported.
   */
  lemma {:induction false} ReportedTimeIsNear(cfg: Config, env0: Env, pv0: string, h: History)
    requires Possible(env0, h) && NumbersPass(cfg)
    ensures var l := Run(cfg, env0, pv0, h).log.settled;
            -500 * DueCount(l) <= 1000 * Reported(l) - DueTime(env0, h, l) <= 500 * DueCount(l)
  {
    hide Run, Measure, AllEarned, VisibleFrom, ActiveFrom, PageFrom, Gain, ReportOk, NumbersPass;
    ClockRuns(cfg, env0, pv0, h);
    ReportRuns(cfg, env0, pv0, h);
    ReportsNear(cfg, env0, pv0, h, Run(cfg, env0, pv0, h).log.settled);
  }

  // ---- rage clicks ----

  /** The clicks held are at most two, in order, and not later than `now`. */
  predicate RageOk(r: Rage, now: nat) {
    && |r.at| < RAGE_CLICKS && (forall i :: 0 <= i < |r.at| ==> r.at[i] <= now)
    && forall i :: 0 < i < |r.at| ==> r.at[i-1] <= r.at[i]
  }

  /** The third click on one element within a second is a rage click; it and only it closes the window. */
  lemma {:induction false} ThirdClick(r: Rage, target: nat, t: nat)
    requires RageOk(r, t)
    ensures |RageAfter(r, target, t).at| >= RAGE_CLICKS <==> r.el == Some(target) && |r.at| == 2 && t - r.at[0] < RAGE_MS
    ensures |RageAfter(r, target, t).at| < RAGE_CLICKS ==> RageOk(RageAfter(r, target, t), t)
  {
    hide Recent;
    var at := if r.el == Some(target) then r.at else [];
    RecentShort(at, t);
    WindowOk(at, t, Recent(at, t) + [t]);
  }

  /** The clicks of a window with the new one behind them. */
  lemma {:induction false} WindowOk(at: seq<nat>, t: nat, more: seq<nat>)
    requires |at| <= 2 && (forall i :: 0 <= i < |at| ==> at[i] <= t) && (|at| == 2 ==> at[0] <= at[1])
    requires more == (if |at| == 0 then [] else if |at| == 1 then (if t - at[0] < RAGE_MS then at else [])
                      else (if t - at[0] < RAGE_MS then [at[0]] else []) + (if t - at[1] < RAGE_MS then [at[1]] else [])) + [t]
    ensures |more| >= RAGE_CLICKS <==> |at| == 2 && t - at[0] < RAGE_MS
    ensures |more| < RAGE_CLICKS ==> RageOk(Rage(None, more), t)
  {}

  lemma {:induction false} RecentShort(at: seq<nat>, t: nat)
    requires |at| <= 2
    ensures at == [] ==> Recent(at, t) == []
    ensures |at| == 1 ==> Recent(at, t) == if t - at[0] < RAGE_MS then at else []
    ensures |at| == 2 ==> Recent(at, t) == (if t - at[0] < RAGE_MS then [at[0]] else []) + (if t - at[1] < RAGE_MS then [at[1]] else [])
  {
    if at != [] {
      var front := at[..|at|-1];
      RecentShort(front, t);
      assert Recent(at, t) == Recent(front, t) + (if t - at[|at|-1] < RAGE_MS then [at[|at|-1]] else []);
    }
  }

  lemma {:induction false} RageLater(r: Rage, now: nat, later: nat)
    requires RageOk(r, now) && now <= later
    ensures RageOk(r, later)
  {}

  lemma {:induction false} PushRage(cfg: Config, s: State, env: Env, name: string, props: Props)
    ensures Push(cfg, s, env, name, props).rage == s.rage
  {
    hide Sendable, NewItem;
  }

  lemma {:induction false} ClickRage(cfg: Config, s: State, env: Env, mark: Option<string>, target: nat, tag: string)
    requires RageOk(s.rage, env.now)
    ensures RageOk(OnClick(cfg, s, env, mark, target, tag).rage, env.now)
  {
    hide Push, RageAfter, RageOk;
    var a := if mark == None then s else Push(cfg, s, env, "click", ClickProps(cfg, mark.value, s.screen));
    if mark.Some? { PushRage(cfg, s, env, "click", ClickProps(cfg, mark.value, s.screen)); }
    ThirdClick(s.rage, target, env.now);
    EmptyRage(env.now);
  }

  lemma {:induction false} EmptyRage(now: nat)
    ensures RageOk(Rage(None, []), now)
  {}

  lemma {:induction false} DepthsRage(cfg: Config, s: State, env: Env, percent: real, k: nat)
    requires k <= 4
    ensures Depths(cfg, s, env, percent, k).rage == s.rage
  {
    hide Push;
    if k > 0 {
      DepthsRage(cfg, s, env, percent, k - 1);
      var a, d := Depths(cfg, s, env, percent, k - 1), DepthAt(k - 1);
      PushRage(cfg, a.(depthSent := a.depthSent + {d}), env, "scroll", map["path" := Str(a.screen), "depth" := Num(d)]);
    }
  }

  lemma {:induction false} FlushRage(cfg: Config, s: State, env: Env, leaving: bool)
    ensures Flush(cfg, s, env, leaving).rage == s.rage
  {
    hide Mine, Split, LeaveFrom, Items;
  }

  lemma {:induction false} EmitRage(cfg: Config, s: State, env: Env, from: nat)
    ensures EmitEngaged(cfg, s, env, from).rage == s.rage
  {
    hide Push, Gain, NewItem;
    PushRage(cfg, Tick(s, env).(engagedMs := 0), env, "engaged", EngagedProps(cfg, s.screen, Rounded(Tick(s, env).engagedMs)));
  }

  lemma {:induction false} RageStep(cfg: Config, s: State, call: Call, env: Env, start: nat)
    requires RageOk(s.rage, env.now)
    ensures RageOk(Step(cfg, s, call, env, start).rage, env.now)
  {
    hide RageOk, EmitEngaged, Flush, Push, OnClick, Depths, Gain;
    var from := Since(s, start);
    EmitRage(cfg, s, env, from);
    FlushRage(cfg, EmitEngaged(cfg, s, env, from), env, true);
    match call
    case View(name, extra, newPv) =>
      EmptyRage(env.now);
      var b := EmitEngaged(cfg, s, env, from).(pv := newPv, screen := cfg.route(name), depthSent := {}, rage := Rage(None, []),
                  lastActive := env.now, lastTick := LastTickNow(env));
      PushRage(cfg, b, env, if cfg.site then "page_view" else "screen_view", extra[Place(cfg) := Str(b.screen)]);
    case Click(mark, target, tag) => ClickRage(cfg, s, env, mark, target, tag);
    case Scroll(percent) => if percent.Some? { DepthsRage(cfg, s, env, percent.value, 4); }
    case Timer => FlushRage(cfg, Tick(s, env), env, false);
    case Track(event, props) => PushRage(cfg, s, env, event, props);
    case FlushNow => FlushRage(cfg, s, env, false);
    case _ =>
  }

  lemma {:induction false} RageRuns(cfg: Config, env0: Env, pv0: string, h: History)
    requires Possible(env0, h)
    ensures RageOk(Run(cfg, env0, pv0, h).rage, Last(env0, h).now)
  {
    hide RageOk, Step;
    EmptyRage(env0.now);
    if h != [] {
      var front, e := h[..|h|-1], h[|h|-1];
      RageRuns(cfg, env0, pv0, front);
      RageLater(Run(cfg, env0, pv0, front).rage, Last(env0, front).now, e.env.now);
      RageStep(cfg, Run(cfg, env0, pv0, front), e.call, e.env, env0.now);
    }
  }
}
