/**
The settings page's transaction queue: a chain of promises that runs one save at a time, in the order they
were asked for, whatever becomes of the earlier ones.
*/
module SettingsQueue {
  import opened Wrappers
  import opened Text
  import opened Settings
  import opened AdminNormalize
  import opened AdminReplace
  import opened SettingsKeys
  import opened SettingsRoundTrip
  import opened SettledSettings

  /** How far a running save has got. */
  datatype Phase = Begun | HasRead(settings: AdminData) | HasPosted

  /** A promise; the callback of a waiting one is a save, or the one that swallows the outcome of a save. */
  datatype Promise =
    | Settled(ok: bool)
    | Waiting(on: nat, save: Option<Overrides>)
    | Running(o: Overrides, phase: Phase)

  /** All promises so far and the one that `tail` names. */
  datatype Page = Page(promises: seq<Promise>, tail: nat)

  const FRESH_PAGE := Page([Settled(true)], 0)

  /** `enqueue`: the save waits for the tail to settle either way; the new tail waits for the save. */
  function Enqueued(page: Page, o: Overrides): Page {
    var n := |page.promises|;
    Page(page.promises + [Waiting(page.tail, Some(o)), Waiting(n, None)], n + 1)
  }

  class TransactionQueue {
    var promises: seq<Promise>
    var tail: nat

    ghost function Contents(): Page
      reads this
    {
      Page(promises, tail)
    }

    constructor ()
      ensures Contents() == FRESH_PAGE
    {
      promises, tail := [Settled(true)], 0;
    }

    method Enqueue(o: Overrides) returns (queued: nat)
      modifies this
      ensures Contents() == Enqueued(old(Contents()), o)
      ensures queued < |promises| && promises[queued] == Waiting(old(tail), Some(o))
    {
      queued := |promises|;
      promises := promises + [Waiting(tail, Some(o))];
      tail := |promises|;
      promises := promises + [Waiting(queued, None)];
    }
  }

  // ---------- the event loop ----------

  /** One save as the server took it. */
  datatype Posted = Posted(promise: nat, o: Overrides, now: nat, checks: Checks)

  datatype World = World(page: Page, server: AdminData, posts: seq<Posted>)

  datatype Step =
    | Enqueue(o: Overrides)
    | Settle(p: nat)
    | Start(p: nat)
    | Read(p: nat)
    | Post(p: nat, now: nat, checks: Checks)
    | Finish(p: nat, ok: bool)

  predicate CanRun(page: Page, p: nat) {
    && p < |page.promises| && page.promises[p].Waiting?
    && page.promises[p].on < |page.promises| && page.promises[page.promises[p].on].Settled?
  }

  predicate IsRunning(page: Page, p: nat) {
    p < |page.promises| && page.promises[p].Running?
  }

  predicate Enabled(w: World, step: Step) {
    match step
    case Enqueue(_) => true
    case Settle(p) => CanRun(w.page, p) && w.page.promises[p].save.None?
    case Start(p) => CanRun(w.page, p) && w.page.promises[p].save.Some?
    case Read(p) => IsRunning(w.page, p) && w.page.promises[p].phase.Begun?
    case Post(p, _, _) => IsRunning(w.page, p) && w.page.promises[p].phase.HasRead?
    case Finish(p, _) => IsRunning(w.page, p)
  }

  function With(page: Page, p: nat, promise: Promise): Page
    requires p < |page.promises|
  {
    page.(promises := page.promises[p := promise])
  }

  /** What the server makes of one posted payload; a payload it refuses changes nothing. */
  function Answer(server: AdminData, payload: AdminData, now: nat, checks: Checks): AdminData {
    var saved := Prepare(Received(payload), server, now, checks);
    if saved.Ok? then saved.value else server
  }

  /** A save may fail at any point, before or after the server took it: that is `Finish(p, false)`. */
  function Next(w: World, step: Step): World {
    if !Enabled(w, step) then w
    else
      match step
      case Enqueue(o) => w.(page := Enqueued(w.page, o))
      case Settle(p) => w.(page := With(w.page, p, Settled(true)))
      case Start(p) => w.(page := With(w.page, p, Running(w.page.promises[p].save.value, Begun)))
      case Read(p) => w.(page := With(w.page, p, Running(w.page.promises[p].o, HasRead(Public(w.server)))))
      case Post(p, now, checks) =>
        var o := w.page.promises[p].o;
        World(With(w.page, p, Running(o, HasPosted)),
              Answer(w.server, Payload(w.page.promises[p].phase.settings, o), now, checks),
              w.posts + [Posted(p, o, now, checks)])
      case Finish(p, ok) => w.(page := With(w.page, p, Settled(ok)))
  }

  function Run(w: World, steps: seq<Step>): World
    decreases |steps|
  {
    if steps == [] then w else Run(Next(w, steps[0]), steps[1..])
  }

  // ---------- one save at a time ----------

  /** A save at every odd place, waiting for its predecessor; nothing starts before everything ahead has settled. */
  predicate Chained(page: Page) {
    && |page.promises| % 2 == 1 && page.tail == |page.promises| - 1
    && page.promises[0].Settled?
    && (forall i | 0 < i < |page.promises| && page.promises[i].Waiting? ::
          page.promises[i].on == i - 1 && (page.promises[i].save.Some? <==> i % 2 == 1))
    && (forall i, j | 0 <= i < j < |page.promises| && !page.promises[i].Settled? :: page.promises[j].Waiting?)
  }

  lemma NextIsChained(w: World, step: Step)
    requires Chained(w.page)
    ensures Chained(Next(w, step).page)
  {
    hide Public, Answer, Payload;
    if Enabled(w, step) && !step.Enqueue? {
      EarlierAreSettled(w.page, step.p);
    }
  }

  lemma EarlierAreSettled(page: Page, p: nat)
    requires Chained(page) && (CanRun(page, p) || IsRunning(page, p))
    ensures p > 0 && forall j | 0 <= j < p :: page.promises[j].Settled?
  {
    assert page.promises[p].Waiting? ==> page.promises[p - 1].Settled?;
  }

  lemma {:induction false} RunIsChained(w: World, steps: seq<Step>)
    requires Chained(w.page)
    ensures Chained(Run(w, steps).page)
    decreases |steps|
  {
    hide Next;
    if steps != [] {
      NextIsChained(w, steps[0]);
      RunIsChained(Next(w, steps[0]), steps[1..]);
    }
  }

  /** At most one save runs at any time, and only after every earlier one has finished, well or badly. */
  lemma SavesRunOneAtATime(server: AdminData, steps: seq<Step>, i: nat, j: nat)
    requires var page := Run(World(FRESH_PAGE, server, []), steps).page;
             i <= j < |page.promises| && page.promises[j].Running?
    ensures var page := Run(World(FRESH_PAGE, server, []), steps).page;
            i == j || page.promises[i].Settled?
  {
    hide Run;
    RunIsChained(World(FRESH_PAGE, server, []), steps);
  }

  /** The queue never stalls: the first save not finished is running or can start now, whatever failed before it. */
  lemma QueueNeverStalls(server: AdminData, steps: seq<Step>, i: nat)
    requires var page := Run(World(FRESH_PAGE, server, []), steps).page;
             && i < |page.promises| && !page.promises[i].Settled?
             && forall j :: 0 <= j < i ==> page.promises[j].Settled?
    ensures var page := Run(World(FRESH_PAGE, server, []), steps).page;
            IsRunning(page, i) || CanRun(page, i)
  {
    hide Run;
    RunIsChained(World(FRESH_PAGE, server, []), steps);
  }

  /** The steps that a promise still has before it. */
  function StepsLeft(promise: Promise): nat {
    match promise
    case Settled(_) => 0
    case Waiting(_, save) => if save.Some? then 4 else 1
    case Running(_, phase) => if phase.Begun? then 3 else if phase.HasRead? then 2 else 1
  }

  function AllLeft(promises: seq<Promise>): nat {
    if promises == [] then 0 else AllLeft(promises[..|promises| - 1]) + StepsLeft(promises[|promises| - 1])
  }

  lemma {:induction false} LeftAfterChange(promises: seq<Promise>, p: nat, promise: Promise)
    requires p < |promises|
    ensures AllLeft(promises[p := promise]) + StepsLeft(promises[p]) == AllLeft(promises) + StepsLeft(promise)
  {
    hide StepsLeft;
    var n := |promises| - 1;
    assert promises[p := promise][..n] == if p < n then promises[..n][p := promise] else promises[..n];
    if p < n {
      LeftAfterChange(promises[..n], p, promise);
    }
  }

  lemma LeftAfterTwo(promises: seq<Promise>, a: Promise, b: Promise)
    ensures AllLeft(promises + [a, b]) == AllLeft(promises) + StepsLeft(a) + StepsLeft(b)
  {
    assert (promises + [a, b])[..|promises| + 1] == promises + [a];
    assert (promises + [a])[..|promises|] == promises;
  }

  /**
  Every step brings the queue nearer to its end, and only a new save, five steps of work, lengthens it: since it never
  stalls, the queue runs dry however its saves turn out.
  */
  lemma EveryStepShortensTheQueue(w: World, step: Step)
    requires Enabled(w, step)
    ensures var before, after := AllLeft(w.page.promises), AllLeft(Next(w, step).page.promises);
            if step.Enqueue? then after == before + 5 else after < before
  {
    hide Public, Answer, Payload, AllLeft;
    if step.Enqueue? {
      LeftAfterTwo(w.page.promises, Waiting(w.page.tail, Some(step.o)), Waiting(|w.page.promises|, None));
    } else {
      LeftAfterChange(w.page.promises, step.p, Next(w, step).page.promises[step.p]);
    }
  }

  // ---------- no save is lost ----------

  /** The saves one after the other, each as if nothing else were going on. */
  function Sequential(server: AdminData, posts: seq<Posted>): AdminData {
    if posts == [] then server
    else
      var last := posts[|posts| - 1];
      var before := Sequential(server, posts[..|posts| - 1]);
      var saved := ScopedSave(before, last.o, last.now, last.checks);
      if saved.Ok? then saved.value else before
  }

  /** What a running save has read is what the server still holds, and the posts are in the order of the queue. */
  predicate UpToDate(w: World, start: AdminData) {
    && (forall i | 0 <= i < |w.page.promises| && w.page.promises[i].Running? && w.page.promises[i].phase.HasRead? ::
          w.page.promises[i].phase.settings == Public(w.server))
    && w.server == Sequential(start, w.posts)
    && (forall i, j :: 0 <= i < j < |w.posts| ==> w.posts[i].promise < w.posts[j].promise)
    && (forall i :: 0 <= i < |w.posts| ==> Posts(w.page, w.posts[i].promise))
  }

  /** A promise whose save has been posted. */
  predicate Posts(page: Page, p: nat) {
    p < |page.promises| && (page.promises[p].Settled? || (page.promises[p].Running? && page.promises[p].phase.HasPosted?))
  }

  lemma SequentialSteps(start: AdminData, posts: seq<Posted>, server: AdminData, post: Posted)
    requires server == Sequential(start, posts)
    ensures Sequential(start, posts + [post]) ==
            Answer(server, Payload(Public(server), post.o), post.now, post.checks)
  {
    hide Prepare, Public, Received, Payload;
    assert (posts + [post])[..|posts|] == posts;
  }

  lemma NextIsUpToDate(w: World, step: Step, start: AdminData)
    requires Chained(w.page) && UpToDate(w, start)
    ensures UpToDate(Next(w, step), start)
  {
    hide Public, Answer, Payload, Sequential;
    if step.Post? && Enabled(w, step) {
      var o := w.page.promises[step.p].o;
      SequentialSteps(start, w.posts, w.server, Posted(step.p, o, step.now, step.checks));
      forall i | 0 <= i < |w.posts|
        ensures w.posts[i].promise < step.p
      {
        var q := w.posts[i].promise;
        assert Posts(w.page, q);
      }
    }
  }

  lemma {:induction false} RunIsUpToDate(w: World, steps: seq<Step>, start: AdminData)
    requires Chained(w.page) && UpToDate(w, start)
    ensures UpToDate(Run(w, steps), start)
    decreases |steps|
  {
    hide Next, UpToDate;
    if steps != [] {
      NextIsChained(w, steps[0]);
      NextIsUpToDate(w, steps[0], start);
      RunIsUpToDate(Next(w, steps[0]), steps[1..], start);
    }
  }

  /**
  However the saves of one page interleave and fail, the server ends with the outcome of doing the posted ones
  one after the other in the order they were asked for: no save works from settings that are out of date.
  */
  lemma QueuedSavesAreSequential(server: AdminData, steps: seq<Step>)
    ensures var w := Run(World(FRESH_PAGE, server, []), steps);
            && w.server == Sequential(server, w.posts)
            && forall i, j :: 0 <= i < j < |w.posts| ==> w.posts[i].promise < w.posts[j].promise
  {
    hide Run, Sequential;
    var w := World(FRESH_PAGE, server, []);
    FreshIsUpToDate(server);
    RunIsUpToDate(w, steps, server);
  }

  lemma FreshIsUpToDate(server: AdminData)
    ensures UpToDate(World(FRESH_PAGE, server, []), server) && Chained(FRESH_PAGE)
  {
  }

  // ---------- what a queued save stored stays ----------

  /** Valid settings that normalising leaves alone, at some time of day. */
  ghost predicate IsSettled(d: AdminData, checks: Checks) {
    exists at: nat :: SettingsRoundTrip.Settled(d, at, checks)
  }

  lemma LastSave(start: AdminData, posts: seq<Posted>)
    requires posts != []
    ensures var n := |posts| - 1;
            var before := Sequential(start, posts[..n]);
            var saved := ScopedSave(before, posts[n].o, posts[n].now, posts[n].checks);
            Sequential(start, posts) == if saved.Ok? then saved.value else before
  {
    hide ScopedSave;
  }

  lemma SaveKeepsSettled(stored: AdminData, post: Posted, key: Key)
    requires IsSettled(stored, post.checks) && LeftAlone(post.o)
    ensures var saved := ScopedSave(stored, post.o, post.now, post.checks);
            saved.Ok? ==> IsSettled(saved.value, post.checks) && (!InScope(post.o, key) ==> SameAt(saved.value, stored, key))
  {
    hide ScopedSave, InScope, SameAt, SettingsRoundTrip.Settled, LeftAlone;
    if ScopedSave(stored, post.o, post.now, post.checks).Ok? {
      var at: nat :| SettingsRoundTrip.Settled(stored, at, post.checks);
      ScopedSaveStaysSettled(stored, post.o, at, post.now, post.checks);
      if !InScope(post.o, key) {
        ScopedSaveKeepsKey(stored, post.o, at, post.now, post.checks, key);
      }
    }
  }

  /** The saves of one page: every one valid for the same server, with addresses as normalising writes them. */
  ghost predicate PlainPosts(posts: seq<Posted>, checks: Checks) {
    forall k :: 0 <= k < |posts| ==> posts[k].checks == checks && LeftAlone(posts[k].o)
  }

  lemma {:induction false} StaysSettled(start: AdminData, posts: seq<Posted>, checks: Checks)
    requires IsSettled(start, checks) && PlainPosts(posts, checks)
    ensures IsSettled(Sequential(start, posts), checks)
    decreases |posts|
  {
    hide ScopedSave, IsSettled, LeftAlone, Sequential;
    if posts == [] {
      NoSaves(start);
    } else {
      var n := |posts| - 1;
      StaysSettled(start, posts[..n], checks);
      LastSave(start, posts);
      SaveKeepsSettled(Sequential(start, posts[..n]), posts[n], HostsKey);
    }
  }

  lemma NoSaves(start: AdminData)
    ensures Sequential(start, []) == start
  {
  }

  /** From settled settings, what one queued save stored under a key stays until a later save names that key. */
  lemma {:induction false} EarlierSavesStand(start: AdminData, posts: seq<Posted>, checks: Checks, i: nat, key: Key)
    requires i <= |posts| && IsSettled(start, checks) && PlainPosts(posts, checks)
    requires forall k :: i <= k < |posts| ==> !InScope(posts[k].o, key)
    ensures SameAt(Sequential(start, posts), Sequential(start, posts[..i]), key)
    decreases |posts|
  {
    hide ScopedSave, InScope, SameAt, IsSettled, Sequential, LeftAlone;
    if i == |posts| {
      assert posts[..i] == posts;
      SameAtTransitive(Sequential(start, posts), Sequential(start, posts), Sequential(start, posts), key);
    } else {
      var n := |posts| - 1;
      var front := posts[..n];
      assert front[..i] == posts[..i];
      LastSave(start, posts);
      StaysSettled(start, front, checks);
      EarlierSavesStand(start, front, checks, i, key);
      SaveKeepsSettled(Sequential(start, front), posts[n], key);
      SameAtTransitive(Sequential(start, posts), Sequential(start, front), Sequential(start, posts[..i]), key);
      SameAtTransitive(Sequential(start, front), Sequential(start, front), Sequential(start, posts[..i]), key);
    }
  }

  // ---------- the page's own copy ----------

  /** `mergeScopedSettings`: a key the answer lacks becomes undefined, here `None`. */
  function Field<V>(m: map<string, V>, key: string): Option<V> {
    if key in m then Some(m[key]) else None
  }

  method MergeScopedSettings<V>(settings: map<string, Option<V>>, keys: seq<string>, saved: map<string, V>)
    returns (r: map<string, Option<V>>)
    ensures r.Keys == settings.Keys + Names(keys)
    ensures forall k :: k in r ==> r[k] == if k in keys then Field(saved, k) else settings[k]
  {
    r := settings;
    for i := 0 to |keys|
      invariant r.Keys == settings.Keys + Names(keys[..i])
      invariant forall k :: k in r ==> r[k] == if k in keys[..i] then Field(saved, k) else settings[k]
    {
      r := r[keys[i] := Field(saved, keys[i])];
      assert keys[..i + 1] == keys[..i] + [keys[i]];
    }
    assert keys[..|keys|] == keys;
  }
}
