/**
 * Bulk moderation of plugins from the plugin list table (the `load-edit.php`
 * hook of the plugin directory's admin customisations).
 *
 * The request names an action twice (`action` and `action2`, the two bulk
 * dropdowns). The first whitelisted action that either names is chosen, and
 * a fixed rule table maps it to a capability, the statuses a post may have
 * to be fetched, and either a new status or the reviewer meta to write. The
 * rule is applied to every fetched post the user may act on; the report
 * counts the posts whose last write succeeded.
 */
module PluginBulkActions {
  import opened PhpArrays
  import opened WordPress

  datatype Action = Open | Close | Disable | Reject | Assign

  /** The whitelist, in the order `array_intersect` keeps it. */
  const Actions: seq<Action> := [Open, Close, Disable, Reject, Assign]

  function ActionName(a: Action): string {
    match a
    case Open => "plugin_open"
    case Close => "plugin_close"
    case Disable => "plugin_disable"
    case Reject => "plugin_reject"
    case Assign => "plugin_assign"
  }

  /** The position of an action in the whitelist. */
  function Rank(a: Action): (i: nat)
    ensures i < |Actions| && Actions[i] == a
  {
    match a
    case Open => 0
    case Close => 1
    case Disable => 2
    case Reject => 3
    case Assign => 4
  }

  /** `$_REQUEST[name]`, absent when the request does not carry it. */
  function Field(request: map<string, string>, name: string): Option<string> {
    if name in request then Some(request[name]) else None
  }

  predicate Requested(a: Action, action: string, action2: string) {
    ActionName(a) == action || ActionName(a) == action2
  }

  /** `array_shift( array_intersect( candidates, [ action, action2 ] ) )`. */
  function FirstRequested(candidates: seq<Action>, action: string, action2: string): (r: Option<Action>)
    ensures r.Some? ==> Requested(r.value, action, action2)
    ensures r.Some? ==> exists i :: 0 <= i < |candidates| && candidates[i] == r.value &&
                          forall j :: 0 <= j < i ==> !Requested(candidates[j], action, action2)
    ensures r.None? ==> forall i :: 0 <= i < |candidates| ==> !Requested(candidates[i], action, action2)
  {
    if candidates == [] then None
    else if Requested(candidates[0], action, action2) then Some(candidates[0])
    else
      var r := FirstRequested(candidates[1..], action, action2);
      assert r.Some? ==> exists i :: 0 <= i < |candidates| && candidates[i] == r.value &&
                          forall j :: 0 <= j < i ==> !Requested(candidates[j], action, action2) by {
        if r.Some? {
          var i :| 0 <= i < |candidates[1..]| && candidates[1..][i] == r.value &&
                   forall j :: 0 <= j < i ==> !Requested(candidates[1..][j], action, action2);
          assert forall j :: 1 <= j < i + 1 ==> candidates[j] == candidates[1..][j - 1];
        }
      }
      r
  }

  /** The guard at the top of the hook: both dropdowns set, and the list is the plugin list. */
  predicate RequestApplies(request: map<string, string>) {
    && !EmptyString(Field(request, "action"))
    && !EmptyString(Field(request, "action2"))
    && Field(request, "post_type") == Some("plugin")
  }

  /**
   * The action the hook performs, if any. An action is chosen exactly when
   * the guard holds and one of the two dropdowns names a whitelisted action;
   * it is then the earliest whitelisted action that either dropdown names.
   */
  function ChooseAction(request: map<string, string>): (r: Option<Action>)
    ensures r.Some? ==> RequestApplies(request)
    ensures r.Some? ==> Requested(r.value, request["action"], request["action2"])
    ensures r.Some? ==> forall b :: Rank(b) < Rank(r.value) ==> !Requested(b, request["action"], request["action2"])
    ensures r.None? && RequestApplies(request) ==> forall b :: !Requested(b, request["action"], request["action2"])
  {
    if !RequestApplies(request) then None
    else
      var r := FirstRequested(Actions, request["action"], request["action2"]);
      assert r.Some? ==> forall b :: Rank(b) < Rank(r.value) ==> !Requested(b, request["action"], request["action2"]) by {
        if r.Some? {
          var i :| 0 <= i < |Actions| && Actions[i] == r.value &&
                   forall j :: 0 <= j < i ==> !Requested(Actions[j], request["action"], request["action2"]);
          assert i == Rank(r.value);
          forall b | Rank(b) < Rank(r.value) ensures !Requested(b, request["action"], request["action2"]) {
            assert Actions[Rank(b)] == b;
          }
        }
      }
      assert r.None? ==> forall b :: !Requested(b, request["action"], request["action2"]) by {
        if r.None? {
          forall b ensures !Requested(b, request["action"], request["action2"]) {
            assert Actions[Rank(b)] == b;
          }
        }
      }
      r
  }

  /**
   * One row of the rule table: the capability checked per post, the
   * statuses a post may have to be fetched (None for WordPress's 'any'),
   * the status to set, and the meta to write, in order.
   */
  datatype Rule = Rule(capability: string, from: Option<set<string>>, newStatus: Option<string>, meta: seq<(string, Value)>)

  /** The rule table; `reviewer` and `now` only feed the assignment row. */
  function RuleOf(a: Action, reviewer: int, now: int): (r: Rule)
    ensures a != Assign <==> r.newStatus.Some?
    ensures a != Assign ==> r.from.Some? && r.meta == []
    ensures a == Assign ==> r.from.None? && r.capability == "plugin_review"
    ensures a == Assign ==> r.meta == [("assigned_reviewer", Int(reviewer)), ("assigned_reviewer_time", Int(now))]
    ensures a == Open || a == Reject ==> r.newStatus.value !in r.from.value
    ensures a == Close || a == Disable ==> r.newStatus.value in r.from.value
  {
    match a
    case Open => Rule("plugin_approve", Some({"closed", "disabled"}), Some("publish"), [])
    case Close => Rule("plugin_close", Some({"closed", "disabled", "publish", "approved"}), Some("closed"), [])
    case Disable => Rule("plugin_close", Some({"closed", "disabled", "publish", "approved"}), Some("disabled"), [])
    case Reject => Rule("plugin_reject", Some({"new", "pending"}), Some("rejected"), [])
    case Assign => Rule("plugin_review", None, None, [("assigned_reviewer", Int(reviewer)), ("assigned_reviewer_time", Int(now))])
  }

  /** The statuses WordPress leaves out of `'post_status' => 'any'`. */
  const AnyExcluded: set<string> := {"trash", "auto-draft"}

  predicate StatusAllowed(from: Option<set<string>>, status: string) {
    if from.Some? then status in from.value else status !in AnyExcluded
  }

  /** The IDs `array_map( 'absint', $_REQUEST['post'] )` selects. */
  function SelectedIds(selected: seq<string>): set<int> {
    set s | s in selected :: AbsInt(s) as int
  }

  /** `get_posts`: the selected plugins whose status the rule accepts. */
  function Fetched(posts: map<int, Post>, ids: set<int>, from: Option<set<string>>): (r: set<int>)
    ensures r <= ids && r <= posts.Keys
    ensures forall id :: id in r <==> id in ids && id in posts && posts[id].postType == "plugin" && StatusAllowed(from, posts[id].status)
  {
    set id | id in ids && id in posts && posts[id].postType == "plugin" && StatusAllowed(from, posts[id].status)
  }

  /**
   * The meta entries that the writes of `entries` leave behind for post
   * `id`: each write that succeeds sets its key, and a later write of the
   * same key wins.
   */
  function Writes(id: int, entries: seq<(string, Value)>, writeOk: (int, string) -> bool): (w: map<string, Value>)
    ensures w.Keys <= set i | 0 <= i < |entries| && writeOk(id, entries[i].0) :: entries[i].0
    ensures entries != [] && writeOk(id, entries[|entries| - 1].0) ==>
              entries[|entries| - 1].0 in w && w[entries[|entries| - 1].0] == entries[|entries| - 1].1
  {
    if entries == [] then map[]
    else
      var w := Writes(id, entries[..|entries| - 1], writeOk);
      var e := entries[|entries| - 1];
      assert forall i :: 0 <= i < |entries| - 1 ==> entries[..|entries| - 1][i] == entries[i];
      if writeOk(id, e.0) then w[e.0 := e.1] else w
  }

  /**
   * What the loop body does to one fetched post the user may act on: the
   * post afterwards, and whether `$updated` ends truthy (the outcome of the
   * last write the body made).
   */
  function Effect(rule: Rule, p: Post, id: int, writeOk: (int, string) -> bool): (r: (Post, bool))
    ensures r.0.postType == p.postType && r.0.slug == p.slug
    ensures r.0.status == if rule.newStatus.Some? && writeOk(id, "post_status") then rule.newStatus.value else p.status
    ensures rule.meta == [] ==> r.0.meta == p.meta
    ensures rule.meta != [] ==> r.1 == writeOk(id, rule.meta[|rule.meta| - 1].0)
    ensures rule.meta == [] ==> r.1 == (rule.newStatus.Some? && writeOk(id, "post_status"))
  {
    var statusOk := rule.newStatus.Some? && writeOk(id, "post_status");
    var p1 := if statusOk then p.(status := rule.newStatus.value) else p;
    var updated := if rule.meta != [] then writeOk(id, rule.meta[|rule.meta| - 1].0) else statusOk;
    (p1.(meta := p1.meta + Writes(id, rule.meta, writeOk)), updated)
  }

  predicate Acts(rule: Rule, fetched: set<int>, can: (string, int) -> bool, id: int) {
    id in fetched && can(rule.capability, id)
  }

  /**
   * The store after the loop has handled the posts in `fetched`. Only those
   * the user may act on change; a status changes only to the rule's new
   * status; type and slug never change.
   */
  function BulkResult(posts: map<int, Post>, fetched: set<int>, rule: Rule, can: (string, int) -> bool,
                      writeOk: (int, string) -> bool): (r: map<int, Post>)
    ensures r.Keys == posts.Keys
    ensures forall id :: id in posts && !Acts(rule, fetched, can, id) ==> r[id] == posts[id]
    ensures forall id :: id in posts ==> r[id].postType == posts[id].postType && r[id].slug == posts[id].slug
    ensures forall id :: id in posts && r[id].status != posts[id].status ==>
              Acts(rule, fetched, can, id) && rule.newStatus == Some(r[id].status)
    ensures rule.meta == [] ==> forall id :: id in posts ==> r[id].meta == posts[id].meta
  {
    map id | id in posts :: if Acts(rule, fetched, can, id) then Effect(rule, posts[id], id, writeOk).0 else posts[id]
  }

  /** The posts the report counts. */
  function Updated(posts: map<int, Post>, fetched: set<int>, rule: Rule, can: (string, int) -> bool,
                   writeOk: (int, string) -> bool): (r: set<int>)
    requires fetched <= posts.Keys
    ensures forall id :: id in r <==> Acts(rule, fetched, can, id) && Effect(rule, posts[id], id, writeOk).1
  {
    set id | id in fetched && can(rule.capability, id) && Effect(rule, posts[id], id, writeOk).1
  }

  datatype BulkOutcome =
    | Ignored                              // the hook returned without doing anything
    | Died                                 // check_admin_referer() rejected the request
    | Fatal                                // PHP 8 threw a TypeError reading `post`
    | Reported(action: Action, count: nat) // "%s plugins <action>." was queued

  /** The rule the hook applies, when it gets as far as applying one. */
  function RequestRule(a: Action, request: map<string, string>, now: int): Rule
    requires a == Assign ==> "reviewer" in request
  {
    RuleOf(a, if a == Assign then IntVal(request["reviewer"]) else 0, now)
  }

  /**
   * `bulk_action_plugins()`. `selected` is `$_REQUEST['post']`: None when
   * the request has no `post` array, otherwise its entries (PHP's request
   * parsing gives at least one entry to any array it builds). `refererOk`
   * is the outcome of `check_admin_referer( 'bulk-posts' )`, `now` is
   * `time()`, `can` is `current_user_can` and `writeOk` whether a database
   * write of a post field or meta key succeeds.
   */
  method BulkActionPlugins(store: PostStore, request: map<string, string>, selected: Option<seq<string>>,
                           refererOk: bool, now: int, can: (string, int) -> bool, writeOk: (int, string) -> bool)
    returns (outcome: BulkOutcome)
    requires selected.Some? ==> |selected.value| > 0
    modifies store
    ensures ChooseAction(request).None? ==> outcome == Ignored && store.posts == old(store.posts)
    ensures ChooseAction(request).Some? && !refererOk ==> outcome == Died && store.posts == old(store.posts)
    ensures ChooseAction(request) == Some(Assign) && refererOk && "reviewer" !in request ==>
              outcome == Ignored && store.posts == old(store.posts)
    ensures outcome.Fatal? <==>
              ChooseAction(request).Some? && refererOk && (ChooseAction(request) == Some(Assign) ==> "reviewer" in request)
              && selected.None?
    ensures outcome.Fatal? ==> store.posts == old(store.posts)
    ensures outcome.Reported? ==>
              && ChooseAction(request) == Some(outcome.action) && refererOk && selected.Some?
              && (outcome.action == Assign ==> "reviewer" in request)
              && var rule := RequestRule(outcome.action, request, now);
                 var fetched := Fetched(old(store.posts), SelectedIds(selected.value), rule.from);
                 && store.posts == BulkResult(old(store.posts), fetched, rule, can, writeOk)
                 && outcome.count == |Updated(old(store.posts), fetched, rule, can, writeOk)|
    ensures (ChooseAction(request).Some? && refererOk && selected.Some?
             && (ChooseAction(request) == Some(Assign) ==> "reviewer" in request)) ==> outcome.Reported?
  {
    var action := ChooseAction(request);
    if action.None? {
      return Ignored;
    }
    if !refererOk {
      return Died;
    }
    var a := action.value;
    if a == Assign && "reviewer" !in request {
      return Ignored;
    }
    if selected.None? {
      return Fatal;
    }
    var rule := RequestRule(a, request, now);

    var plugins := Fetched(store.posts, SelectedIds(selected.value), rule.from);
    var closed := ApplyToFetched(store, plugins, rule, can, writeOk);
    outcome := Reported(a, closed);
  }

  /**
   * The `foreach ( $plugins as $plugin )` loop: every fetched post is
   * visited once, in no particular order; the ones the user may act on get
   * the rule, and the posts whose last write succeeded are counted.
   */
  method ApplyToFetched(store: PostStore, plugins: set<int>, rule: Rule, can: (string, int) -> bool,
                        writeOk: (int, string) -> bool) returns (closed: nat)
    requires plugins <= store.posts.Keys
    modifies store
    ensures store.posts == BulkResult(old(store.posts), plugins, rule, can, writeOk)
    ensures closed == |Updated(old(store.posts), plugins, rule, can, writeOk)|
  {
    ghost var posts0 := store.posts;
    var todo := plugins;
    ghost var done: set<int> := {};
    closed := 0;
    while todo != {}
      invariant todo <= plugins && done == plugins - todo
      invariant store.posts == BulkResult(posts0, done, rule, can, writeOk)
      invariant closed == |Updated(posts0, done, rule, can, writeOk)|
      decreases todo
    {
      var x :| x in todo;
      todo := todo - {x};
      BulkStep(posts0, plugins, done, x, rule, can, writeOk);
      if can(rule.capability, x) {
        var updated := ApplyRule(store, rule, x, writeOk);
        if updated {
          closed := closed + 1;
        }
      }
      done := done + {x};
    }
    assert done == plugins;
  }

  /**
   * The loop body for one fetched post the user may act on: the status
   * update, then the meta writes in order.
   */
  method ApplyRule(store: PostStore, rule: Rule, x: int, writeOk: (int, string) -> bool) returns (updated: bool)
    requires x in store.posts
    modifies store
    ensures store.posts == old(store.posts)[x := Effect(rule, old(store.posts)[x], x, writeOk).0]
    ensures updated == Effect(rule, old(store.posts)[x], x, writeOk).1
  {
    updated := false;
    if rule.newStatus.Some? {
      updated := store.UpdatePostStatus(x, rule.newStatus.value, writeOk(x, "post_status"));
    }
    updated := WriteMetaEntries(store, x, rule.meta, writeOk, updated);
  }

  /**
   * The inner `foreach ( $meta_data as $key => $value )`: one
   * `update_post_meta` per entry, `$updated` keeping the last outcome.
   */
  method WriteMetaEntries(store: PostStore, x: int, entries: seq<(string, Value)>, writeOk: (int, string) -> bool,
                          updatedBefore: bool) returns (updated: bool)
    requires x in store.posts
    modifies store
    ensures store.posts == old(store.posts)[x := old(store.posts)[x].(meta := old(store.posts)[x].meta + Writes(x, entries, writeOk))]
    ensures updated == if entries == [] then updatedBefore else writeOk(x, entries[|entries| - 1].0)
  {
    ghost var before := store.posts;
    ghost var meta := before[x].meta;
    assert before[x].meta + Writes(x, entries[..0], writeOk) == meta;
    updated := updatedBefore;
    var i := 0;
    while i < |entries|
      invariant 0 <= i <= |entries|
      invariant meta == before[x].meta + Writes(x, entries[..i], writeOk)
      invariant store.posts == before[x := before[x].(meta := meta)]
      invariant updated == if i == 0 then updatedBefore else writeOk(x, entries[i - 1].0)
    {
      WritesStep(before[x].meta, x, entries, i, writeOk);
      var (key, value) := entries[i];
      updated := store.UpdatePostMeta(x, key, value, writeOk(x, key));
      if writeOk(x, key) {
        meta := meta[key := value];
      }
      i := i + 1;
    }
    assert entries[..|entries|] == entries;
  }

  /** One more meta write, seen from the meta map. */
  lemma WritesStep(meta: map<string, Value>, id: int, entries: seq<(string, Value)>, i: nat, writeOk: (int, string) -> bool)
    requires i < |entries|
    ensures meta + Writes(id, entries[..i + 1], writeOk) ==
            if writeOk(id, entries[i].0)
            then (meta + Writes(id, entries[..i], writeOk))[entries[i].0 := entries[i].1]
            else meta + Writes(id, entries[..i], writeOk)
  {
    assert entries[..i + 1][..i] == entries[..i];
  }

  /** Handling one more fetched post changes the result and the count at that post only. */
  lemma BulkStep(posts: map<int, Post>, fetched: set<int>, done: set<int>, x: int, rule: Rule,
                 can: (string, int) -> bool, writeOk: (int, string) -> bool)
    requires fetched <= posts.Keys && done <= fetched && x in fetched && x !in done
    ensures BulkResult(posts, done + {x}, rule, can, writeOk) ==
            BulkResult(posts, done, rule, can, writeOk)[x := if can(rule.capability, x) then Effect(rule, posts[x], x, writeOk).0 else posts[x]]
    ensures Updated(posts, done + {x}, rule, can, writeOk) ==
            if can(rule.capability, x) && Effect(rule, posts[x], x, writeOk).1
            then Updated(posts, done, rule, can, writeOk) + {x}
            else Updated(posts, done, rule, can, writeOk)
    ensures x !in Updated(posts, done, rule, can, writeOk)
  {
    BulkResultStep(posts, done, x, rule, can, writeOk);
    UpdatedStep(posts, done, x, rule, can, writeOk);
  }

  lemma BulkResultStep(posts: map<int, Post>, done: set<int>, x: int, rule: Rule,
                       can: (string, int) -> bool, writeOk: (int, string) -> bool)
    requires x in posts && x !in done
    ensures BulkResult(posts, done + {x}, rule, can, writeOk) ==
            BulkResult(posts, done, rule, can, writeOk)[x := if can(rule.capability, x) then Effect(rule, posts[x], x, writeOk).0 else posts[x]]
  {
  }

  lemma UpdatedStep(posts: map<int, Post>, done: set<int>, x: int, rule: Rule,
                    can: (string, int) -> bool, writeOk: (int, string) -> bool)
    requires done <= posts.Keys && x in posts && x !in done
    ensures Updated(posts, done + {x}, rule, can, writeOk) ==
            if can(rule.capability, x) && Effect(rule, posts[x], x, writeOk).1
            then Updated(posts, done, rule, can, writeOk) + {x}
            else Updated(posts, done, rule, can, writeOk)
    ensures x !in Updated(posts, done, rule, can, writeOk)
  {
  }

  // ---------------------------------------------------------------------
  // Properties of the bulk action

  lemma {:induction false} SubsetCardinality<T>(a: set<T>, b: set<T>)
    requires a <= b
    ensures |a| <= |b|
  {
    if a != {} {
      var x :| x in a;
      SubsetCardinality(a - {x}, b - {x});
    }
  }

  lemma {:induction false} SelectedIdsBound(selected: seq<string>)
    ensures |SelectedIds(selected)| <= |selected|
  {
    if selected != [] {
      SelectedIdsBound(selected[1..]);
      SelectedIdsCons(selected);
    }
  }

  lemma SelectedIdsCons(selected: seq<string>)
    requires selected != []
    ensures SelectedIds(selected) == SelectedIds(selected[1..]) + {AbsInt(selected[0]) as int}
  {
    assert selected == [selected[0]] + selected[1..];
  }

  /**
   * The reported count never exceeds the number of fetched posts, which never
   * exceeds the number of distinct selected IDs, nor the number of entries
   * the request carried.
   */
  lemma CountBound(posts: map<int, Post>, selected: seq<string>, rule: Rule, can: (string, int) -> bool,
                   writeOk: (int, string) -> bool)
    ensures var fetched := Fetched(posts, SelectedIds(selected), rule.from);
            |Updated(posts, fetched, rule, can, writeOk)| <= |fetched| <= |SelectedIds(selected)| <= |selected|
  {
    var fetched := Fetched(posts, SelectedIds(selected), rule.from);
    SubsetCardinality(Updated(posts, fetched, rule, can, writeOk), fetched);
    SubsetCardinality(fetched, SelectedIds(selected));
    SelectedIdsBound(selected);
  }

  /** When every write succeeds, the count is the number of fetched posts the user may act on. */
  lemma CountWhenWritesSucceed(posts: map<int, Post>, fetched: set<int>, rule: Rule, can: (string, int) -> bool,
                               writeOk: (int, string) -> bool)
    requires fetched <= posts.Keys
    requires rule.newStatus.Some? || rule.meta != []
    requires forall id, k :: writeOk(id, k)
    ensures Updated(posts, fetched, rule, can, writeOk) == set id | id in fetched && can(rule.capability, id)
  {
  }

  /** Applying a post's rule a second time leaves it as the first application left it. */
  lemma {:induction false} EffectIdempotent(rule: Rule, p: Post, id: int, writeOk: (int, string) -> bool)
    ensures Effect(rule, Effect(rule, p, id, writeOk).0, id, writeOk).0 == Effect(rule, p, id, writeOk).0
  {
    var w := Writes(id, rule.meta, writeOk);
    assert (p.meta + w) + w == p.meta + w;
  }

  /**
   * Repeating a bulk action on the same selection changes nothing more: open
   * and reject move posts out of their own source statuses, close and
   * disable set the status they already gave, and assign rewrites the same
   * meta.
   */
  lemma {:induction false} BulkIdempotent(posts: map<int, Post>, ids: set<int>, a: Action, reviewer: int, now: int,
                                          can: (string, int) -> bool, writeOk: (int, string) -> bool)
    ensures var rule := RuleOf(a, reviewer, now);
            var once := BulkResult(posts, Fetched(posts, ids, rule.from), rule, can, writeOk);
            BulkResult(once, Fetched(once, ids, rule.from), rule, can, writeOk) == once
  {
    var rule := RuleOf(a, reviewer, now);
    var f1 := Fetched(posts, ids, rule.from);
    var once := BulkResult(posts, f1, rule, can, writeOk);
    var f2 := Fetched(once, ids, rule.from);
    var twice := BulkResult(once, f2, rule, can, writeOk);
    forall id | id in posts ensures twice[id] == once[id] {
      if Acts(rule, f2, can, id) && Acts(rule, f1, can, id) {
        EffectIdempotent(rule, posts[id], id, writeOk);
      }
    }
  }

  /**
   * Closing a selection and then opening it brings every post the close
   * fetched back to 'publish', whatever status it had among the four.
   */
  lemma CloseThenOpen(posts: map<int, Post>, ids: set<int>, can: (string, int) -> bool, writeOk: (int, string) -> bool)
    requires forall id :: writeOk(id, "post_status")
    ensures var close := RuleOf(Close, 0, 0);
            var open := RuleOf(Open, 0, 0);
            var closed := BulkResult(posts, Fetched(posts, ids, close.from), close, can, writeOk);
            var reopened := BulkResult(closed, Fetched(closed, ids, open.from), open, can, writeOk);
            forall id :: id in Fetched(posts, ids, close.from) && can("plugin_close", id) && can("plugin_approve", id) ==>
              reopened[id].status == "publish"
  {
  }

  /**
   * Assigning leaves every status as it was, and a post the user may review
   * whose two meta writes succeed ends with the reviewer and the time.
   */
  lemma AssignWritesReviewer(posts: map<int, Post>, ids: set<int>, reviewer: int, now: int,
                             can: (string, int) -> bool, writeOk: (int, string) -> bool, id: int)
    requires id in posts
    ensures var rule := RuleOf(Assign, reviewer, now);
            var r := BulkResult(posts, Fetched(posts, ids, rule.from), rule, can, writeOk);
            && r[id].status == posts[id].status
            && (Acts(rule, Fetched(posts, ids, rule.from), can, id) && writeOk(id, "assigned_reviewer") && writeOk(id, "assigned_reviewer_time") ==>
                  && "assigned_reviewer" in r[id].meta && r[id].meta["assigned_reviewer"] == Int(reviewer)
                  && "assigned_reviewer_time" in r[id].meta && r[id].meta["assigned_reviewer_time"] == Int(now))
  {
    var rule := RuleOf(Assign, reviewer, now);
    var es := rule.meta;
    assert es[..1] == [es[0]];
    assert es[..|es| - 1] == es[..1];
    var w1 := Writes(id, es[..1], writeOk);
    assert es[..1][..0] == [];
    if writeOk(id, "assigned_reviewer") {
      assert "assigned_reviewer" in w1 && w1["assigned_reviewer"] == Int(reviewer);
    }
  }
}
