/**
 * The plugin directory's smaller admin filters: which row actions an
 * internal note offers, the status labels in the plugins list table, the
 * status notice on the edit screen, and the changes to the main admin query
 * (`pre_get_posts`).
 */
module PluginAdminFilters {
  import opened PhpArrays
  import opened WordPress

  // ---------------------------------------------------------------------
  // custom_comment_row_actions

  /** The row actions an internal note keeps, depending on `current_user_can( 'manage_comments' )`. */
  function AllowedNoteActions(canManageComments: bool): set<string> {
    if canManageComments then {"reply", "trash", "untrash", "quickedit"} else {"reply"}
  }

  /**
   * On the single-plugin screen (`mode=single`) an internal note offers only
   * Reply, plus Trash, Untrash and Quick Edit to comment moderators; the
   * actions kept stay in their order. Every other comment keeps all its actions.
   */
  function CommentRowActions(actions: seq<(string, string)>, commentType: string, mode: Option<string>,
                             canManageComments: bool): (r: seq<(string, string)>)
    ensures !(commentType == "internal-note" && mode == Some("single")) ==> r == actions
    ensures commentType == "internal-note" && mode == Some("single") ==>
              && IsSubsequence(r, actions)
              && (forall k :: HasKey(r, k) <==> HasKey(actions, k) && (k == "reply" || (canManageComments && k in {"trash", "untrash", "quickedit"})))
    ensures DistinctKeys(actions) ==> DistinctKeys(r)
  {
    if commentType == "internal-note" && mode == Some("single") then
      RestrictKeys(actions, AllowedNoteActions(canManageComments))
    else
      actions
  }

  /** Filtering the row actions a second time changes nothing. */
  lemma CommentRowActionsIdempotent(actions: seq<(string, string)>, commentType: string, mode: Option<string>,
                                    canManageComments: bool)
    ensures var once := CommentRowActions(actions, commentType, mode, canManageComments);
            CommentRowActions(once, commentType, mode, canManageComments) == once
  {
    var once := CommentRowActions(actions, commentType, mode, canManageComments);
    if commentType == "internal-note" && mode == Some("single") {
      RestrictKeysAllowed(once, AllowedNoteActions(canManageComments));
    }
  }

  // ---------------------------------------------------------------------
  // post_states

  const UnknownReason: string := "Unknown"

  function WithCloseReason(states: seq<(string, string)>, closeReason: string): seq<(string, string)> {
    if closeReason != UnknownReason then Put(states, "reason", closeReason) else states
  }

  function WithRejectionReason(states: seq<(string, string)>, rejectionReason: string,
                               rejectionReasons: map<string, string>): seq<(string, string)> {
    if Truthy(Str(rejectionReason)) then
      Put(states, "reason", if rejectionReason in rejectionReasons then rejectionReasons[rejectionReason] else "")
    else
      states
  }

  /**
   * The display states of a plugin in the list table. `requestStatus` is
   * `$_REQUEST['post_status']` ('' when unset), `closeReason` what
   * `Template::get_close_reason` gives for the post, `rejectionReason` its
   * `_rejection_reason` meta and `rejectionReasons` the known reasons'
   * labels (`Template::get_rejection_reasons()`).
   */
  function PostStates(states: seq<(string, string)>, postStatus: string, requestStatus: string, closeReason: string,
                      rejectionReason: string, rejectionReasons: map<string, string>): (r: seq<(string, string)>)
    // Only the four directory statuses get a label, and an approved plugin none on the Approved view.
    ensures postStatus !in {"disabled", "closed", "rejected", "approved"} ==> r == states
    ensures postStatus == "approved" && requestStatus == "approved" ==> r == states
    // The states already there keep their place; at most a label and a reason are added.
    ensures |states| <= |r| <= |states| + 2
    ensures forall i :: 0 <= i < |states| ==> r[i].0 == states[i].0
    ensures DistinctKeys(states) ==> DistinctKeys(r)
  {
    if postStatus == "disabled" then
      WithCloseReason(Put(states, "disabled", "Disabled"), closeReason)
    else if postStatus == "closed" then
      WithCloseReason(Put(states, "closed", "Closed"), closeReason)
    else if postStatus == "rejected" then
      WithRejectionReason(Put(states, "rejected", "Rejected"), rejectionReason, rejectionReasons)
    else if postStatus == "approved" && requestStatus != "approved" then
      Put(states, "approved", "Approved")
    else
      states
  }

  /** The states with `key` set to `text` and then, when there is one, `reason` set. */
  function Labelled(states: seq<(string, string)>, key: string, text: string, reason: Option<string>): seq<(string, string)> {
    var labelled := Put(states, key, text);
    if reason.Some? then Put(labelled, "reason", reason.value) else labelled
  }

  /** Setting a status label and then, maybe, the reason: how every state reads afterwards. */
  lemma {:induction false} LabelAndReason(states: seq<(string, string)>, key: string, text: string, reason: Option<string>)
    requires DistinctKeys(states) && key != "reason"
    ensures ReadsAsLabelled(Labelled(states, key, text, reason), states, key, Some(text), reason)
  {
    var labelled := Put(states, key, text);
    forall k ensures Lookup(labelled, k) == if k == key then Some(text) else Lookup(states, k) {
      PutLookup(states, key, text, k);
    }
    if reason.Some? {
      forall k ensures Lookup(Put(labelled, "reason", reason.value), k) ==
                         if k == "reason" then Some(reason.value) else Lookup(labelled, k) {
        PutLookup(labelled, "reason", reason.value, k);
      }
    }
  }

  /** The label a plugin in `postStatus` should show, listed under `requestStatus`. */
  function StatusLabel(postStatus: string, requestStatus: string): Option<string> {
    match postStatus
    case "disabled" => Some("Disabled")
    case "closed" => Some("Closed")
    case "rejected" => Some("Rejected")
    case "approved" => if requestStatus == "approved" then None else Some("Approved")
    case _ => None
  }

  /**
   * The reason shown beside the label: a known close reason for a disabled
   * or closed plugin, and for a rejected one with a rejection reason the
   * reason's text ('' when the reason is not a known one).
   */
  function StatusReason(postStatus: string, closeReason: string, rejectionReason: string,
                        rejectionReasons: map<string, string>): Option<string> {
    if postStatus in {"disabled", "closed"} && closeReason != UnknownReason then Some(closeReason)
    else if postStatus == "rejected" && rejectionReason != "" && rejectionReason != "0" then
      Some(if rejectionReason in rejectionReasons then rejectionReasons[rejectionReason] else "")
    else None
  }

  /** How every state reads after `PostStates`, given the label and reason it should add. */
  ghost predicate ReadsAsLabelled(r: seq<(string, string)>, states: seq<(string, string)>, key: string,
                                  text: Option<string>, reason: Option<string>) {
    forall k :: Lookup(r, k) == if k == key && text.Some? then text
                                else if k == "reason" && reason.Some? then reason
                                else Lookup(states, k)
  }

  /**
   * The states afterwards: the plugin's status carries its label when it has
   * one, `reason` its reason when it has one, and every other state reads as before.
   */
  lemma {:induction false} PostStatesLabels(states: seq<(string, string)>, postStatus: string, requestStatus: string,
                                            closeReason: string, rejectionReason: string,
                                            rejectionReasons: map<string, string>)
    requires DistinctKeys(states)
    ensures ReadsAsLabelled(PostStates(states, postStatus, requestStatus, closeReason, rejectionReason, rejectionReasons),
                            states, postStatus, StatusLabel(postStatus, requestStatus),
                            StatusReason(postStatus, closeReason, rejectionReason, rejectionReasons))
  {
    var text := StatusLabel(postStatus, requestStatus);
    var reason := StatusReason(postStatus, closeReason, rejectionReason, rejectionReasons);
    if text.Some? {
      LabelledStates(states, postStatus, requestStatus, closeReason, rejectionReason, rejectionReasons);
      LabelAndReason(states, postStatus, text.value, reason);
    }
  }

  /** A status with a label: the states are the labelled ones. */
  lemma LabelledStates(states: seq<(string, string)>, postStatus: string, requestStatus: string,
                       closeReason: string, rejectionReason: string, rejectionReasons: map<string, string>)
    requires StatusLabel(postStatus, requestStatus).Some?
    ensures PostStates(states, postStatus, requestStatus, closeReason, rejectionReason, rejectionReasons) ==
            Labelled(states, postStatus, StatusLabel(postStatus, requestStatus).value,
                     StatusReason(postStatus, closeReason, rejectionReason, rejectionReasons))
  {
  }

  // ---------------------------------------------------------------------
  // add_post_status_notice

  /** The kinds of admin notice the hook shows. */
  datatype NoticeKind = Info | Warning | Error | Updated

  /** The CSS class each kind is printed with. */
  function CssClass(kind: NoticeKind): string {
    match kind
    case Info => "notice-info"
    case Warning => "notice-warning"
    case Error => "notice-error"
    case Updated => "updated"
  }

  /** An admin notice: its kind and its text. */
  datatype Notice = Notice(kind: NoticeKind, message: string)

  /** The text of each status notice. */
  const NewMessage: string := "This plugin is newly requested and has not yet been reviewed."
  const PendingMessage: string := "This plugin has been reviewed and is currently waiting on developer feedback."
  const RejectedMessage: string := "This plugin has been rejected and is not visible to the public."
  const ApprovedMessage: string := "This plugin is approved and awaiting data upload. It is not yet visible to the public."
  const ClosedMessage: string := "This plugin has been closed and is no longer available for download."
  const DisabledMessage: string := "This plugin is disabled (closed, but actively serving updates)."

  const NoticeStatuses: set<string> := {"new", "pending", "rejected", "approved", "closed", "disabled"}

  /**
   * The notice on the plugin edit screen (`post.php`) for the current post's
   * status; `status` is None when `get_post_status()` finds no post.
   */
  function PostStatusNotice(pagenow: string, status: Option<string>): (r: Option<Notice>)
    ensures r.Some? <==> pagenow == "post.php" && status.Some? && status.value in NoticeStatuses
    ensures r.Some? ==> r.value.message != []
    // Errors for plugins the public cannot get, warnings for the ones waiting on someone.
    ensures r.Some? ==> (r.value.kind == Error <==> status.value in {"rejected", "closed"})
    ensures r.Some? ==> (r.value.kind == Warning <==> status.value in {"pending", "disabled"})
    ensures r.Some? ==> (r.value.kind == Updated <==> status.value == "approved")
  {
    if pagenow != "post.php" || status.None? then None
    else match status.value
      case "new" => Some(Notice(Info, NewMessage))
      case "pending" => Some(Notice(Warning, PendingMessage))
      case "rejected" => Some(Notice(Error, RejectedMessage))
      case "approved" => Some(Notice(Updated, ApprovedMessage))
      case "closed" => Some(Notice(Error, ClosedMessage))
      case "disabled" => Some(Notice(Warning, DisabledMessage))
      case _ => None
  }

  // ---------------------------------------------------------------------
  // pre_get_posts

  /** The statuses the plugins list shows when the request names none. */
  const ListedStatuses: seq<string> := ["publish", "future", "new", "pending", "disabled", "closed", "rejected", "approved"]

  /** The meta keys the plugins list can be ordered by. */
  const OrderbyMetaKeys: seq<string> := ["assigned_reviewer_time", "_submitted_date", "_submitted_zip_loc", "_submitted_zip_size"]

  /** A PHP list of strings: keys 0, 1, 2, ... */
  function StringList(xs: seq<string>): (v: Value)
    ensures v.Arr? && |v.entries| == |xs|
    ensures forall i :: 0 <= i < |xs| ==> v.entries[i] == (IntKey(i), Str(xs[i]))
  {
    Arr(seq(|xs|, i requires 0 <= i < |xs| => (IntKey(i), Str(xs[i]))))
  }

  /** `intval( v )` for a request value. */
  function IntValOf(v: Value): int {
    match v
    case Null => 0
    case Bool(b) => if b then 1 else 0
    case Int(n) => n
    case Str(s) => IntVal(s)
    case Arr(e) => if e == [] then 0 else 1
  }

  /** Whether `strlen( v )` is non-zero; None when PHP 8 throws a TypeError (an array). */
  function StrlenNonZero(v: Value): (r: Option<bool>)
    ensures r.None? <==> v.Arr?
    ensures v.Str? ==> r == Some(v.s != [])
  {
    match v
    case Null => Some(false)
    case Bool(b) => Some(b)
    case Int(_) => Some(true)
    case Str(s) => Some(s != [])
    case Arr(_) => None
  }

  /** The meta query clause for `reviewer=n`; reviewer 0 asks for plugins nobody is assigned to. */
  function ReviewerClause(n: int): (c: Value)
    ensures c.Arr? && DistinctKeys(c.entries)
    ensures Lookup(c.entries, StrKey("key")) == Some(Str("assigned_reviewer"))
    ensures Lookup(c.entries, StrKey("value")) == Some(Int(n))
    ensures Lookup(c.entries, StrKey("compare")) == if n == 0 then Some(Str("NOT EXISTS")) else None
  {
    var base := [(StrKey("key"), Str("assigned_reviewer")), (StrKey("value"), Int(n)), (StrKey("type"), Str("unsigned"))];
    var entries := if n == 0 then base + [(StrKey("compare"), Str("NOT EXISTS"))] else base;
    assert DistinctKeys(entries);
    assert Lookup(entries, StrKey("compare")) == if n == 0 then Some(Str("NOT EXISTS")) else None by {
      if n == 0 { LookupAt(entries, 3); } else { assert !HasKey(entries, StrKey("compare")); }
    }
    LookupAt(entries, 0);
    LookupAt(entries, 1);
    Arr(entries)
  }

  /** The meta query clause that lets the list be ordered by meta key `key`. */
  function OrderbyClause(key: string): Value {
    Arr([(StrKey("key"), Str(key)), (StrKey("type"), Str("unsigned"))])
  }

  /** The array `$value ?: []` starts from when it is not a fatal error: the entries of an array, else none. */
  function BaseEntries(v: Value): seq<(Key, Value)> {
    if v.Arr? then v.entries else []
  }

  /**
   * `$mq = $query->get( 'meta_query' ) ?: []; $mq[ key ] = clause;`. None is
   * PHP's fatal error for writing an offset into a scalar that is not empty.
   */
  function AddMetaClause(current: Value, key: string, clause: Value): (r: Option<Value>)
    ensures r.None? <==> Truthy(current) && !current.Arr?
    ensures r.Some? ==> r.value.Arr? && HasKey(r.value.entries, StrKey(key))
    ensures r.Some? && DistinctKeys(BaseEntries(current)) ==>
              && DistinctKeys(r.value.entries)
              && forall k :: Lookup(r.value.entries, k) == if k == StrKey(key) then Some(clause) else Lookup(BaseEntries(current), k)
  {
    var base := if Truthy(current) then WriteTarget(current) else Some([]);
    match base
    case None => None
    case Some(entries) =>
      assert entries == BaseEntries(current);
      assert DistinctKeys(entries) ==>
        forall k :: Lookup(Put(entries, StrKey(key), clause), k) == if k == StrKey(key) then Some(clause) else Lookup(entries, k)
      by {
        if DistinctKeys(entries) {
          forall k ensures Lookup(Put(entries, StrKey(key), clause), k) == if k == StrKey(key) then Some(clause) else Lookup(entries, k) {
            PutLookup(entries, StrKey(key), clause, k);
          }
        }
      }
      Some(Arr(Put(entries, StrKey(key), clause)))
  }

  /** The clauses of the query's `meta_query`, as `pre_get_posts` reads them. */
  function MetaClauses(vars: map<string, Value>): seq<(Key, Value)> {
    BaseEntries(GetVar(vars, "meta_query", Str("")))
  }

  /** The existing `meta_query` is something PHP cannot add an offset to. */
  predicate MetaQueryBlocked(vars: map<string, Value>) {
    Truthy(GetVar(vars, "meta_query", Str(""))) && !GetVar(vars, "meta_query", Str("")).Arr?
  }

  /** Without a status in the request, the list shows every directory status. */
  function DefaultStatuses(query: map<string, Value>, vars: map<string, Value>): (r: map<string, Value>)
    ensures forall k :: k != "post_status" ==> SameVar(r, vars, k)
    ensures Truthy(QueryArgOr(query, "post_status", Null)) ==> r == vars
    ensures !Truthy(QueryArgOr(query, "post_status", Null)) ==> "post_status" in r && r["post_status"] == StringList(ListedStatuses)
  {
    if !Truthy(QueryArgOr(query, "post_status", Null)) then vars["post_status" := StringList(ListedStatuses)] else vars
  }

  /** A reviewer searches for a valid IP address. */
  predicate IpSearchApplies(query: map<string, Value>, canReview: bool, isIp: string -> bool) {
    var s := QueryArgOr(query, "s", Null);
    canReview && s.Str? && Truthy(s) && isIp(s.s)
  }

  /** A reviewer's search for an IP address becomes a search on the `_author_ip` meta. */
  function IpSearch(query: map<string, Value>, vars: map<string, Value>, canReview: bool,
                    isIp: string -> bool): (r: map<string, Value>)
    ensures forall k :: k !in {"s", "meta_key", "meta_value"} ==> SameVar(r, vars, k)
    ensures !IpSearchApplies(query, canReview, isIp) ==> r == vars
    ensures IpSearchApplies(query, canReview, isIp) ==>
              && "s" !in r
              && "meta_key" in r && r["meta_key"] == Str("_author_ip")
              && "meta_value" in r && r["meta_value"] == (if "s" in vars then vars["s"] else Null)
  {
    if IpSearchApplies(query, canReview, isIp) then
      vars["meta_key" := Str("_author_ip")]["meta_value" := if "s" in vars then vars["s"] else Null] - {"s"}
    else vars
  }

  /** The `reviewer` argument is an array, which `strlen` rejects with a TypeError. */
  predicate ReviewerIsArray(query: map<string, Value>) {
    QueryArg(query, "reviewer").Some? && QueryArg(query, "reviewer").value.Arr?
  }

  /** `isset( reviewer ) && strlen( reviewer )`. */
  predicate ReviewerRequested(query: map<string, Value>) {
    QueryArg(query, "reviewer").Some? && StrlenNonZero(QueryArg(query, "reviewer").value) == Some(true)
  }

  /** The list is to be ordered by one of the meta keys. */
  predicate OrderbyRequested(query: map<string, Value>) {
    QueryArgOr(query, "orderby", Str("")).Str? && QueryArgOr(query, "orderby", Str("")).s in OrderbyMetaKeys
  }

  /** The reviewer filter touches only `meta_query`, and adds exactly the reviewer clause to it. */
  function ReviewerFilter(query: map<string, Value>, vars: map<string, Value>): (r: QueryEdit)
    ensures forall k :: k != "meta_query" ==> SameVar(r.vars, vars, k)
    ensures r.fatal <==> ReviewerIsArray(query) || (ReviewerRequested(query) && MetaQueryBlocked(vars))
    ensures !ReviewerRequested(query) ==> r.vars == vars
    ensures ReviewerRequested(query) && !r.fatal ==>
              && GetVar(r.vars, "meta_query", Str("")).Arr?
              && (DistinctKeys(MetaClauses(vars)) ==>
                    && DistinctKeys(MetaClauses(r.vars))
                    && forall k :: Lookup(MetaClauses(r.vars), k) ==
                         if k == StrKey("assigned_reviewer") then Some(ReviewerClause(IntValOf(query["reviewer"])))
                         else Lookup(MetaClauses(vars), k))
  {
    match QueryArg(query, "reviewer")
    case None => QueryEdit(vars, false)
    case Some(v) =>
      match StrlenNonZero(v)
      case None => QueryEdit(vars, true)
      case Some(nonEmpty) =>
        if !nonEmpty then QueryEdit(vars, false)
        else match AddMetaClause(GetVar(vars, "meta_query", Str("")), "assigned_reviewer", ReviewerClause(IntValOf(v)))
          case None => QueryEdit(vars, true)
          case Some(mq) => QueryEdit(vars["meta_query" := mq], false)
  }

  /** The ordering filter touches only `meta_query`, and adds exactly the ordering clause to it. */
  function OrderbyFilter(query: map<string, Value>, vars: map<string, Value>): (r: QueryEdit)
    ensures forall k :: k != "meta_query" ==> SameVar(r.vars, vars, k)
    ensures r.fatal <==> OrderbyRequested(query) && MetaQueryBlocked(vars)
    ensures !OrderbyRequested(query) ==> r.vars == vars
    ensures OrderbyRequested(query) && !r.fatal ==>
              var o := QueryArgOr(query, "orderby", Str("")).s;
              && GetVar(r.vars, "meta_query", Str("")).Arr?
              && (DistinctKeys(MetaClauses(vars)) ==>
                    && DistinctKeys(MetaClauses(r.vars))
                    && forall k :: Lookup(MetaClauses(r.vars), k) ==
                         if k == StrKey(o) then Some(OrderbyClause(o)) else Lookup(MetaClauses(vars), k))
  {
    match QueryArgOr(query, "orderby", Str(""))
    case Str(o) =>
      if o in OrderbyMetaKeys then
        match AddMetaClause(GetVar(vars, "meta_query", Str("")), o, OrderbyClause(o))
        case None => QueryEdit(vars, true)
        case Some(mq) => QueryEdit(vars["meta_query" := mq], false)
      else QueryEdit(vars, false)
    case _ => QueryEdit(vars, false)
  }

  /** The keys `pre_get_posts` may write. */
  const EditedVars: set<string> := {"post_status", "meta_key", "meta_value", "s", "meta_query"}

  /**
   * `pre_get_posts` as a function of the request arguments and the query
   * variables before it ran; `canReview` is `current_user_can( 'plugin_review' )`
   * and `isIp` stands for `filter_var( s, FILTER_VALIDATE_IP )`.
   */
  function PreGetPostsEdit(query: map<string, Value>, vars: map<string, Value>, isMain: bool, canReview: bool,
                           isIp: string -> bool): (r: QueryEdit)
    ensures !isMain ==> r == QueryEdit(vars, false)
    ensures forall k :: k !in EditedVars ==> SameVar(r.vars, vars, k)
  {
    if !isMain then QueryEdit(vars, false)
    else
      var statuses := DefaultStatuses(query, vars);
      var searched := IpSearch(query, statuses, canReview, isIp);
      var reviewer := ReviewerFilter(query, searched);
      var r := if reviewer.fatal then reviewer else OrderbyFilter(query, reviewer.vars);
      assert forall k :: k !in EditedVars ==> SameVar(r.vars, vars, k) by {
        forall k | k !in EditedVars ensures SameVar(r.vars, vars, k) {
          assert SameVar(statuses, vars, k);
          assert SameVar(searched, statuses, k);
          assert SameVar(reviewer.vars, searched, k);
          assert SameVar(r.vars, reviewer.vars, k);
        }
      }
      r
  }

  /**
   * The main query dies exactly when the reviewer argument is an array, or
   * when a reviewer or an ordering meta key is asked for while the query's
   * `meta_query` is a non-empty scalar.
   */
  lemma PreGetPostsFatal(query: map<string, Value>, vars: map<string, Value>, canReview: bool, isIp: string -> bool)
    ensures PreGetPostsEdit(query, vars, true, canReview, isIp).fatal <==>
              || ReviewerIsArray(query)
              || ((ReviewerRequested(query) || OrderbyRequested(query)) && MetaQueryBlocked(vars))
  {
    var searched := IpSearch(query, DefaultStatuses(query, vars), canReview, isIp);
    MetaQueryNotSearched();
    assert SameVar(searched, vars, "meta_query");
    assert MetaQueryBlocked(searched) == MetaQueryBlocked(vars);
  }

  /** The clauses `meta_query` should hold after `pre_get_posts`, given the ones it held before. */
  ghost predicate ClausesAdded(query: map<string, Value>, before: seq<(Key, Value)>, after: seq<(Key, Value)>) {
    var o := QueryArgOr(query, "orderby", Str(""));
    && DistinctKeys(after)
    && forall k :: Lookup(after, k) ==
         if ReviewerRequested(query) && k == StrKey("assigned_reviewer") then Some(ReviewerClause(IntValOf(query["reviewer"])))
         else if OrderbyRequested(query) && k == StrKey(o.s) then Some(OrderbyClause(o.s))
         else Lookup(before, k)
  }

  lemma {:induction false} ReviewerThenOrderby(query: map<string, Value>, vars: map<string, Value>)
    requires DistinctKeys(MetaClauses(vars))
    requires !ReviewerFilter(query, vars).fatal
    requires !OrderbyFilter(query, ReviewerFilter(query, vars).vars).fatal
    ensures ClausesAdded(query, MetaClauses(vars), MetaClauses(OrderbyFilter(query, ReviewerFilter(query, vars).vars).vars))
  {
    var rev := ReviewerFilter(query, vars);
    var after := MetaClauses(OrderbyFilter(query, rev.vars).vars);
    var o := QueryArgOr(query, "orderby", Str(""));
    assert DistinctKeys(MetaClauses(rev.vars));
    forall k ensures Lookup(after, k) ==
                       if ReviewerRequested(query) && k == StrKey("assigned_reviewer") then Some(ReviewerClause(IntValOf(query["reviewer"])))
                       else if OrderbyRequested(query) && k == StrKey(o.s) then Some(OrderbyClause(o.s))
                       else Lookup(MetaClauses(vars), k)
    {
      if OrderbyRequested(query) {
        assert o.s in OrderbyMetaKeys;
        assert StrKey(o.s) != StrKey("assigned_reviewer");
      }
    }
  }

  /**
   * When the main query goes through, its `meta_query` holds the clauses it
   * held before, plus the reviewer clause when a reviewer was asked for and
   * the ordering clause when an ordering meta key was.
   */
  lemma {:induction false} PreGetPostsClauses(query: map<string, Value>, vars: map<string, Value>, canReview: bool,
                                              isIp: string -> bool)
    requires DistinctKeys(MetaClauses(vars))
    requires !PreGetPostsEdit(query, vars, true, canReview, isIp).fatal
    ensures ClausesAdded(query, MetaClauses(vars), MetaClauses(PreGetPostsEdit(query, vars, true, canReview, isIp).vars))
  {
    var searched := IpSearch(query, DefaultStatuses(query, vars), canReview, isIp);
    MetaQueryNotSearched();
    assert SameVar(searched, vars, "meta_query");
    assert MetaClauses(searched) == MetaClauses(vars);
    PreGetPostsMain(query, vars, canReview, isIp);
    ReviewerThenOrderby(query, searched);
  }

  /** Neither the status default nor the IP search touches `meta_query`. */
  lemma MetaQueryNotSearched()
    ensures "meta_query" != "post_status" && "meta_query" !in {"s", "meta_key", "meta_value"}
  {
    assert |"meta_query"| != |"post_status"| && |"meta_query"| != |"s"| && |"meta_query"| != |"meta_key"|;
    assert "meta_query"[5] != "meta_value"[5];
  }

  /** The main-query edit is the reviewer filter, then (unless that failed) the orderby filter. */
  lemma PreGetPostsMain(query: map<string, Value>, vars: map<string, Value>, canReview: bool, isIp: string -> bool)
    ensures var rev := ReviewerFilter(query, IpSearch(query, DefaultStatuses(query, vars), canReview, isIp));
            PreGetPostsEdit(query, vars, true, canReview, isIp) == if rev.fatal then rev else OrderbyFilter(query, rev.vars)
  {
  }

  /** Without a status in the request every directory status is listed; with one, the status is left alone. */
  lemma PreGetPostsStatuses(query: map<string, Value>, vars: map<string, Value>, canReview: bool, isIp: string -> bool)
    ensures var r := PreGetPostsEdit(query, vars, true, canReview, isIp).vars;
            && (!Truthy(QueryArgOr(query, "post_status", Null)) ==> "post_status" in r && r["post_status"] == StringList(ListedStatuses))
            && (Truthy(QueryArgOr(query, "post_status", Null)) ==> SameVar(r, vars, "post_status"))
  {
    var statuses := DefaultStatuses(query, vars);
    var searched := IpSearch(query, statuses, canReview, isIp);
    assert SameVar(searched, statuses, "post_status");
    var rev := ReviewerFilter(query, searched);
    assert SameVar(rev.vars, searched, "post_status");
    if !rev.fatal {
      assert SameVar(OrderbyFilter(query, rev.vars).vars, rev.vars, "post_status");
    }
  }

  /**
   * A reviewer's IP search turns the search term into a match on the
   * submitter's IP; any other search is left as it was.
   */
  lemma PreGetPostsIpSearch(query: map<string, Value>, vars: map<string, Value>, canReview: bool, isIp: string -> bool)
    ensures var r := PreGetPostsEdit(query, vars, true, canReview, isIp).vars;
            && (IpSearchApplies(query, canReview, isIp) ==>
                  && "s" !in r
                  && "meta_key" in r && r["meta_key"] == Str("_author_ip")
                  && "meta_value" in r && r["meta_value"] == (if "s" in vars then vars["s"] else Null))
            && (!IpSearchApplies(query, canReview, isIp) ==>
                  SameVar(r, vars, "s") && SameVar(r, vars, "meta_key") && SameVar(r, vars, "meta_value"))
  {
    var statuses := DefaultStatuses(query, vars);
    assert SameVar(statuses, vars, "s") && SameVar(statuses, vars, "meta_key") && SameVar(statuses, vars, "meta_value");
    var searched := IpSearch(query, statuses, canReview, isIp);
    var rev := ReviewerFilter(query, searched);
    assert SameVar(rev.vars, searched, "s") && SameVar(rev.vars, searched, "meta_key") && SameVar(rev.vars, searched, "meta_value");
    if !rev.fatal {
      var r := OrderbyFilter(query, rev.vars).vars;
      assert SameVar(r, rev.vars, "s") && SameVar(r, rev.vars, "meta_key") && SameVar(r, rev.vars, "meta_value");
    }
  }

  /** `pre_get_posts` on the query object: edits `$query->query_vars` in place. */
  method PreGetPosts(q: Query, canReview: bool, isIp: string -> bool) returns (fatal: bool)
    modifies q
    ensures QueryEdit(q.vars, fatal) == PreGetPostsEdit(q.query, old(q.vars), q.isMain, canReview, isIp)
  {
    fatal := false;
    if !q.isMain {
      return;
    }

    if !Truthy(QueryArgOr(q.query, "post_status", Null)) {
      q.vars := q.vars["post_status" := StringList(ListedStatuses)];
    }
    assert q.vars == DefaultStatuses(q.query, old(q.vars));
    ghost var statuses := q.vars;

    var s := QueryArgOr(q.query, "s", Null);
    if canReview && s.Str? && Truthy(s) && isIp(s.s) {
      var term := if "s" in q.vars then q.vars["s"] else Null;
      q.vars := q.vars["meta_key" := Str("_author_ip")]["meta_value" := term];
      q.vars := q.vars - {"s"};
    }
    assert q.vars == IpSearch(q.query, statuses, canReview, isIp);
    ghost var searched := q.vars;

    fatal := FilterByReviewer(q);
    if fatal {
      return;
    }
    fatal := OrderByMeta(q);
  }

  /** The reviewer part of `pre_get_posts`. */
  method FilterByReviewer(q: Query) returns (fatal: bool)
    modifies q
    ensures QueryEdit(q.vars, fatal) == ReviewerFilter(q.query, old(q.vars))
  {
    fatal := false;
    var reviewer := QueryArg(q.query, "reviewer");
    if reviewer.Some? {
      var nonEmpty := StrlenNonZero(reviewer.value);
      if nonEmpty.None? {
        return true;
      }
      if nonEmpty.value {
        var mq := AddMetaClause(q.Get("meta_query", Str("")), "assigned_reviewer", ReviewerClause(IntValOf(reviewer.value)));
        if mq.None? {
          return true;
        }
        q.Set("meta_query", mq.value);
      }
    }
  }

  /** The ordering part of `pre_get_posts`. */
  method OrderByMeta(q: Query) returns (fatal: bool)
    modifies q
    ensures QueryEdit(q.vars, fatal) == OrderbyFilter(q.query, old(q.vars))
  {
    fatal := false;
    var orderby := QueryArgOr(q.query, "orderby", Str(""));
    if orderby.Str? && orderby.s in OrderbyMetaKeys {
      var mq := AddMetaClause(q.Get("meta_query", Str("")), orderby.s, OrderbyClause(orderby.s));
      if mq.None? {
        return true;
      }
      q.Set("meta_query", mq.value);
    }
  }
}
