/**
 * The two guards that keep plugin slugs unique when a plugin is edited, and
 * the bookkeeping a slug change of an approved plugin needs: the SVN
 * repository is renamed, the committers' access rows follow the new path,
 * and the change is written to the plugin's audit log.
 */
module PluginSlugGuards {
  import opened PhpArrays
  import opened WordPress

  /** A hook either carries on with a value or stops the request with `wp_die( message )`. */
  datatype Outcome<T> = Continue(value: T) | Die(message: string)

  function AlreadyExists(slug: string): string {
    "Error: The plugin " + slug + " already exists."
  }

  /**
   * `check_existing_plugin_slug_on_inline_save()` on `wp_unique_post_slug`:
   * Quick Edit of a plugin that is not rejected dies when WordPress had to
   * change the requested slug to make it unique. Otherwise the slug WordPress
   * chose is kept.
   */
  function CheckSlugOnInlineSave(slug: string, postId: int, postStatus: string, postType: string,
                                 postParent: int, originalSlug: string): (r: Outcome<string>)
    ensures r.Continue? ==> r.value == slug
    ensures r.Die? <==> postType == "plugin" && postStatus != "rejected" && slug != originalSlug
    ensures r.Die? ==> r.message == AlreadyExists(originalSlug)
  {
    if postType != "plugin" || postStatus == "rejected" then Continue(slug)
    else if slug != originalSlug then Die(AlreadyExists(originalSlug))
    else Continue(slug)
  }

  // ---------------------------------------------------------------------
  // The rejection slug pattern `!^rejected-.+-rejected$!`

  const RejectedPrefix: string := "rejected-"
  const RejectedSuffix: string := "-rejected"

  predicate NoNewline(m: string) {
    forall i :: 0 <= i < |m| ==> m[i] != '\n'
  }

  /** `rejected-`, at least one character other than a newline (PCRE's `.`), then `-rejected`. */
  predicate RejectedCore(t: string) {
    && |t| > |RejectedPrefix| + |RejectedSuffix|
    && t[..|RejectedPrefix|] == RejectedPrefix
    && t[|t| - |RejectedSuffix|..] == RejectedSuffix
    && NoNewline(t[|RejectedPrefix|..|t| - |RejectedSuffix|])
  }

  /**
   * Whether `preg_match( '!^rejected-.+-rejected$!', s )` matches: without
   * the D modifier, `$` also matches just before a final newline.
   */
  predicate IsRejectionSlug(s: string) {
    RejectedCore(s) || (|s| > 0 && s[|s| - 1] == '\n' && RejectedCore(s[..|s| - 1]))
  }

  /** The same pattern stated by what it matches: some middle part wrapped in the two fixed words. */
  ghost predicate RejectionSlugSpec(s: string) {
    exists m :: m != [] && NoNewline(m) &&
      (s == RejectedPrefix + m + RejectedSuffix || s == RejectedPrefix + m + RejectedSuffix + "\n")
  }

  lemma {:induction false} RejectedCoreMeaning(t: string)
    ensures RejectedCore(t) <==> exists m :: m != [] && NoNewline(m) && t == RejectedPrefix + m + RejectedSuffix
  {
    var p, q := |RejectedPrefix|, |RejectedSuffix|;
    if RejectedCore(t) {
      var m := t[p..|t| - q];
      assert t == t[..p] + t[p..|t| - q] + t[|t| - q..];
      assert m != [] && NoNewline(m) && t == RejectedPrefix + m + RejectedSuffix;
    }
    if exists m :: m != [] && NoNewline(m) && t == RejectedPrefix + m + RejectedSuffix {
      var m :| m != [] && NoNewline(m) && t == RejectedPrefix + m + RejectedSuffix;
      assert t[..p] == RejectedPrefix;
      assert t[|t| - q..] == RejectedSuffix;
      assert t[p..|t| - q] == m;
    }
  }

  /** The matcher accepts exactly the slugs the reference definition describes. */
  lemma {:induction false} RejectionSlugMeaning(s: string)
    ensures IsRejectionSlug(s) <==> RejectionSlugSpec(s)
  {
    RejectedCoreMeaning(s);
    if |s| > 0 {
      RejectedCoreMeaning(s[..|s| - 1]);
    }
    if RejectionSlugSpec(s) {
      var m :| m != [] && NoNewline(m) &&
        (s == RejectedPrefix + m + RejectedSuffix || s == RejectedPrefix + m + RejectedSuffix + "\n");
      if s != RejectedPrefix + m + RejectedSuffix {
        assert s[..|s| - 1] == RejectedPrefix + m + RejectedSuffix;
      }
    }
    if IsRejectionSlug(s) && !RejectedCore(s) {
      var m :| m != [] && NoNewline(m) && s[..|s| - 1] == RejectedPrefix + m + RejectedSuffix;
      assert s == s[..|s| - 1] + "\n";
    }
  }

  /** A slug change is logged unless one of the two slugs is a rejection slug. */
  predicate LogsSlugChange(oldSlug: string, newSlug: string) {
    oldSlug != newSlug && !IsRejectionSlug(oldSlug) && !IsRejectionSlug(newSlug)
  }

  // ---------------------------------------------------------------------
  // The SVN access table and the audit log

  /** A row of the `svn_access` table: who may commit where. */
  datatype AccessRow = AccessRow(path: string, user: string, access: string)

  /** An entry `Tools::audit_log` adds to a plugin's log. */
  datatype AuditEntry =
    | RenameFailed(postId: int, message: string)
    | Renamed(postId: int, revision: int)
    | SlugChanged(postId: int, fromSlug: string, toSlug: string)

  /** What `SVN::rename` reports: the exported error list when it failed, and the new revision. */
  datatype RenameResult = RenameResult(errors: Option<string>, revision: int)

  /** The fields of the `$data` array the guard reads; it returns the array as it came. */
  datatype PostData = PostData(postType: string, postName: string)

  /**
   * `$wpdb->update( svn_access, [ 'path' => to ], [ 'path' => from ] )`: the
   * rows on `from` move to `to`; every other row and every other column
   * stays as it was.
   */
  function MovePaths(rows: seq<AccessRow>, from: string, to: string): (r: seq<AccessRow>)
    ensures |r| == |rows|
    ensures forall i :: 0 <= i < |rows| ==> r[i].user == rows[i].user && r[i].access == rows[i].access
    ensures forall i :: 0 <= i < |rows| && rows[i].path != from ==> r[i] == rows[i]
    ensures forall i :: 0 <= i < |rows| && rows[i].path == from ==> r[i].path == to
  {
    seq(|rows|, i requires 0 <= i < |rows| => if rows[i].path == from then rows[i].(path := to) else rows[i])
  }

  /**
   * Renaming back undoes a rename, as long as no row was on the new path
   * before (the directory does not hold the new slug yet).
   */
  lemma MovePathsRoundTrip(rows: seq<AccessRow>, from: string, to: string)
    requires forall i :: 0 <= i < |rows| ==> rows[i].path != to
    ensures MovePaths(MovePaths(rows, from, to), to, from) == rows
  {
    var back := MovePaths(MovePaths(rows, from, to), to, from);
    assert |back| == |rows|;
    forall i | 0 <= i < |rows| ensures back[i] == rows[i] {
    }
  }

  /** The plugin directory's own records that the post-update guard writes. */
  class DirectoryRecords {
    var svnAccess: seq<AccessRow>
    var auditLog: seq<AuditEntry>

    constructor (svnAccess: seq<AccessRow>, auditLog: seq<AuditEntry>)
      ensures this.svnAccess == svnAccess && this.auditLog == auditLog
    {
      this.svnAccess := svnAccess;
      this.auditLog := auditLog;
    }

    /** `Tools::audit_log( entry, post_id )`. */
    method AuditLog(entry: AuditEntry)
      modifies this
      ensures auditLog == old(auditLog) + [entry] && svnAccess == old(svnAccess)
    {
      auditLog := auditLog + [entry];
    }

    /** The committers' rows follow the repository from `/from` to `/to`. */
    method MoveAccess(from: string, to: string)
      modifies this
      ensures svnAccess == MovePaths(old(svnAccess), "/" + from, "/" + to) && auditLog == old(auditLog)
    {
      svnAccess := MovePaths(svnAccess, "/" + from, "/" + to);
    }
  }

  function RenameErrorMessage(errors: string): string {
    "Error renaming SVN repository: " + errors
  }

  /**
   * `check_existing_plugin_slug_on_post_update()` on `wp_insert_post_data`.
   * `postId` is `$postarr['ID']` when set, `posts` what `get_post` can find,
   * `slugOwner` the ID of the plugin `get_plugin_post( new slug )` finds, and
   * `rename` what `SVN::rename` would report for this request.
   */
  method CheckSlugOnPostUpdate(records: DirectoryRecords, data: PostData, postId: Option<int>, posts: map<int, Post>,
                               slugOwner: Option<int>, rename: RenameResult) returns (r: Outcome<PostData>)
    modifies records
    // Not a plugin, no ID, or no such post: nothing to check.
    ensures !(data.postType == "plugin" && postId.Some? && postId.value in posts) ==>
              r == Continue(data) && records.svnAccess == old(records.svnAccess) && records.auditLog == old(records.auditLog)
    // Another plugin already has the new slug: the request dies before anything is written.
    ensures data.postType == "plugin" && postId.Some? && postId.value in posts &&
            slugOwner.Some? && slugOwner.value != postId.value ==>
              r == Die(AlreadyExists(data.postName)) &&
              records.svnAccess == old(records.svnAccess) && records.auditLog == old(records.auditLog)
    // An approved plugin whose repository rename fails: the failure is logged, then the request dies.
    ensures data.postType == "plugin" && postId.Some? && postId.value in posts &&
            !(slugOwner.Some? && slugOwner.value != postId.value) &&
            posts[postId.value].status == "approved" && rename.errors.Some? ==>
              r == Die(RenameErrorMessage(rename.errors.value)) &&
              records.svnAccess == old(records.svnAccess) &&
              records.auditLog == old(records.auditLog) + [RenameFailed(postId.value, RenameErrorMessage(rename.errors.value))]
    // Otherwise the data goes through; the access rows move only for an approved plugin,
    // and the slug change is logged unless it involves a rejection slug.
    ensures data.postType == "plugin" && postId.Some? && postId.value in posts &&
            !(slugOwner.Some? && slugOwner.value != postId.value) &&
            !(posts[postId.value].status == "approved" && rename.errors.Some?) ==>
              var id, oldSlug, approved := postId.value, posts[postId.value].slug, posts[postId.value].status == "approved";
              && r == Continue(data)
              && records.svnAccess == (if approved then MovePaths(old(records.svnAccess), "/" + oldSlug, "/" + data.postName)
                                       else old(records.svnAccess))
              && records.auditLog == old(records.auditLog)
                                     + (if approved then [Renamed(id, rename.revision)] else [])
                                     + (if LogsSlugChange(oldSlug, data.postName) then [SlugChanged(id, oldSlug, data.postName)] else [])
  {
    if data.postType != "plugin" || postId.None? {
      return Continue(data);
    }
    if postId.value !in posts {
      return Continue(data);
    }
    var id := postId.value;
    var plugin := posts[id];
    var oldSlug := plugin.slug;
    var newSlug := data.postName;

    if slugOwner.Some? && slugOwner.value != id {
      return Die(AlreadyExists(newSlug));
    }

    if plugin.status == "approved" {
      if rename.errors.Some? {
        var error := RenameErrorMessage(rename.errors.value);
        records.AuditLog(RenameFailed(id, error));
        return Die(error);
      } else {
        records.AuditLog(Renamed(id, rename.revision));
        records.MoveAccess(oldSlug, newSlug);
      }
    }

    if oldSlug != newSlug {
      if !IsRejectionSlug(oldSlug) && !IsRejectionSlug(newSlug) {
        records.AuditLog(SlugChanged(id, oldSlug, newSlug));
      }
    }
    return Continue(data);
  }
}
