# Admin hooks of the plugin directory and the Learn site

This project models the admin-side hook callbacks of two WordPress.org plugins and proves properties of them in Dafny.

- **Plugin directory** (`plugin-directory/admin/class-customizations.php`):
  - the bulk moderation actions on the plugins list (open, close, disable, reject, assign a reviewer);
  - the two guards that keep plugin slugs unique. When an approved plugin changes slug, its SVN repository is renamed, the committers' access rows are moved, and the change goes to the audit log;
  - the row actions of internal notes;
  - the status labels and the status notice;
  - the `pre_get_posts` changes to the main admin query.
- **Learn site** (`wporg-learn/inc/admin.php`):
  - the column filters of the list tables;
  - the audience, level, language and "expired" filters, which turn into tax and meta query clauses;
  - the expiration state beside a post;
  - the bulk edit of a post's language meta.

WordPress is reduced to state and parameters:

- **State.**
  - `WordPress.PostStore` is the posts and post meta tables.
  - `WordPress.Query` is a `WP_Query` with its request arguments and its query variables.
  - `PluginSlugGuards.DirectoryRecords` is the `svn_access` table and the audit log.
- **PHP values.** PHP's ordered arrays are sequences of (key, value) entries with distinct keys (`PhpArrays`):
  - `+` is a left-biased union;
  - `$a[k] = v` replaces in place or appends;
  - `$a[] = v` appends under the next integer key.
- **Truth and failure.** PHP truthiness (`empty`, `?:`, `if`) is `Truthy`, so `"0"` is empty. An error that is fatal under PHP 8 (appending to a string, `strlen` on an array, `array_map` on a missing array) is a `fatal` result or a `Fatal` outcome. `wp_die` is a `Die` outcome.
- **Parameters.** Everything the hooks ask of code outside these files is a parameter:
  - `current_user_can`;
  - whether a database write succeeds;
  - `check_admin_referer`, `wp_verify_nonce`;
  - `filter_var` for IP addresses;
  - `strtotime`, `human_time_diff`, `time()`, `current_time`;
  - `get_plugin_post`, `SVN::rename`;
  - the close and rejection reasons.

Hooks that edit the query are specified twice. A function of the old query variables gives the new variables and whether the hook died. A method on the `Query` object is proved equal to that function. Lemmas about the function state what the edit means.

## Model

Source paths are relative to the repository root.

| member | source | states |
|---|---|---|
| PhpArrays.Union | wordpress.org/public_html/wp-content/plugins/wporg-learn/inc/admin.php:94-97 | `$a + $b` keeps `a` as its prefix, followed by a subsequence of `b` holding none of `a`'s keys. It holds exactly the keys of both, is no longer than both together, and has no duplicate key when neither operand has one. |
| PhpArrays.UnionLookup | wordpress.org/public_html/wp-content/plugins/wporg-learn/inc/admin.php:94-97 | A key of `$a + $b` reads as in `a` when `a` has it, and as in `b` otherwise. |
| PhpArrays.DropLastTakeLast | wordpress.org/public_html/wp-content/plugins/wporg-learn/inc/admin.php:94-97 | `array_slice($a, 0, -k, true)` followed by `array_slice($a, -k, k, true)` gives back `$a`. |
| PhpArrays.RestrictKeys | wordpress.org/public_html/wp-content/plugins/plugin-directory/admin/class-customizations.php:811 | `array_intersect_key` keeps exactly the allowed keys of `a`, as a subsequence of `a`, and keeps keys distinct. |
| PhpArrays.Put | wordpress.org/public_html/wp-content/plugins/wporg-learn/inc/admin.php:222 | `$a[k] = v` replaces the entry in place when `k` is present. Otherwise it appends `(k, v)`. The key set gains exactly `k`. |
| PhpArrays.PutLookup | wordpress.org/public_html/wp-content/plugins/wporg-learn/inc/admin.php:222 | After `$a[k] = v`, key `k` reads `v` and every other key reads as before. |
| PhpArrays.Push | wordpress.org/public_html/wp-content/plugins/wporg-learn/inc/admin.php:403-411 | `$a[] = v` appends under a fresh integer key above every integer key present, and keeps keys distinct. |
| PhpArrays.WriteTarget | wordpress.org/public_html/wp-content/plugins/wporg-learn/inc/admin.php:336 | Writing into a value works exactly for arrays, null and false; null and false start from an empty array. Any other value is a PHP 8 fatal error. |
| PhpArrays.IntVal | wordpress.org/public_html/wp-content/plugins/plugin-directory/admin/class-customizations.php:373 | `intval` of a string stays within the 64-bit range, and the empty string gives 0. The lemmas below say what it reads. |
| PhpArrays.IntValOfDigits | wordpress.org/public_html/wp-content/plugins/plugin-directory/admin/class-customizations.php:373 | A decimal numeral within range reads back as its own value. |
| PhpArrays.IntValSigned | wordpress.org/public_html/wp-content/plugins/plugin-directory/admin/class-customizations.php:373 | White space, a sign, digits and then text that does not start with a digit read as the signed value of the digits, saturated at the 64-bit bounds; a sign without digits reads as 0. |
| PhpArrays.IntValUnsigned | wordpress.org/public_html/wp-content/plugins/plugin-directory/admin/class-customizations.php:373 | White space, digits and then text that does not start with a digit read as the value of the digits, saturated at the 64-bit bounds. |
| PhpArrays.IntValNonNumeric | wordpress.org/public_html/wp-content/plugins/plugin-directory/admin/class-customizations.php:373 | Text that starts, after white space, with neither a sign nor a digit reads as 0. |
| WordPress.PostStore.UpdatePostStatus | wordpress.org/public_html/wp-content/plugins/plugin-directory/admin/class-customizations.php:399-402 | `wp_update_post` reports success exactly when the write succeeds. Only that post's status changes, and only then. |
| WordPress.PostStore.UpdatePostMeta | wordpress.org/public_html/wp-content/plugins/plugin-directory/admin/class-customizations.php:406 | `update_post_meta` reports success exactly when the write succeeds. Only that post's meta key changes, and only then. |
| WordPress.Query.Get | wordpress.org/public_html/wp-content/plugins/plugin-directory/admin/class-customizations.php:235 | `$query->get` is the query variable when it is set and not null, else the default. |
| WordPress.Query.Set | wordpress.org/public_html/wp-content/plugins/plugin-directory/admin/class-customizations.php:247 | `$query->set` changes that one query variable. |
| WordPress.GetVar | wordpress.org/public_html/wp-content/plugins/plugin-directory/admin/class-customizations.php:235 | The result is the default or the set, non-null variable, and it is the variable whenever that is set and not null. |
| WordPress.QueryArg | wordpress.org/public_html/wp-content/plugins/plugin-directory/admin/class-customizations.php:234 | `isset($query->query[name])` holds exactly when the argument is present and not null. |
| WordPress.QueryArgOr | wordpress.org/public_html/wp-content/plugins/plugin-directory/admin/class-customizations.php:250 | `$query->query[name] ?? default` is the argument when it is set, else the default. |
| PluginBulkActions.FirstRequested | wordpress.org/public_html/wp-content/plugins/plugin-directory/admin/class-customizations.php:324-328 | `array_shift(array_intersect(...))` finds a whitelisted action that one of the dropdowns names, and no earlier candidate is named. None means no candidate is named. |
| PluginBulkActions.ChooseAction | wordpress.org/public_html/wp-content/plugins/plugin-directory/admin/class-customizations.php:316-331 | An action is chosen only when both dropdowns are non-empty and `post_type` is `plugin`. The chosen action is named by a dropdown, and no action earlier in the whitelist is named. With the guard passed and nothing chosen, no whitelisted action is named. |
| PluginBulkActions.RuleOf | wordpress.org/public_html/wp-content/plugins/plugin-directory/admin/class-customizations.php:339-376 | Every action but assign sets a status, from a fixed source set, and writes no meta. Assign needs `plugin_review`, takes posts of any status and writes the reviewer and then the time. Open and reject move posts out of their source set; close and disable stay inside it. |
| PluginBulkActions.Fetched | wordpress.org/public_html/wp-content/plugins/plugin-directory/admin/class-customizations.php:382-390 | A post is fetched exactly when it is selected, exists, is a plugin and has a status the rule accepts. |
| PluginBulkActions.Writes | wordpress.org/public_html/wp-content/plugins/plugin-directory/admin/class-customizations.php:404-408 | The meta writes set only keys whose write succeeded, and a successful last write leaves its value. |
| PluginBulkActions.Effect | wordpress.org/public_html/wp-content/plugins/plugin-directory/admin/class-customizations.php:396-412 | For one post, type and slug never change. The status becomes the new status exactly when there is one and its write succeeds. Meta changes only under assign. `$updated` is the outcome of the last write. |
| PluginBulkActions.BulkResult | wordpress.org/public_html/wp-content/plugins/plugin-directory/admin/class-customizations.php:387-414 | Posts not fetched, or that the user may not act on, keep status and meta. A status changes only to the rule's new status. No post is added, removed or retyped. |
| PluginBulkActions.Updated | wordpress.org/public_html/wp-content/plugins/plugin-directory/admin/class-customizations.php:410-412 | A post is counted exactly when it is fetched, the user may act on it, and its last write succeeded. |
| PluginBulkActions.BulkActionPlugins | wordpress.org/public_html/wp-content/plugins/plugin-directory/admin/class-customizations.php:315-428 | Nothing changes without a chosen action, and a failed referer check dies unchanged. Assign without `reviewer` does nothing. Past those guards, a missing `post` array is a `Fatal` outcome with nothing changed. Otherwise the posts become `BulkResult` of the fetched posts, and the report carries the action and the number of updated posts. |
| PluginBulkActions.ApplyToFetched | wordpress.org/public_html/wp-content/plugins/plugin-directory/admin/class-customizations.php:392-414 | The loop over the fetched posts leaves the store at `BulkResult` and the counter at the size of `Updated`. |
| PluginBulkActions.ApplyRule | wordpress.org/public_html/wp-content/plugins/plugin-directory/admin/class-customizations.php:396-408 | The loop body changes that one post as `Effect` says, and returns `Effect`'s `$updated`. |
| PluginBulkActions.WriteMetaEntries | wordpress.org/public_html/wp-content/plugins/plugin-directory/admin/class-customizations.php:404-408 | The inner meta loop adds `Writes` to that post's meta. `$updated` is the last write's outcome, or unchanged when there is nothing to write. |
| PluginBulkActions.WritesStep | wordpress.org/public_html/wp-content/plugins/plugin-directory/admin/class-customizations.php:405-407 | One more meta write sets its key exactly when it succeeds. |
| PluginBulkActions.BulkStep | wordpress.org/public_html/wp-content/plugins/plugin-directory/admin/class-customizations.php:392-414 | Handling one more fetched post changes the result and the count at that post only. |
| PluginBulkActions.SelectedIdsBound | wordpress.org/public_html/wp-content/plugins/plugin-directory/admin/class-customizations.php:384-385 | The distinct `absint` IDs are no more than the selected entries. |
| PluginBulkActions.CountBound | wordpress.org/public_html/wp-content/plugins/plugin-directory/admin/class-customizations.php:381-412 | Reported count ≤ fetched posts ≤ distinct selected IDs ≤ selected entries. |
| PluginBulkActions.CountWhenWritesSucceed | wordpress.org/public_html/wp-content/plugins/plugin-directory/admin/class-customizations.php:392-412 | When every write succeeds, the count is the number of fetched posts the user may act on. |
| PluginBulkActions.EffectIdempotent | wordpress.org/public_html/wp-content/plugins/plugin-directory/admin/class-customizations.php:396-408 | Applying a rule to a post twice leaves it as once does. |
| PluginBulkActions.BulkIdempotent | wordpress.org/public_html/wp-content/plugins/plugin-directory/admin/class-customizations.php:339-414 | Repeating any bulk action on the same selection, at the same time and with the same write outcomes, changes nothing more. |
| PluginBulkActions.CloseThenOpen | wordpress.org/public_html/wp-content/plugins/plugin-directory/admin/class-customizations.php:340-351 | When status writes succeed, closing and then opening a selection brings every post the close fetched back to `publish`, provided the user may do both. |
| PluginBulkActions.AssignWritesReviewer | wordpress.org/public_html/wp-content/plugins/plugin-directory/admin/class-customizations.php:364-408 | Assign leaves every status alone. A post the user may review whose two writes succeed ends with `assigned_reviewer` = the reviewer and `assigned_reviewer_time` = now. |
| PluginSlugGuards.CheckSlugOnInlineSave | wordpress.org/public_html/wp-content/plugins/plugin-directory/admin/class-customizations.php:656-671 | The hook always returns the slug WordPress chose. It dies, naming the original slug, exactly for a non-rejected plugin whose slug WordPress had to change. |
| PluginSlugGuards.RejectedCoreMeaning | wordpress.org/public_html/wp-content/plugins/plugin-directory/admin/class-customizations.php:629-630 | The positional test for `rejected-.+-rejected` holds exactly for `rejected-` + a non-empty, newline-free middle + `-rejected`. |
| PluginSlugGuards.RejectionSlugMeaning | wordpress.org/public_html/wp-content/plugins/plugin-directory/admin/class-customizations.php:629-630 | `preg_match('!^rejected-.+-rejected$!')` matches exactly the slugs the reference definition gives: such a word, optionally followed by one final newline. |
| PluginSlugGuards.MovePaths | wordpress.org/public_html/wp-content/plugins/plugin-directory/admin/class-customizations.php:617-621 | The `svn_access` update moves exactly the rows on the old path to the new one. User and access columns and all other rows stay as they were. |
| PluginSlugGuards.MovePathsRoundTrip | wordpress.org/public_html/wp-content/plugins/plugin-directory/admin/class-customizations.php:613-621 | Moving back undoes a move when no row was on the new path before. |
| PluginSlugGuards.DirectoryRecords.AuditLog | wordpress.org/public_html/wp-content/plugins/plugin-directory/admin/class-customizations.php:602 | `Tools::audit_log` appends one entry and touches nothing else. |
| PluginSlugGuards.DirectoryRecords.MoveAccess | wordpress.org/public_html/wp-content/plugins/plugin-directory/admin/class-customizations.php:617-621 | The access rows on `/old` move to `/new`, and the log is untouched. |
| PluginSlugGuards.CheckSlugOnPostUpdate | wordpress.org/public_html/wp-content/plugins/plugin-directory/admin/class-customizations.php:564-641 | For a non-plugin, a missing ID or a missing post, the data goes through and nothing is written. A slug owned by another plugin dies before any write. An approved plugin whose rename fails logs the failure and dies. Otherwise the data goes through unchanged, an approved plugin's access rows move and its rename is logged, and the slug change is logged unless a slug is a rejection slug. |
| PluginAdminFilters.CommentRowActions | wordpress.org/public_html/wp-content/plugins/plugin-directory/admin/class-customizations.php:801-815 | An internal note in single mode keeps exactly `reply`, plus `trash`, `untrash` and `quickedit` for moderators, among its actions, in their order. Every other comment keeps all its actions. |
| PluginAdminFilters.CommentRowActionsIdempotent | wordpress.org/public_html/wp-content/plugins/plugin-directory/admin/class-customizations.php:801-815 | Filtering the row actions twice gives what filtering once gives. |
| PluginAdminFilters.PostStates | wordpress.org/public_html/wp-content/plugins/plugin-directory/admin/class-customizations.php:515-553 | Only the four directory statuses add states, and an approved plugin on the Approved view adds none. Existing states keep their places, and at most a label and a reason are added. |
| PluginAdminFilters.LabelAndReason | wordpress.org/public_html/wp-content/plugins/plugin-directory/admin/class-customizations.php:522-545 | Setting a label and maybe a reason: the label key reads the label, `reason` reads the reason, and all other keys read as before. |
| PluginAdminFilters.PostStatesLabels | wordpress.org/public_html/wp-content/plugins/plugin-directory/admin/class-customizations.php:515-553 | Afterwards the status key reads the label the status table gives, and `reason` reads the known close reason or the rejection reason's text. Every other state reads as before. |
| PluginAdminFilters.PostStatusNotice | wordpress.org/public_html/wp-content/plugins/plugin-directory/admin/class-customizations.php:457-499 | A notice shows exactly on `post.php` for the six directory statuses, with a non-empty message. It is an error for rejected and closed, a warning for pending and disabled, and `updated` for approved. |
| PluginAdminFilters.StringList | wordpress.org/public_html/wp-content/plugins/plugin-directory/admin/class-customizations.php:219 | A PHP list literal holds the strings under keys 0, 1, 2, … in order. |
| PluginAdminFilters.StrlenNonZero | wordpress.org/public_html/wp-content/plugins/plugin-directory/admin/class-customizations.php:234 | `strlen` fails exactly on an array and is non-zero for a non-empty string. |
| PluginAdminFilters.ReviewerClause | wordpress.org/public_html/wp-content/plugins/plugin-directory/admin/class-customizations.php:236-245 | The reviewer clause matches `assigned_reviewer` against the reviewer ID. It asks for `NOT EXISTS` exactly for reviewer 0. |
| PluginAdminFilters.AddMetaClause | wordpress.org/public_html/wp-content/plugins/plugin-directory/admin/class-customizations.php:235-247 | `($query->get('meta_query') ?: [])[key] = clause` fails exactly on a non-empty scalar. Otherwise `key` reads the clause and the other clauses read as before. |
| PluginAdminFilters.DefaultStatuses | wordpress.org/public_html/wp-content/plugins/plugin-directory/admin/class-customizations.php:218-220 | Without a requested status the list shows the eight directory statuses; with one, nothing changes. No other variable changes. |
| PluginAdminFilters.IpSearch | wordpress.org/public_html/wp-content/plugins/plugin-directory/admin/class-customizations.php:222-227 | A reviewer's search for an IP address becomes a search of `_author_ip` for the term, with `s` removed. Any other search changes nothing. |
| PluginAdminFilters.ReviewerFilter | wordpress.org/public_html/wp-content/plugins/plugin-directory/admin/class-customizations.php:233-248 | Only `meta_query` changes. The hook dies exactly on an array reviewer, or on a reviewer with a non-empty scalar `meta_query`. Otherwise exactly the reviewer clause is added. |
| PluginAdminFilters.OrderbyFilter | wordpress.org/public_html/wp-content/plugins/plugin-directory/admin/class-customizations.php:250-266 | Only `meta_query` changes. The hook dies exactly when ordering by a listed meta key with a non-empty scalar `meta_query`. Otherwise exactly the ordering clause is added. |
| PluginAdminFilters.PreGetPostsEdit | wordpress.org/public_html/wp-content/plugins/plugin-directory/admin/class-customizations.php:213-267 | A secondary query is untouched. On the main query only `post_status`, `s`, `meta_key`, `meta_value` and `meta_query` may change. |
| PluginAdminFilters.PreGetPostsFatal | wordpress.org/public_html/wp-content/plugins/plugin-directory/admin/class-customizations.php:233-266 | The main query dies exactly on an array reviewer, or on a reviewer or ordering request while `meta_query` is a non-empty scalar. |
| PluginAdminFilters.ReviewerThenOrderby | wordpress.org/public_html/wp-content/plugins/plugin-directory/admin/class-customizations.php:233-266 | The two meta clause steps together add the reviewer clause and the ordering clause, and leave every other clause as it was. |
| PluginAdminFilters.PreGetPostsClauses | wordpress.org/public_html/wp-content/plugins/plugin-directory/admin/class-customizations.php:233-266 | When the main query goes through, `meta_query` holds its old clauses plus the reviewer clause, if asked for, and the ordering clause, if asked for. |
| PluginAdminFilters.PreGetPostsStatuses | wordpress.org/public_html/wp-content/plugins/plugin-directory/admin/class-customizations.php:218-220 | For the whole hook: without a requested status the eight statuses are listed; otherwise `post_status` is untouched. |
| PluginAdminFilters.PreGetPostsIpSearch | wordpress.org/public_html/wp-content/plugins/plugin-directory/admin/class-customizations.php:222-227 | For the whole hook: an IP search by a reviewer becomes a meta search on `_author_ip`; otherwise `s`, `meta_key` and `meta_value` are untouched. |
| PluginAdminFilters.PreGetPosts | wordpress.org/public_html/wp-content/plugins/plugin-directory/admin/class-customizations.php:213-267 | Editing the query object in place gives exactly `PreGetPostsEdit` of the old variables. |
| PluginAdminFilters.FilterByReviewer | wordpress.org/public_html/wp-content/plugins/plugin-directory/admin/class-customizations.php:233-248 | The reviewer part in place gives exactly `ReviewerFilter`. |
| PluginAdminFilters.OrderByMeta | wordpress.org/public_html/wp-content/plugins/plugin-directory/admin/class-customizations.php:250-266 | The ordering part in place gives exactly `OrderbyFilter`. |
| LearnAdmin.AddWorkshopColumns | wordpress.org/public_html/wp-content/plugins/wporg-learn/inc/admin.php:93-100 | The workshop columns are the old ones plus `language` and `video_caption_language`, with no duplicate key. |
| LearnAdmin.WorkshopColumnsLayout | wordpress.org/public_html/wp-content/plugins/wporg-learn/inc/admin.php:93-100 | Without the two new keys, the columns become all but the last two originals, then Language, then Subtitles, then the last two originals. The list grows by two. |
| LearnAdmin.AddTopicColumns | wordpress.org/public_html/wp-content/plugins/wporg-learn/inc/admin.php:109-116 | The topic columns are the old ones plus `icon` and `sticky`, with no duplicate key. |
| LearnAdmin.TopicColumnsLayout | wordpress.org/public_html/wp-content/plugins/wporg-learn/inc/admin.php:109-116 | Without Icon and Sticky, both come immediately before the last column, and the originals keep their order. |
| LearnAdmin.AddLanguageColumn | wordpress.org/public_html/wp-content/plugins/wporg-learn/inc/admin.php:125-131 | The columns are the old ones plus `language`, and no key occurs twice. |
| LearnAdmin.LanguageColumnLayout | wordpress.org/public_html/wp-content/plugins/wporg-learn/inc/admin.php:125-131 | Without a Language column, it comes right before the last two columns, and the list grows by one. |
| LearnAdmin.LanguageColumnPresent | wordpress.org/public_html/wp-content/plugins/wporg-learn/inc/admin.php:125-131 | With a `language` column already present, no column is added: same keys, no growth. |
| LearnAdmin.LanguageColumnLabel | wordpress.org/public_html/wp-content/plugins/wporg-learn/inc/admin.php:125-131 | An existing `language` column before the last two keeps its label. One among the last two columns, or a missing one, gets the label "Language". |
| LearnAdmin.AddSortableColumns | wordpress.org/public_html/wp-content/plugins/wporg-learn/inc/admin.php:221-225 | `language` becomes sortable; every other column is sortable exactly as before. |
| LearnAdmin.SortableColumnsLookup | wordpress.org/public_html/wp-content/plugins/wporg-learn/inc/admin.php:221-225 | Language sorts by `language`; every other column keeps its sort key. |
| LearnAdmin.SortableColumnsIdempotent | wordpress.org/public_html/wp-content/plugins/wporg-learn/inc/admin.php:221-225 | Running the sortable-columns filter twice gives what running it once gives. |
| LearnAdmin.PushOnto | wordpress.org/public_html/wp-content/plugins/wporg-learn/inc/admin.php:336 | `$v[] = clause` fails exactly where PHP cannot write into `$v`. Otherwise the clause is appended. |
| LearnAdmin.AppendTaxClauses | wordpress.org/public_html/wp-content/plugins/wporg-learn/inc/admin.php:333-355 | The existing entries stay in front with their keys (a `relation` key included), and the clauses for the given audience and level follow, in that order. No filter leaves the value as it was. Failure happens exactly when a clause must go onto a scalar. |
| LearnAdmin.WrapAndAppend | wordpress.org/public_html/wp-content/plugins/wporg-learn/inc/admin.php:363-377 | A non-empty meta query becomes `['relation' => 'AND', 0 => old, 1 => clause]`. An empty one becomes `[0 => clause]`, or fails exactly on an empty scalar other than null or false. |
| LearnAdmin.TaxStep | wordpress.org/public_html/wp-content/plugins/wporg-learn/inc/admin.php:332-359 | Only `tax_query` may change. |
| LearnAdmin.LanguageStep | wordpress.org/public_html/wp-content/plugins/wporg-learn/inc/admin.php:361-378 | Only `meta_query` may change. |
| LearnAdmin.OrderbyLanguage | wordpress.org/public_html/wp-content/plugins/wporg-learn/inc/admin.php:380-383 | Only `meta_key` and `orderby` may change. |
| LearnAdmin.AdminFiltersEdit | wordpress.org/public_html/wp-content/plugins/wporg-learn/inc/admin.php:311-385 | Off the four filter screens nothing changes. On them only `tax_query`, `meta_query`, `meta_key` and `orderby` may change. |
| LearnAdmin.AdminFiltersTaxQuery | wordpress.org/public_html/wp-content/plugins/wporg-learn/inc/admin.php:332-359 | On a filter screen, `tax_query` keeps its old entries in front, keys included, followed by one clause per given filter, audience first. It is untouched when no filter is given. |
| LearnAdmin.AdminFiltersMetaQuery | wordpress.org/public_html/wp-content/plugins/wporg-learn/inc/admin.php:361-378 | With a language filter, `meta_query` becomes the old one AND the language clause, or the language clause alone when it was empty. Without a language filter it is untouched. |
| LearnAdmin.AdminFiltersOrderby | wordpress.org/public_html/wp-content/plugins/wporg-learn/inc/admin.php:380-383 | Ordering by `language` becomes ordering by the `language` meta value. Any other ordering is untouched. |
| LearnAdmin.AdminFiltersFatal | wordpress.org/public_html/wp-content/plugins/wporg-learn/inc/admin.php:332-377 | The filters die exactly when a tax clause must go onto an unwritable `tax_query`, or the language clause onto an empty unwritable `meta_query`. |
| LearnAdmin.HandleAdminListTableFilters | wordpress.org/public_html/wp-content/plugins/wporg-learn/inc/admin.php:311-385 | Editing the query object in place gives exactly `AdminFiltersEdit` of the old variables. |
| LearnAdmin.ApplyTaxFilters | wordpress.org/public_html/wp-content/plugins/wporg-learn/inc/admin.php:332-359 | The taxonomy part in place gives exactly `TaxStep`. |
| LearnAdmin.ApplyLanguageFilter | wordpress.org/public_html/wp-content/plugins/wporg-learn/inc/admin.php:361-378 | The language part in place gives exactly `LanguageStep`. |
| LearnAdmin.AddPostStates | wordpress.org/public_html/wp-content/plugins/wporg-learn/inc/admin.php:395-416 | Without an expiration date the states are unchanged. With one, exactly one state is appended: "Expires in …" exactly when the date parses to a time after now, else "Expired". |
| LearnAdmin.WantsExpired | wordpress.org/public_html/wp-content/plugins/wporg-learn/inc/admin.php:486 | A missing parameter and "", "0", "false", "off", "no" mean no. "1", "true", "on", "yes" mean yes. `WantsExpiredMeaning` below states exactly which values mean yes. |
| LearnAdmin.WantsExpiredTrimmed | wordpress.org/public_html/wp-content/plugins/wporg-learn/inc/admin.php:486 | Filter whitespace (space, tab, CR, LF, VT) on either side of the parameter does not change its meaning. |
| LearnAdmin.WantsExpiredIgnoresCase | wordpress.org/public_html/wp-content/plugins/wporg-learn/inc/admin.php:486 | Two parameters that differ only in ASCII letter case mean the same. |
| LearnAdmin.WantsExpiredMeaning | wordpress.org/public_html/wp-content/plugins/wporg-learn/inc/admin.php:486 | The parameter means yes exactly when it is filter whitespace, then a word that lower-cases to "1", "true", "on" or "yes", then filter whitespace. |
| LearnAdmin.ListTableViewsEdit | wordpress.org/public_html/wp-content/plugins/wporg-learn/inc/admin.php:483-507 | Only the main admin query of the current post type's screen, with `expired` set, changes, and only in `meta_query`. It dies exactly when `meta_query` cannot be appended to. Otherwise the expiry clause (`expiration_date < now`) is appended. |
| LearnAdmin.HandleListTableViews | wordpress.org/public_html/wp-content/plugins/wporg-learn/inc/admin.php:483-507 | Editing the query object in place gives exactly `ListTableViewsEdit`. |
| LearnAdmin.LanguageBulkEditSave | wordpress.org/public_html/wp-content/plugins/wporg-learn/inc/admin.php:548-554 | The language meta is written only when the language and the nonce are non-empty, the nonce verifies and the write succeeds. Otherwise nothing changes, so the "No Change" value `"0"` writes nothing. |

## Left out

- Rendering is not modelled: the admin pages, list-table filter dropdowns, column cells, the bulk-edit language field, the glance items and the term notice. They produce HTML and hold no decision logic.
- Translation (`__`, `_x`, `_n_noop`) and escaping (`esc_html`, `esc_attr`) are not modelled. Texts are the untranslated strings, and notices are their class and text rather than printed markup.
- `save_custom_comment` is not modelled. It is AJAX request and response handling.
- `posts_search` and `postmeta_form_keys` are not modelled. They build SQL against `$wpdb` and the object cache, whose behaviour is not visible here.
- `list_table_views`, `enqueue_assets`, `admin_menu`, `register_admin_metaboxes` and `plugin_posts_list_table` are not modelled. They only register with WordPress or count through another query.
- The `get_search_query` filter that the IP search installs is not modelled. It only changes how the search box echoes the term.
- The hooks that `wp_update_post` and `update_post_meta` fire in turn are not modelled. A write is one step whose success is a parameter.
- `set_transient`, `wp_safe_redirect` and `exit` after a bulk action are not modelled. The report is the `Reported` outcome with its action and count.
- `SVN::rename` is not modelled; its result is a parameter. The hook requests a rename for an approved plugin even when the slug is unchanged, and the model keeps that.
- Dates and times are parameters: `strtotime`, `time()`, `current_time( 'mysql' )` and `human_time_diff`.
- `FILTER_SANITIZE_STRING` is not modelled. The filters are the already sanitized values.
- PluginBulkActions.BulkActionPlugins: a `post` value that is present but not an array is treated like a missing one (both end in a PHP 8 `TypeError`). An empty `post` array is excluded by the precondition: PHP's request parsing never builds an empty array.
- PluginBulkActions.Fetched: `'post_status' => 'any'` is modelled as every status but `trash` and `auto-draft`, the statuses WordPress excludes from searches by default. The order `get_posts` returns is not modelled; the loop visits the fetched posts in no fixed order.
- WordPress.PostStore.UpdatePostMeta: `update_post_meta` also reports false when the value is already stored. The write outcome parameter covers that case, because then nothing changes either way.
- PhpArrays.IntVal: leading white space, a sign and decimal digits are read, saturating at the 64-bit bounds. The exponent form PHP also accepts in numeric strings ("1e3") is not modelled.
- PluginAdminFilters.IpSearchApplies: only a string search term is checked as an IP address. `filter_var` rejects the other request values in any case.
- PluginSlugGuards.CheckSlugOnPostUpdate: the `var_export` rendering of the SVN errors is the error text itself, and the audit messages are entries carrying their data rather than formatted sentences.
