/**
 * The Learn site's list-table helpers: where the extra columns go, which
 * column sorts by language, how the audience, level, language and
 * "expired" filters turn into query clauses, the expiration state shown
 * beside a post, and the bulk edit of the language meta.
 */
module LearnAdmin {
  import opened PhpArrays
  import opened WordPress

  // ---------------------------------------------------------------------
  // Columns

  /** The two slices of a column list hold exactly its keys between them. */
  lemma {:induction false} SliceKeys(columns: seq<(string, string)>, k: nat)
    ensures forall key :: HasKey(DropLast(columns, k), key) || HasKey(TakeLast(columns, k), key) <==> HasKey(columns, key)
  {
    DropLastTakeLast(columns, k);
    forall key ensures HasKey(DropLast(columns, k), key) || HasKey(TakeLast(columns, k), key) <==> HasKey(columns, key) {
      HasKeyAppend(DropLast(columns, k), TakeLast(columns, k), key);
    }
  }

  /** A one-entry array has just that entry's key. */
  lemma {:induction false} SingleKey(x: (string, string))
    ensures forall key :: HasKey([x], key) <==> key == x.0
  {
    assert [x][0].0 == x.0;
  }

  /**
   * `array_slice( $columns, 0, -2, true ) + [ language ] + [ video_caption_language ]
   * + array_slice( $columns, -2, 2, true )` for the workshop list.
   */
  function AddWorkshopColumns(columns: seq<(string, string)>): (r: seq<(string, string)>)
    ensures forall k :: HasKey(r, k) <==> HasKey(columns, k) || k == "language" || k == "video_caption_language"
    ensures DistinctKeys(columns) ==> DistinctKeys(r)
  {
    var front := DropLast(columns, 2);
    var withLanguage := Union(front, [("language", "Language")]);
    var withSubtitles := Union(withLanguage, [("video_caption_language", "Subtitles")]);
    SliceKeys(columns, 2);
    SingleKey(("language", "Language"));
    SingleKey(("video_caption_language", "Subtitles"));
    Union(withSubtitles, TakeLast(columns, 2))
  }

  /** The topic list gets Icon and Sticky just before its last column. */
  function AddTopicColumns(columns: seq<(string, string)>): (r: seq<(string, string)>)
    ensures forall k :: HasKey(r, k) <==> HasKey(columns, k) || k == "icon" || k == "sticky"
    ensures DistinctKeys(columns) ==> DistinctKeys(r)
  {
    var front := DropLast(columns, 1);
    var withIcon := Union(front, [("icon", "Icon")]);
    var withSticky := Union(withIcon, [("sticky", "Sticky")]);
    SliceKeys(columns, 1);
    SingleKey(("icon", "Icon"));
    SingleKey(("sticky", "Sticky"));
    Union(withSticky, TakeLast(columns, 1))
  }

  /** Every list with a language gets a Language column before its last two. */
  function AddLanguageColumn(columns: seq<(string, string)>): (r: seq<(string, string)>)
    ensures forall k :: HasKey(r, k) <==> HasKey(columns, k) || k == "language"
    ensures DistinctKeys(columns) ==> DistinctKeys(r)
  {
    SliceKeys(columns, 2);
    SingleKey(("language", "Language"));
    Union(Union(DropLast(columns, 2), [("language", "Language")]), TakeLast(columns, 2))
  }

  /**
   * Splicing `inserted` in before the last `k` columns, when none of its keys
   * is a column yet, is plain concatenation of the three parts.
   */
  lemma {:induction false} SpliceBeforeLast(columns: seq<(string, string)>, k: nat, inserted: seq<(string, string)>)
    requires DistinctKeys(columns)
    requires forall i :: 0 <= i < |inserted| ==> !HasKey(columns, inserted[i].0)
    ensures Union(DropLast(columns, k) + inserted, TakeLast(columns, k)) == DropLast(columns, k) + inserted + TakeLast(columns, k)
  {
    var front, back := DropLast(columns, k), TakeLast(columns, k);
    DropLastTakeLast(columns, k);
    forall i | 0 <= i < |back| ensures !HasKey(front + inserted, back[i].0) {
      HasKeyAppend(front, inserted, back[i].0);
      assert back[i] == columns[|front| + i];
      forall j | 0 <= j < |front| ensures front[j].0 != back[i].0 {
        assert front[j] == columns[j];
      }
      assert HasKey(columns, back[i].0);
    }
    UnionDisjoint(front + inserted, back);
  }

  /** `front + [x]` when `x`'s key is not a column: appending an entry a prefix lacks. */
  lemma {:induction false} AppendNew(columns: seq<(string, string)>, front: seq<(string, string)>, x: (string, string))
    requires |front| <= |columns| && front == columns[..|front|] && !HasKey(columns, x.0)
    ensures Union(front, [x]) == front + [x]
  {
    forall j | 0 <= j < |front| ensures front[j].0 != x.0 {
      assert front[j] == columns[j];
    }
    UnionDisjoint(front, [x]);
  }

  /**
   * For workshop columns without the two new keys: the originals but the
   * last two, then Language and Subtitles, then the original last two; the
   * list grows by exactly two.
   */
  lemma {:induction false} WorkshopColumnsLayout(columns: seq<(string, string)>)
    requires DistinctKeys(columns)
    requires !HasKey(columns, "language") && !HasKey(columns, "video_caption_language")
    ensures AddWorkshopColumns(columns) ==
              DropLast(columns, 2) + [("language", "Language"), ("video_caption_language", "Subtitles")] + TakeLast(columns, 2)
    ensures |AddWorkshopColumns(columns)| == |columns| + 2
  {
    var front := DropLast(columns, 2);
    var inserted := [("language", "Language"), ("video_caption_language", "Subtitles")];
    AppendNew(columns, front, inserted[0]);
    UnionDisjoint(front + [inserted[0]], [inserted[1]]);
    assert front + [inserted[0]] + [inserted[1]] == front + inserted;
    SpliceBeforeLast(columns, 2, inserted);
    DropLastTakeLast(columns, 2);
  }

  /**
   * For topic columns without Icon and Sticky: both come immediately before
   * the last column, and the originals keep their order.
   */
  lemma {:induction false} TopicColumnsLayout(columns: seq<(string, string)>)
    requires DistinctKeys(columns)
    requires !HasKey(columns, "icon") && !HasKey(columns, "sticky")
    ensures AddTopicColumns(columns) == DropLast(columns, 1) + [("icon", "Icon"), ("sticky", "Sticky")] + TakeLast(columns, 1)
    ensures DropLast(columns, 1) + TakeLast(columns, 1) == columns
  {
    var front := DropLast(columns, 1);
    var inserted := [("icon", "Icon"), ("sticky", "Sticky")];
    AppendNew(columns, front, inserted[0]);
    UnionDisjoint(front + [inserted[0]], [inserted[1]]);
    assert front + [inserted[0]] + [inserted[1]] == front + inserted;
    SpliceBeforeLast(columns, 1, inserted);
    DropLastTakeLast(columns, 1);
  }

  /** Without a Language column yet, it comes right before the last two columns. */
  lemma {:induction false} LanguageColumnLayout(columns: seq<(string, string)>)
    requires DistinctKeys(columns) && !HasKey(columns, "language")
    ensures AddLanguageColumn(columns) == DropLast(columns, 2) + [("language", "Language")] + TakeLast(columns, 2)
    ensures |AddLanguageColumn(columns)| == |columns| + 1
  {
    var front := DropLast(columns, 2);
    AppendNew(columns, front, ("language", "Language"));
    SpliceBeforeLast(columns, 2, [("language", "Language")]);
    DropLastTakeLast(columns, 2);
  }

  /**
   * The Language column's label: an existing `language` column before the
   * last two keeps its label, one among the last two is relabelled
   * "Language", and a list without one gets "Language".
   */
  lemma {:induction false} LanguageColumnLabel(columns: seq<(string, string)>)
    ensures Lookup(AddLanguageColumn(columns), "language") ==
              if HasKey(DropLast(columns, 2), "language") then Lookup(columns, "language") else Some("Language")
  {
    var front, back := DropLast(columns, 2), TakeLast(columns, 2);
    var x := ("language", "Language");
    var mid := Union(front, [x]);
    SingleKey(x);
    assert Lookup([x], "language") == Some("Language") by { assert [x][0].0 == "language"; }
    UnionLookup(front, [x], "language");
    UnionLookup(mid, back, "language");
    DropLastTakeLast(columns, 2);
    LookupAppend(front, back, "language");
  }

  /**
   * With a `language` column already there, no column is added: the list
   * keeps its keys and does not grow (where that column ends up, and its
   * label, are stated by `LanguageColumnLabel`).
   */
  lemma {:induction false} LanguageColumnPresent(columns: seq<(string, string)>)
    requires HasKey(columns, "language")
    ensures forall k :: HasKey(AddLanguageColumn(columns), k) <==> HasKey(columns, k)
    ensures |AddLanguageColumn(columns)| <= |columns|
  {
    var front, back := DropLast(columns, 2), TakeLast(columns, 2);
    DropLastTakeLast(columns, 2);
    HasKeyAppend(front, back, "language");
    var mid := Union(front, [("language", "Language")]);
    if HasKey(front, "language") {
      assert Missing([("language", "Language")], front) == [];
      assert |mid| == |front|;
    } else {
      assert HasKey(back, "language");
      assert |mid| == |front| + 1;
      assert Missing(back, mid) == Missing(back[1..], mid) || Missing(back, mid) == [back[0]] + Missing(back[1..], mid);
      var j :| 0 <= j < |back| && back[j].0 == "language";
      assert HasKey(mid, back[j].0) by { assert mid[|front|].0 == "language"; }
      assert |Missing(back, mid)| < |back| by { MissingShrinks(back, mid, j); }
    }
  }

  /** Leaving out the entries whose key `a` has: one such entry makes the result shorter. */
  lemma {:induction false} MissingShrinks(b: seq<(string, string)>, a: seq<(string, string)>, j: nat)
    requires j < |b| && HasKey(a, b[j].0)
    ensures |Missing(b, a)| < |b|
  {
    if j > 0 {
      assert b[1..][j - 1] == b[j];
      MissingShrinks(b[1..], a, j - 1);
    }
  }

  /** The workshop list sorts by language: `$sortable_columns['language'] = 'language'`. */
  function AddSortableColumns(sortable: seq<(string, string)>): (r: seq<(string, string)>)
    ensures HasKey(r, "language")
    ensures forall k :: k != "language" ==> (HasKey(r, k) <==> HasKey(sortable, k))
    ensures DistinctKeys(sortable) ==> DistinctKeys(r)
  {
    Put(sortable, "language", "language")
  }

  /** Language sorts by language; every other column sorts as before. */
  lemma {:induction false} SortableColumnsLookup(sortable: seq<(string, string)>, k: string)
    requires DistinctKeys(sortable)
    ensures Lookup(AddSortableColumns(sortable), k) == if k == "language" then Some("language") else Lookup(sortable, k)
  {
    PutLookup(sortable, "language", "language", k);
  }

  /** Running the filter twice gives what running it once gives. */
  lemma {:induction false} SortableColumnsIdempotent(sortable: seq<(string, string)>)
    ensures AddSortableColumns(AddSortableColumns(sortable)) == AddSortableColumns(sortable)
  {
    var once := AddSortableColumns(sortable);
    var twice := AddSortableColumns(once);
    assert HasKey(once, "language");
    assert |twice| == |once|;
    forall i | 0 <= i < |once| ensures twice[i] == once[i] {
      if once[i].0 == "language" {
        if HasKey(sortable, "language") {
          assert once[i] == ("language", "language");
        } else {
          assert i == |sortable|;
        }
      }
    }
  }

  // ---------------------------------------------------------------------
  // handle_admin_list_table_filters

  /** The list screens that carry the audience, level and language filters. */
  const FilterScreens: set<string> := {"edit-wporg_workshop", "edit-lesson-plan", "edit-lesson", "edit-course"}

  /** A request filter that is set and not empty in PHP's sense (so "0" does not count). */
  predicate Given(filter: Option<string>) {
    filter.Some? && Truthy(Str(filter.value))
  }

  function TaxClause(taxonomy: string, terms: string): Value {
    Arr([(StrKey("relation"), Str("AND")),
         (IntKey(0), Arr([(StrKey("taxonomy"), Str(taxonomy)), (StrKey("field"), Str("slug")), (StrKey("terms"), Str(terms))]))])
  }

  /** One taxonomy clause for each filter given, the audience first. */
  function RequestedTaxClauses(audience: Option<string>, level: Option<string>): seq<Value> {
    (if Given(audience) then [TaxClause("audience", audience.value)] else []) +
    (if Given(level) then [TaxClause("level", level.value)] else [])
  }

  /** `$a[] = v`, which is a fatal error (None) on a scalar other than false. */
  function PushOnto(current: Value, v: Value): (r: Option<Value>)
    ensures r.None? <==> WriteTarget(current).None?
    ensures r.Some? ==> r.value == Arr(Push(WriteTarget(current).value, v))
  {
    match WriteTarget(current)
    case None => None
    case Some(entries) => Some(Arr(Push(entries, v)))
  }

  /**
   * `$tax_query[] = ...` for the audience and then the level filter. The
   * clauses are appended after the existing ones, in the order asked for.
   */
  function AppendTaxClauses(current: Value, audience: Option<string>, level: Option<string>): (r: Option<Value>)
    ensures r.None? <==> RequestedTaxClauses(audience, level) != [] && WriteTarget(current).None?
    ensures r.Some? && RequestedTaxClauses(audience, level) == [] ==> r.value == current
    ensures r.Some? && RequestedTaxClauses(audience, level) != [] ==>
              && r.value.Arr?
              && |WriteTarget(current).value| <= |r.value.entries|
              && r.value.entries[..|WriteTarget(current).value|] == WriteTarget(current).value
              && Values(r.value.entries) == Values(WriteTarget(current).value) + RequestedTaxClauses(audience, level)
              && (DistinctKeys(WriteTarget(current).value) ==> DistinctKeys(r.value.entries))
  {
    var afterAudience := if Given(audience) then PushOnto(current, TaxClause("audience", audience.value)) else Some(current);
    match afterAudience
    case None => None
    case Some(a) =>
      var r := if Given(level) then PushOnto(a, TaxClause("level", level.value)) else Some(a);
      assert r.Some? && Given(audience) && Given(level) ==>
               Values(r.value.entries) == Values(WriteTarget(current).value) + RequestedTaxClauses(audience, level)
      by {
        if r.Some? && Given(audience) && Given(level) {
          var base := WriteTarget(current).value;
          assert a.entries == Push(base, TaxClause("audience", audience.value));
          assert Values(a.entries) == Values(base) + [TaxClause("audience", audience.value)];
          assert Values(r.value.entries) == Values(a.entries) + [TaxClause("level", level.value)];
        }
      }
      assert r.Some? && Given(audience) != Given(level) ==>
               Values(r.value.entries) == Values(WriteTarget(current).value) + RequestedTaxClauses(audience, level);
      r
  }

  function LanguageClause(language: string): Value {
    Arr([(StrKey("key"), Str("language")), (StrKey("value"), Str(language))])
  }

  /**
   * A non-empty `meta_query` is wrapped as `[ 'relation' => 'AND', existing ]`
   * and the clause is appended after it; an empty one becomes a list of the
   * clause alone. An empty scalar other than false is a fatal error (None).
   */
  function WrapAndAppend(current: Value, clause: Value): (r: Option<Value>)
    ensures r.None? <==> !Truthy(current) && WriteTarget(current).None?
    ensures Truthy(current) ==>
              r == Some(Arr([(StrKey("relation"), Str("AND")), (IntKey(0), current), (IntKey(1), clause)]))
    ensures !Truthy(current) && r.Some? ==> r == Some(Arr([(IntKey(0), clause)]))
  {
    if Truthy(current) then
      var e := [(StrKey("relation"), Str("AND")), (IntKey(0), current)];
      assert e[1..] == [(IntKey(0), current)] && e[1..][1..] == [];
      assert NextIndex(e[1..][1..]) == 0;
      assert NextIndex(e[1..]) == 1;
      assert NextIndex(e) == 1;
      assert Push(e, clause) == [(StrKey("relation"), Str("AND")), (IntKey(0), current), (IntKey(1), clause)];
      PushOnto(Arr(e), clause)
    else
      assert WriteTarget(current).Some? ==> WriteTarget(current).value == [];
      assert NextIndex([]) == 0;
      assert Push([], clause) == [(IntKey(0), clause)];
      PushOnto(current, clause)
  }

  /** The query variables the Learn filters write. */
  const LearnEditedVars: set<string> := {"tax_query", "meta_query", "meta_key", "orderby"}

  /** The taxonomy step: `tax_query` is set only when the result is not empty. */
  function TaxStep(vars: map<string, Value>, audience: Option<string>, level: Option<string>): (r: QueryEdit)
    ensures forall k :: k != "tax_query" ==> SameVar(r.vars, vars, k)
  {
    match AppendTaxClauses(GetVar(vars, "tax_query", Arr([])), audience, level)
    case None => QueryEdit(vars, true)
    case Some(t) => QueryEdit(if Truthy(t) then vars["tax_query" := t] else vars, false)
  }

  /** The language step. */
  function LanguageStep(vars: map<string, Value>, language: Option<string>): (r: QueryEdit)
    ensures forall k :: k != "meta_query" ==> SameVar(r.vars, vars, k)
  {
    if !Given(language) then QueryEdit(vars, false)
    else match WrapAndAppend(GetVar(vars, "meta_query", Arr([])), LanguageClause(language.value))
      case None => QueryEdit(vars, true)
      case Some(m) => QueryEdit(vars["meta_query" := m], false)
  }

  /** Ordering by language means ordering by the `language` meta value. */
  function OrderbyLanguage(vars: map<string, Value>): (r: map<string, Value>)
    ensures forall k :: k != "meta_key" && k != "orderby" ==> SameVar(r, vars, k)
  {
    if GetVar(vars, "orderby", Str("")) == Str("language") then
      vars["meta_key" := Str("language")]["orderby" := Str("meta_value")]
    else vars
  }

  /**
   * `handle_admin_list_table_filters` as a function of the query variables
   * before it ran. `screen` is the current screen's ID (None outside the
   * admin or before the screen is set up), and `audience`, `language` and
   * `level` the sanitized GET filters.
   */
  function AdminFiltersEdit(vars: map<string, Value>, screen: Option<string>, audience: Option<string>,
                            language: Option<string>, level: Option<string>): (r: QueryEdit)
    ensures !(screen.Some? && screen.value in FilterScreens) ==> r == QueryEdit(vars, false)
    ensures forall k :: k !in LearnEditedVars ==> SameVar(r.vars, vars, k)
  {
    if !(screen.Some? && screen.value in FilterScreens) then QueryEdit(vars, false)
    else
      var tax := TaxStep(vars, audience, level);
      if tax.fatal then tax
      else
        var lang := LanguageStep(tax.vars, language);
        var r := if lang.fatal then lang else QueryEdit(OrderbyLanguage(lang.vars), false);
        assert forall k :: k !in LearnEditedVars ==> SameVar(r.vars, vars, k) by {
          forall k | k !in LearnEditedVars ensures SameVar(r.vars, vars, k) {
            assert SameVar(tax.vars, vars, k) && SameVar(lang.vars, tax.vars, k) && SameVar(r.vars, lang.vars, k);
          }
        }
        r
  }

  /**
   * On a filter screen, the taxonomy query gets one clause per given filter
   * after the clauses it had; with no filter it is left as it was.
   */
  lemma {:induction false} AdminFiltersTaxQuery(vars: map<string, Value>, screen: string, audience: Option<string>,
                                                language: Option<string>, level: Option<string>)
    requires screen in FilterScreens
    requires !AdminFiltersEdit(vars, Some(screen), audience, language, level).fatal
    ensures var r := AdminFiltersEdit(vars, Some(screen), audience, language, level).vars;
            var before := GetVar(vars, "tax_query", Arr([]));
            && (RequestedTaxClauses(audience, level) == [] ==> SameVar(r, vars, "tax_query"))
            && (RequestedTaxClauses(audience, level) != [] ==>
                  && "tax_query" in r && r["tax_query"].Arr?
                  && |WriteTarget(before).value| <= |r["tax_query"].entries|
                  && r["tax_query"].entries[..|WriteTarget(before).value|] == WriteTarget(before).value
                  && Values(r["tax_query"].entries) == Values(WriteTarget(before).value) + RequestedTaxClauses(audience, level))
  {
    var tax := TaxStep(vars, audience, level);
    var before := GetVar(vars, "tax_query", Arr([]));
    var t := AppendTaxClauses(before, audience, level);
    assert !tax.fatal && t.Some?;
    if RequestedTaxClauses(audience, level) == [] {
      assert t.value == before;
      assert SameVar(tax.vars, vars, "tax_query") by {
        if Truthy(before) { assert "tax_query" in vars && vars["tax_query"] == before; }
      }
    } else {
      assert Truthy(t.value) by {
        assert |Values(t.value.entries)| > 0;
      }
      assert tax.vars["tax_query"] == t.value;
    }
    var lang := LanguageStep(tax.vars, language);
    assert SameVar(lang.vars, tax.vars, "tax_query");
    assert SameVar(OrderbyLanguage(lang.vars), lang.vars, "tax_query");
  }

  /**
   * On a filter screen with a language filter, the meta query becomes the
   * old one AND the language clause (or the language clause alone when there
   * was none); without a language filter it is left as it was.
   */
  lemma {:induction false} AdminFiltersMetaQuery(vars: map<string, Value>, screen: string, audience: Option<string>,
                                                 language: Option<string>, level: Option<string>)
    requires screen in FilterScreens
    requires !AdminFiltersEdit(vars, Some(screen), audience, language, level).fatal
    ensures var r := AdminFiltersEdit(vars, Some(screen), audience, language, level).vars;
            var before := GetVar(vars, "meta_query", Arr([]));
            && (!Given(language) ==> SameVar(r, vars, "meta_query"))
            && (Given(language) && Truthy(before) ==>
                  "meta_query" in r &&
                  r["meta_query"] == Arr([(StrKey("relation"), Str("AND")), (IntKey(0), before), (IntKey(1), LanguageClause(language.value))]))
            && (Given(language) && !Truthy(before) ==>
                  "meta_query" in r && r["meta_query"] == Arr([(IntKey(0), LanguageClause(language.value))]))
  {
    var tax := TaxStep(vars, audience, level);
    assert SameVar(tax.vars, vars, "meta_query");
    assert GetVar(tax.vars, "meta_query", Arr([])) == GetVar(vars, "meta_query", Arr([]));
    var lang := LanguageStep(tax.vars, language);
    assert SameVar(OrderbyLanguage(lang.vars), lang.vars, "meta_query");
  }

  /** Ordering by language turns into ordering by the language meta value. */
  lemma {:induction false} AdminFiltersOrderby(vars: map<string, Value>, screen: string, audience: Option<string>,
                                               language: Option<string>, level: Option<string>)
    requires screen in FilterScreens
    requires !AdminFiltersEdit(vars, Some(screen), audience, language, level).fatal
    ensures var r := AdminFiltersEdit(vars, Some(screen), audience, language, level).vars;
            && (GetVar(vars, "orderby", Str("")) == Str("language") ==>
                  "meta_key" in r && r["meta_key"] == Str("language") && "orderby" in r && r["orderby"] == Str("meta_value"))
            && (GetVar(vars, "orderby", Str("")) != Str("language") ==>
                  SameVar(r, vars, "meta_key") && SameVar(r, vars, "orderby"))
  {
    var tax := TaxStep(vars, audience, level);
    var lang := LanguageStep(tax.vars, language);
    assert SameVar(tax.vars, vars, "orderby") && SameVar(lang.vars, tax.vars, "orderby");
    assert SameVar(tax.vars, vars, "meta_key") && SameVar(lang.vars, tax.vars, "meta_key");
    assert GetVar(lang.vars, "orderby", Str("")) == GetVar(vars, "orderby", Str(""));
  }

  /**
   * The filters die exactly when a clause has to be appended to a scalar:
   * a given audience or level onto a `tax_query` PHP cannot append to, or a
   * language onto an empty `meta_query` that is neither an array nor false.
   */
  lemma {:induction false} AdminFiltersFatal(vars: map<string, Value>, screen: string, audience: Option<string>,
                                             language: Option<string>, level: Option<string>)
    requires screen in FilterScreens
    ensures AdminFiltersEdit(vars, Some(screen), audience, language, level).fatal <==>
              || (RequestedTaxClauses(audience, level) != [] && WriteTarget(GetVar(vars, "tax_query", Arr([]))).None?)
              || (Given(language) && !Truthy(GetVar(vars, "meta_query", Arr([]))) &&
                  WriteTarget(GetVar(vars, "meta_query", Arr([]))).None?)
  {
    var tax := TaxStep(vars, audience, level);
    assert SameVar(tax.vars, vars, "meta_query");
    assert GetVar(tax.vars, "meta_query", Arr([])) == GetVar(vars, "meta_query", Arr([]));
  }

  /** `handle_admin_list_table_filters` on the query object. */
  method HandleAdminListTableFilters(q: Query, screen: Option<string>, audience: Option<string>,
                                     language: Option<string>, level: Option<string>) returns (fatal: bool)
    modifies q
    ensures QueryEdit(q.vars, fatal) == AdminFiltersEdit(old(q.vars), screen, audience, language, level)
  {
    fatal := false;
    if screen.None? || screen.value !in FilterScreens {
      return;
    }
    fatal := ApplyTaxFilters(q, audience, level);
    if fatal {
      return;
    }
    fatal := ApplyLanguageFilter(q, language);
    if fatal {
      return;
    }
    if q.Get("orderby", Str("")) == Str("language") {
      q.Set("meta_key", Str("language"));
      q.Set("orderby", Str("meta_value"));
    }
  }

  /** The audience and level filters. */
  method ApplyTaxFilters(q: Query, audience: Option<string>, level: Option<string>) returns (fatal: bool)
    modifies q
    ensures QueryEdit(q.vars, fatal) == TaxStep(old(q.vars), audience, level)
  {
    fatal := false;
    var taxQuery := q.Get("tax_query", Arr([]));
    if Given(audience) {
      var pushed := PushOnto(taxQuery, TaxClause("audience", audience.value));
      if pushed.None? {
        return true;
      }
      taxQuery := pushed.value;
    }
    if Given(level) {
      var pushed := PushOnto(taxQuery, TaxClause("level", level.value));
      if pushed.None? {
        return true;
      }
      taxQuery := pushed.value;
    }
    if Truthy(taxQuery) {
      q.Set("tax_query", taxQuery);
    }
  }

  /** The language filter. */
  method ApplyLanguageFilter(q: Query, language: Option<string>) returns (fatal: bool)
    modifies q
    ensures QueryEdit(q.vars, fatal) == LanguageStep(old(q.vars), language)
  {
    fatal := false;
    if Given(language) {
      var metaQuery := q.Get("meta_query", Arr([]));
      if Truthy(metaQuery) {
        metaQuery := Arr([(StrKey("relation"), Str("AND")), (IntKey(0), metaQuery)]);
      }
      var pushed := PushOnto(metaQuery, LanguageClause(language.value));
      if pushed.None? {
        return true;
      }
      q.Set("meta_query", pushed.value);
    }
  }

  // ---------------------------------------------------------------------
  // add_post_states

  const ExpiredState: string := "<span style=\"color: #b32d2e;\">Expired</span>"
  const ExpiresPrefix: string := "Expires in "

  /**
   * The expiration state of a post. `expirationDate` is its
   * `expiration_date` meta, `parse` stands for `strtotime` (None where it
   * gives false), `now` is `strtotime( 'now' )` and `diff` stands for
   * `human_time_diff`.
   */
  function AddPostStates(states: seq<(Key, Value)>, expirationDate: string, now: int,
                         parse: string -> Option<int>, diff: (int, int) -> string): (r: seq<(Key, Value)>)
    // Without a date nothing changes; with one, exactly one state is appended.
    ensures !Truthy(Str(expirationDate)) ==> r == states
    ensures Truthy(Str(expirationDate)) ==> |r| == |states| + 1 && r[..|states|] == states
    // It reads "Expires in ..." exactly when the date parses to a time after now, and "Expired" otherwise.
    ensures Truthy(Str(expirationDate)) ==>
              var expires := parse(expirationDate).Some? && parse(expirationDate).value > now;
              && (expires ==> r[|states|].1 == Str(ExpiresPrefix + diff(now, parse(expirationDate).value)))
              && (!expires ==> r[|states|].1 == Str(ExpiredState))
    ensures DistinctKeys(states) ==> DistinctKeys(r)
  {
    if Truthy(Str(expirationDate)) then
      var exp := parse(expirationDate);
      if exp.Some? && exp.value > now then Push(states, Str(ExpiresPrefix + diff(now, exp.value)))
      else Push(states, Str(ExpiredState))
    else states
  }

  // ---------------------------------------------------------------------
  // handle_list_table_views

  /** The whitespace PHP's boolean filter trims from both ends. */
  predicate IsFilterSpace(c: char) {
    c == ' ' || c == '\t' || c == '\r' || c == '\n' || c as int == 11
  }

  function TrimFilterSpace(s: string): (t: string)
    ensures |t| <= |s|
    ensures t == [] || (!IsFilterSpace(t[0]) && !IsFilterSpace(t[|t| - 1]))
    decreases |s|
  {
    if s == [] then []
    else if IsFilterSpace(s[0]) then TrimFilterSpace(s[1..])
    else if IsFilterSpace(s[|s| - 1]) then TrimFilterSpace(s[..|s| - 1])
    else s
  }

  function LowerAscii(s: string): (t: string)
    ensures |t| == |s|
  {
    seq(|s|, i requires 0 <= i < |s| => if 'A' <= s[i] <= 'Z' then (s[i] as int + 32) as char else s[i])
  }

  const TrueWords: set<string> := {"1", "true", "on", "yes"}

  /**
   * Whether `filter_input( INPUT_GET, 'expired', FILTER_VALIDATE_BOOLEAN )`
   * gives true: the parameter, trimmed and in any letter case, is one of
   * "1", "true", "on" and "yes". A missing parameter gives null.
   */
  function WantsExpired(raw: Option<string>): (r: bool)
    ensures raw.None? ==> !r
    ensures raw.Some? && raw.value in TrueWords ==> r
    ensures raw.Some? && raw.value in {"", "0", "false", "off", "no"} ==> !r
  {
    PlainWord("1"); PlainWord("true"); PlainWord("on"); PlainWord("yes");
    PlainWord(""); PlainWord("0"); PlainWord("false"); PlainWord("off"); PlainWord("no");
    raw.Some? && LowerAscii(TrimFilterSpace(raw.value)) in TrueWords
  }

  /** A word of lower-case letters and digits reads as itself. */
  lemma {:induction false} PlainWord(w: string)
    requires forall i :: 0 <= i < |w| ==> 'a' <= w[i] <= 'z' || '0' <= w[i] <= '9'
    ensures LowerAscii(TrimFilterSpace(w)) == w
  {
    assert TrimFilterSpace(w) == w;
  }

  predicate AllFilterSpace(s: string) {
    forall i :: 0 <= i < |s| ==> IsFilterSpace(s[i])
  }

  /**
   * The boolean filter's reading of a true value, stated without the
   * trimming function: filter whitespace, then a word that lower-cases to
   * one of the true words, then filter whitespace.
   */
  ghost predicate SpellsTrueWord(s: string) {
    exists pre, u, post :: AllFilterSpace(pre) && AllFilterSpace(post) && LowerAscii(u) in TrueWords && s == pre + u + post
  }

  /** `expired` asks for expired posts exactly when it spells a true word. */
  lemma {:induction false} WantsExpiredMeaning(s: string)
    ensures WantsExpired(Some(s)) <==> SpellsTrueWord(s)
  {
    if WantsExpired(Some(s)) {
      var pre, post := TrimSplit(s);
      assert AllFilterSpace(pre) && AllFilterSpace(post) && LowerAscii(TrimFilterSpace(s)) in TrueWords;
    }
    if SpellsTrueWord(s) {
      var pre, u, post :| AllFilterSpace(pre) && AllFilterSpace(post) && LowerAscii(u) in TrueWords && s == pre + u + post;
      WantsExpiredTrimmed(pre, u, post);
      TrueWordUntrimmed(u);
    }
  }

  /** A word that lower-cases to a true word has no filter whitespace at its ends. */
  lemma TrueWordUntrimmed(u: string)
    requires LowerAscii(u) in TrueWords
    ensures TrimFilterSpace(u) == u
  {
    var w := LowerAscii(u);
    assert w == "1" || w == "true" || w == "on" || w == "yes";
    assert w[0] != ' ' && w[|w| - 1] != ' ';
    assert !IsFilterSpace(w[0]) && !IsFilterSpace(w[|w| - 1]);
    assert !IsFilterSpace(u[0]) && !IsFilterSpace(u[|u| - 1]);
  }

  /** Filter whitespace on either side of the parameter does not change its meaning. */
  lemma {:induction false} WantsExpiredTrimmed(pre: string, s: string, post: string)
    requires AllFilterSpace(pre) && AllFilterSpace(post)
    ensures WantsExpired(Some(pre + s + post)) == WantsExpired(Some(s))
  {
    assert pre + s + post == pre + (s + post);
    TrimSpacePrefix(pre, s + post);
    TrimSpaceSuffix(s, post);
  }

  /** The letter case of the parameter does not change its meaning. */
  lemma {:induction false} WantsExpiredIgnoresCase(s: string, s': string)
    requires LowerAscii(s) == LowerAscii(s')
    ensures WantsExpired(Some(s)) == WantsExpired(Some(s'))
  {
    LowerTrimCommute(s);
    LowerTrimCommute(s');
  }

  lemma {:induction false} LowerTrimCommute(s: string)
    ensures LowerAscii(TrimFilterSpace(s)) == TrimFilterSpace(LowerAscii(s))
    decreases |s|
  {
    var l := LowerAscii(s);
    if s != [] {
      assert IsFilterSpace(l[0]) == IsFilterSpace(s[0]);
      assert IsFilterSpace(l[|s| - 1]) == IsFilterSpace(s[|s| - 1]);
      if IsFilterSpace(s[0]) {
        assert l[1..] == LowerAscii(s[1..]);
        LowerTrimCommute(s[1..]);
      } else if IsFilterSpace(s[|s| - 1]) {
        assert l[..|s| - 1] == LowerAscii(s[..|s| - 1]);
        LowerTrimCommute(s[..|s| - 1]);
      }
    }
  }

  /** The trimmed text sits between a run of filter whitespace on each side. */
  lemma {:induction false} TrimSplit(s: string) returns (pre: string, post: string)
    ensures AllFilterSpace(pre) && AllFilterSpace(post)
    ensures s == pre + TrimFilterSpace(s) + post
    decreases |s|
  {
    if s == [] {
      pre, post := [], [];
    } else if IsFilterSpace(s[0]) {
      var p, q := TrimSplit(s[1..]);
      pre, post := [s[0]] + p, q;
      assert s == [s[0]] + s[1..];
    } else if IsFilterSpace(s[|s| - 1]) {
      var p, q := TrimSplit(s[..|s| - 1]);
      pre, post := p, q + [s[|s| - 1]];
      assert s == s[..|s| - 1] + [s[|s| - 1]];
    } else {
      pre, post := [], [];
      assert s == [] + s + [];
    }
  }

  lemma {:induction false} TrimSpacePrefix(pre: string, x: string)
    requires AllFilterSpace(pre)
    ensures TrimFilterSpace(pre + x) == TrimFilterSpace(x)
    decreases |pre|
  {
    if pre == [] {
      assert pre + x == x;
    } else {
      assert (pre + x)[0] == pre[0] && (pre + x)[1..] == pre[1..] + x;
      TrimSpacePrefix(pre[1..], x);
    }
  }

  lemma {:induction false} TrimSpaceSuffix(x: string, post: string)
    requires AllFilterSpace(post)
    ensures TrimFilterSpace(x + post) == TrimFilterSpace(x)
    decreases |x| + |post|
  {
    var t := x + post;
    if post == [] {
      assert t == x;
    } else if x == [] {
      assert t == post;
      TrimAllSpace(post);
    } else if IsFilterSpace(x[0]) {
      assert t[0] == x[0] && t[1..] == x[1..] + post;
      TrimSpaceSuffix(x[1..], post);
    } else {
      assert t[0] == x[0] && t[|t| - 1] == post[|post| - 1];
      assert t[..|t| - 1] == x + post[..|post| - 1];
      TrimSpaceSuffix(x, post[..|post| - 1]);
    }
  }

  lemma {:induction false} TrimAllSpace(s: string)
    requires AllFilterSpace(s)
    ensures TrimFilterSpace(s) == []
    decreases |s|
  {
    if s != [] { TrimAllSpace(s[1..]); }
  }

  function ExpiredClause(nowMysql: string): Value {
    Arr([(StrKey("key"), Str("expiration_date")), (StrKey("value"), Str(nowMysql)), (StrKey("compare"), Str("<"))])
  }

  /**
   * `handle_list_table_views`: on the main list query of the current post
   * type's screen, `?expired=...` adds a clause keeping posts whose
   * expiration date lies before `nowMysql` (`current_time( 'mysql' )`).
   */
  function ListTableViewsEdit(vars: map<string, Value>, isAdmin: bool, isMain: bool, screen: Option<string>,
                              typenow: string, expired: Option<string>, nowMysql: string): (r: QueryEdit)
    ensures !(isAdmin && isMain && screen == Some("edit-" + typenow) && WantsExpired(expired)) ==> r == QueryEdit(vars, false)
    ensures forall k :: k != "meta_query" ==> SameVar(r.vars, vars, k)
    ensures r.fatal <==> isAdmin && isMain && screen == Some("edit-" + typenow) && WantsExpired(expired) &&
                          WriteTarget(GetVar(vars, "meta_query", Arr([]))).None?
    ensures !r.fatal && isAdmin && isMain && screen == Some("edit-" + typenow) && WantsExpired(expired) ==>
              var before := WriteTarget(GetVar(vars, "meta_query", Arr([]))).value;
              "meta_query" in r.vars && r.vars["meta_query"] == Arr(before + [(IntKey(NextIndex(before)), ExpiredClause(nowMysql))])
  {
    if isAdmin && isMain && screen == Some("edit-" + typenow) && WantsExpired(expired) then
      match PushOnto(GetVar(vars, "meta_query", Arr([])), ExpiredClause(nowMysql))
      case None => QueryEdit(vars, true)
      case Some(m) => QueryEdit(vars["meta_query" := m], false)
    else QueryEdit(vars, false)
  }

  /** `handle_list_table_views` on the query object. */
  method HandleListTableViews(q: Query, isAdmin: bool, screen: Option<string>, typenow: string,
                              expired: Option<string>, nowMysql: string) returns (fatal: bool)
    modifies q
    ensures QueryEdit(q.vars, fatal) == ListTableViewsEdit(old(q.vars), isAdmin, q.isMain, screen, typenow, expired, nowMysql)
  {
    fatal := false;
    var wantsExpired := WantsExpired(expired);
    if !isAdmin || !q.isMain || screen.None? {
      return;
    }
    if screen.value == "edit-" + typenow && wantsExpired {
      var pushed := PushOnto(q.Get("meta_query", Arr([])), ExpiredClause(nowMysql));
      if pushed.None? {
        return true;
      }
      q.Set("meta_query", pushed.value);
    }
  }

  // ---------------------------------------------------------------------
  // language_bulk_edit_save

  /**
   * `language_bulk_edit_save` on `save_post`: `language` and `nonce` are
   * `$_REQUEST['language']` and `$_REQUEST['_wpnonce']`, `nonceOk` stands for
   * `wp_verify_nonce( nonce, 'bulk-posts' )`. The language is written only
   * when both are non-empty and the nonce verifies, so the "No Change"
   * choice, "0", writes nothing.
   */
  method LanguageBulkEditSave(store: PostStore, postId: int, language: Option<Value>, nonce: Option<Value>,
                              nonceOk: Value -> bool, writeOk: bool)
    requires postId in store.posts
    modifies store
    ensures var saves := language.Some? && Truthy(language.value) && nonce.Some? && Truthy(nonce.value) && nonceOk(nonce.value);
            && (saves && writeOk ==>
                  store.posts == old(store.posts)[postId := old(store.posts)[postId].(meta := old(store.posts)[postId].meta["language" := language.value])])
            && (!(saves && writeOk) ==> store.posts == old(store.posts))
  {
    if language.None? || !Truthy(language.value) || nonce.None? || !Truthy(nonce.value) || !nonceOk(nonce.value) {
      return;
    }
    var written := store.UpdatePostMeta(postId, "language", language.value, writeOk);
  }
}
