/**
 * The parts of WordPress the admin hooks read and write, reduced to state:
 * a post store (ID to post type, status, slug and meta) and a query object
 * (`WP_Query`) whose query variables a `pre_get_posts` callback edits.
 *
 * Whether a database write succeeds is not something the hooks decide, so
 * every write takes its outcome as an argument.
 */
module WordPress {
  import opened PhpArrays

  datatype Post = Post(postType: string, status: string, slug: string, meta: map<string, Value>)

  /** The posts table together with the post meta table. */
  class PostStore {
    var posts: map<int, Post>

    constructor (posts: map<int, Post>)
      ensures this.posts == posts
    {
      this.posts := posts;
    }

    /**
     * `wp_update_post( [ 'ID' => id, 'post_status' => status ] )`: reports
     * success exactly when the write succeeds, and then only the status of
     * that one post changes.
     */
    method UpdatePostStatus(id: int, status: string, writeOk: bool) returns (updated: bool)
      requires id in posts
      modifies this
      ensures updated == writeOk
      ensures posts == if writeOk then old(posts)[id := old(posts)[id].(status := status)] else old(posts)
    {
      updated := writeOk;
      if writeOk {
        posts := posts[id := posts[id].(status := status)];
      }
    }

    /**
     * `update_post_meta( id, key, value )`: reports success exactly when the
     * write succeeds, and then only that one meta entry changes.
     */
    method UpdatePostMeta(id: int, key: string, value: Value, writeOk: bool) returns (updated: bool)
      requires id in posts
      modifies this
      ensures updated == writeOk
      ensures posts == if writeOk then old(posts)[id := old(posts)[id].(meta := old(posts)[id].meta[key := value])] else old(posts)
    {
      updated := writeOk;
      if writeOk {
        posts := posts[id := posts[id].(meta := posts[id].meta[key := value])];
      }
    }
  }

  /**
   * A `WP_Query`: `query` holds the arguments the request was parsed from
   * (`$query->query`), `vars` the query variables that will be run
   * (`$query->query_vars`).
   */
  class Query {
    const query: map<string, Value>
    const isMain: bool
    var vars: map<string, Value>

    constructor (query: map<string, Value>, vars: map<string, Value>, isMain: bool)
      ensures this.query == query && this.vars == vars && this.isMain == isMain
    {
      this.query := query;
      this.vars := vars;
      this.isMain := isMain;
    }

    /** `$query->get( name, default )`. */
    function Get(name: string, default: Value): (v: Value)
      reads this
      ensures v == GetVar(vars, name, default)
    {
      GetVar(vars, name, default)
    }

    /** `$query->set( name, value )`. */
    method Set(name: string, value: Value)
      modifies this
      ensures vars == old(vars)[name := value]
    {
      vars := vars[name := value];
    }
  }

  /** A query variable when it is set and not null, else `default`. */
  function GetVar(vars: map<string, Value>, name: string, default: Value): (v: Value)
    ensures v == default || (name in vars && v == vars[name] && v != Null)
    ensures name in vars && vars[name] != Null ==> v == vars[name]
  {
    if name in vars && vars[name] != Null then vars[name] else default
  }

  /** The query variables after a `pre_get_posts` callback, and whether it ended in a fatal error. */
  datatype QueryEdit = QueryEdit(vars: map<string, Value>, fatal: bool)

  /** Query variable `k` is the same in both (both unset, or both set to the same value). */
  predicate SameVar(a: map<string, Value>, b: map<string, Value>, k: string) {
    (k in a <==> k in b) && (k in a ==> a[k] == b[k])
  }

  /** `$query->query[name]` when it is set and not null (`isset`). */
  function QueryArg(q: map<string, Value>, name: string): (r: Option<Value>)
    ensures r.Some? <==> name in q && q[name] != Null
    ensures r.Some? ==> r.value == q[name]
  {
    if name in q && q[name] != Null then Some(q[name]) else None
  }

  /** `$query->query[name] ?? default`. */
  function QueryArgOr(q: map<string, Value>, name: string, default: Value): (v: Value)
    ensures QueryArg(q, name).Some? ==> v == q[name]
    ensures QueryArg(q, name).None? ==> v == default
  {
    match QueryArg(q, name)
    case Some(v) => v
    case None => default
  }
}
