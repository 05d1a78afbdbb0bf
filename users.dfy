/**
 * The data-access layer for the `users` table, up to the point where a
 * query is handed to the database: the SQL text with its numbered
 * placeholders and the parameter array bound to them. The database is
 * not modelled; the rows it answers with are inputs.
 */
module UserQueries {
  import opened Options
  import opened Text
  import Roles

  datatype UserStatus = Active | OnLeave | Suspended | Terminated

  /** The enum value a status is stored as. */
  function StatusKey(s: UserStatus): string
  {
    match s
    case Active => "active"
    case OnLeave => "on_leave"
    case Suspended => "suspended"
    case Terminated => "terminated"
  }

  /** A column value as it is handed to the driver; a JSON object is a list of fields. */
  datatype Value =
    | Null
    | Str(text: string)
    | Num(n: real)
    | Flag(b: bool)
    | TextList(items: seq<string>)
    | Object(fields: seq<(string, Value)>)

  /** A query parameter: a value bound as it is, or the text `JSON.stringify` makes of it. */
  datatype Param = Raw(value: Value) | Json(value: Value)

  /** A piece of SQL text: literal text, or the placeholder `$n` bound to the n-th parameter. */
  datatype Piece = Lit(text: string) | Ph(index: nat)

  type Sql = seq<Piece>

  /** What `query(text, params)` receives. */
  datatype Query = Query(sql: Sql, params: seq<Param>)

  /** The placeholders of a query are exactly $1 … $k for its k parameters. */
  ghost predicate Aligned(q: Query)
  {
    forall n: nat :: Ph(n) in q.sql <==> 1 <= n <= |q.params|
  }

  /** A row as the driver returns it: column name to value. */
  type Row = map<string, Value>

  const PASSWORD_HASH := "password_hash"

  // ── Helpers ──────────────────────────────────────────────

  /** `omitPassword`: the row without its password hash. */
  function OmitPassword(user: Row): (safe: Row)
    ensures PASSWORD_HASH !in safe
    ensures forall k :: k in safe <==> k in user && k != PASSWORD_HASH
    ensures forall k :: k in safe ==> safe[k] == user[k]
  {
    user - {PASSWORD_HASH}
  }

  /** Stripping the hash twice is stripping it once; a row without one is returned unchanged. */
  lemma OmitPasswordIdempotent(user: Row)
    ensures OmitPassword(OmitPassword(user)) == OmitPassword(user)
    ensures PASSWORD_HASH !in user ==> OmitPassword(user) == user
  {
  }

  /** `rows[0] ? omitPassword(rows[0]) : null`. */
  function FirstWithoutPassword(rows: seq<Row>): (r: Option<Row>)
    ensures r.Some? <==> |rows| > 0
    ensures r.Some? ==> r.value == OmitPassword(rows[0]) && PASSWORD_HASH !in r.value
  {
    if |rows| > 0 then Some(OmitPassword(rows[0])) else None
  }

  /** `rows[0] ?? null`: the whole row, hash included. */
  function FirstRow(rows: seq<Row>): (r: Option<Row>)
    ensures r.Some? <==> |rows| > 0
    ensures r.Some? ==> r.value == rows[0]
  {
    if |rows| > 0 then Some(rows[0]) else None
  }

  // ── Placeholders in joined SQL ───────────────────────────

  /** `parts[i]` uses exactly the placeholder $(i+1). */
  ghost predicate Numbered(parts: seq<Sql>)
  {
    forall i, n: nat :: 0 <= i < |parts| ==> (Ph(n) in parts[i] <==> n == i + 1)
  }

  /** A placeholder appears in a join exactly when it appears in one of the parts. */
  lemma {:induction false} JoinUses(parts: seq<Sql>, sep: Sql, n: nat)
    requires forall m: nat :: Ph(m) !in sep
    ensures Ph(n) in Join(parts, sep) <==> exists i :: 0 <= i < |parts| && Ph(n) in parts[i]
  {
    if |parts| >= 2 {
      JoinUses(parts[1..], sep, n);
      assert Join(parts, sep) == parts[0] + sep + Join(parts[1..], sep);
      if Ph(n) in Join(parts[1..], sep) {
        var i :| 0 <= i < |parts[1..]| && Ph(n) in parts[1..][i];
        assert Ph(n) in parts[i + 1];
      }
      if exists i :: 0 <= i < |parts| && Ph(n) in parts[i] {
        var i :| 0 <= i < |parts| && Ph(n) in parts[i];
        if i > 0 {
          assert Ph(n) in parts[1..][i - 1];
        }
      }
    }
  }

  /** Joining numbered parts uses $1 … $k, one per part. */
  lemma JoinNumbered(parts: seq<Sql>, sep: Sql)
    requires Numbered(parts)
    requires forall m: nat :: Ph(m) !in sep
    ensures forall n: nat :: Ph(n) in Join(parts, sep) <==> 1 <= n <= |parts|
  {
    forall n: nat
      ensures Ph(n) in Join(parts, sep) <==> 1 <= n <= |parts|
    {
      JoinUses(parts, sep, n);
      if 1 <= n <= |parts| {
        assert Ph(n) in parts[n - 1];
      }
    }
  }

  // ── Read ─────────────────────────────────────────────────

  /** `getUserById`: one placeholder for the id. */
  function GetUserById(id: string): (q: Query)
    ensures Aligned(q) && q.params == [Raw(Str(id))]
  {
    Query([Lit("SELECT * FROM users WHERE id = "), Ph(1)], [Raw(Str(id))])
  }

  /** `getUserByEmail`; its answer is `FirstRow`, hash included, for the login check. */
  function GetUserByEmail(email: string): (q: Query)
    ensures Aligned(q) && q.params == [Raw(Str(email))]
  {
    Query([Lit("SELECT * FROM users WHERE email = "), Ph(1)], [Raw(Str(email))])
  }

  /** `getUserByEmployeeCode`; its answer is `FirstWithoutPassword`. */
  function GetUserByEmployeeCode(code: string): (q: Query)
    ensures Aligned(q) && q.params == [Raw(Str(code))]
  {
    Query([Lit("SELECT * FROM users WHERE employee_code = "), Ph(1)], [Raw(Str(code))])
  }

  /** The roles `getAvailableCleaners` lists in its `IN (…)`. */
  const CLEANER_ROLE_KEYS: seq<string> :=
    ["staff", "staff_no_material", "staff_no_pricing", "staff_no_pricing_no_attachments", "contractor", "strict_contractor"]

  /** The cleaners' roles are exactly the staff-tier and contractor-tier roles. */
  lemma CleanerRolesAreFieldTiers(r: Roles.Role)
    ensures Roles.RoleKey(r) in CLEANER_ROLE_KEYS <==> Roles.IsStaffTier(r) || Roles.IsContractorTier(r)
  {
    assert Roles.RoleKey(Roles.Owner)[0] == 'o' && Roles.RoleKey(Roles.BusinessOwner)[0] == 'b';
    assert Roles.RoleKey(Roles.Finance)[0] == 'f';
  }

  // ── listUsers ────────────────────────────────────────────

  datatype ListUsersOptions = ListUsersOptions(
    role: Option<Roles.Role>,
    status: Option<UserStatus>,
    search: Option<string>,
    skills: Option<seq<string>>,
    limit: Option<real>,
    offset: Option<real>)

  /** One condition `listUsers` can put in its WHERE clause. */
  datatype Filter =
    | RoleIs(role: Roles.Role)
    | StatusIs(status: UserStatus)
    | NameOrEmailLike(search: string)
    | HasAnySkill(skills: seq<string>)

  /** Position of a filter in the order `listUsers` tests them. */
  function Rank(f: Filter): nat
  {
    match f
    case RoleIs(_) => 0
    case StatusIs(_) => 1
    case NameOrEmailLike(_) => 2
    case HasAnySkill(_) => 3
  }

  // A role or status, when given, is always truthy; an empty search
  // string and an empty skills array are falsy and apply nothing.

  function RoleFilter(opts: ListUsersOptions): seq<Filter>
  {
    if opts.role.Some? then [RoleIs(opts.role.value)] else []
  }

  function StatusFilter(opts: ListUsersOptions): seq<Filter>
  {
    if opts.status.Some? then [StatusIs(opts.status.value)] else []
  }

  function SearchFilter(opts: ListUsersOptions): seq<Filter>
  {
    if opts.search.Some? && opts.search.value != "" then [NameOrEmailLike(opts.search.value)] else []
  }

  function SkillsFilter(opts: ListUsersOptions): seq<Filter>
  {
    if opts.skills.Some? && |opts.skills.value| > 0 then [HasAnySkill(opts.skills.value)] else []
  }

  /** The filters a call applies, in the order role, status, search, skills. */
  function Filters(opts: ListUsersOptions): seq<Filter>
  {
    RoleFilter(opts) + StatusFilter(opts) + SearchFilter(opts) + SkillsFilter(opts)
  }

  /** Whether the k-th option in test order (role, status, search, skills) is truthy. */
  predicate Supplied(opts: ListUsersOptions, k: nat)
  {
    if k == 0 then opts.role.Some?
    else if k == 1 then opts.status.Some?
    else if k == 2 then opts.search.Some? && opts.search.value != ""
    else k == 3 && opts.skills.Some? && |opts.skills.value| > 0
  }

  /** The part of `Filters` the k-th test contributes. */
  function Component(opts: ListUsersOptions, k: nat): seq<Filter>
  {
    if k == 0 then RoleFilter(opts)
    else if k == 1 then StatusFilter(opts)
    else if k == 2 then SearchFilter(opts)
    else if k == 3 then SkillsFilter(opts)
    else []
  }

  lemma ComponentShape(opts: ListUsersOptions, k: nat)
    ensures |Component(opts, k)| == if Supplied(opts, k) then 1 else 0
    ensures forall f :: f in Component(opts, k) ==> Rank(f) == k
  {
  }

  /** A filter of each kind is applied exactly when its option is truthy. */
  lemma FiltersPresent(opts: ListUsersOptions, k: nat)
    ensures Supplied(opts, k) <==> exists f :: f in Filters(opts) && Rank(f) == k
  {
    var fs := Filters(opts);
    assert fs == Component(opts, 0) + Component(opts, 1) + Component(opts, 2) + Component(opts, 3);
    ComponentShape(opts, 0);
    ComponentShape(opts, 1);
    ComponentShape(opts, 2);
    ComponentShape(opts, 3);
    ComponentShape(opts, k);
    if Supplied(opts, k) {
      assert Component(opts, k)[0] in fs;
    }
  }

  ghost predicate Ranked(fs: seq<Filter>)
  {
    forall i, j :: 0 <= i < j < |fs| ==> Rank(fs[i]) < Rank(fs[j])
  }

  lemma RankedAppend(xs: seq<Filter>, ys: seq<Filter>)
    requires Ranked(xs) && Ranked(ys)
    requires forall x, y :: x in xs && y in ys ==> Rank(x) < Rank(y)
    ensures Ranked(xs + ys)
  {
    var zs := xs + ys;
    forall i, j | 0 <= i < j < |zs|
      ensures Rank(zs[i]) < Rank(zs[j])
    {
      if i < |xs| && j >= |xs| {
        assert zs[i] in xs && zs[j] == ys[j - |xs|];
      } else if i >= |xs| {
        assert zs[i] == ys[i - |xs|] && zs[j] == ys[j - |xs|];
      }
    }
  }

  /** The applied filters come in the order of the tests, at most one of each kind. */
  lemma FiltersOrdered(opts: ListUsersOptions)
    ensures Ranked(Filters(opts))
  {
    var a, b, c, d := RoleFilter(opts), StatusFilter(opts), SearchFilter(opts), SkillsFilter(opts);
    RankedAppend(a, b);
    RankedAppend(a + b, c);
    RankedAppend(a + b + c, d);
  }

  const ROLE_EQ := Lit("role = ")
  const STATUS_EQ := Lit("status = ")
  const FIRST_NAME_LIKE := Lit("(first_name ILIKE ")
  const OR_LAST_NAME_LIKE := Lit(" OR last_name ILIKE ")
  const OR_EMAIL_LIKE := Lit(" OR email ILIKE ")
  const CLOSE := Lit(")")
  const SKILLS_OVERLAP := Lit("skills_tags && ")

  /** The fixed SQL text the filter conditions are built from. */
  const CONDITION_TEXT: set<Piece> := {ROLE_EQ, STATUS_EQ, FIRST_NAME_LIKE, OR_LAST_NAME_LIKE, OR_EMAIL_LIKE, CLOSE, SKILLS_OVERLAP}

  /**
   * The text of a filter's condition when its value is bound to $p: it
   * uses that placeholder and no other, and every other piece is fixed
   * text, so the filter's value never reaches the SQL.
   */
  function Condition(f: Filter, p: nat): (c: Sql)
    ensures forall n: nat :: Ph(n) in c <==> n == p
    ensures forall x :: x in c ==> x.Ph? || x in CONDITION_TEXT
  {
    match f
    case RoleIs(_) => [ROLE_EQ, Ph(p)]
    case StatusIs(_) => [STATUS_EQ, Ph(p)]
    case NameOrEmailLike(_) => [FIRST_NAME_LIKE, Ph(p), OR_LAST_NAME_LIKE, Ph(p), OR_EMAIL_LIKE, Ph(p), CLOSE]
    case HasAnySkill(_) => [SKILLS_OVERLAP, Ph(p)]
  }

  /** The search condition uses its one placeholder three times; the others use theirs once. */
  lemma ConditionPlaceholderCount(f: Filter, p: nat)
    ensures multiset(Condition(f, p))[Ph(p)] == if f.NameOrEmailLike? then 3 else 1
  {
    match f
    case RoleIs(_) =>
    case StatusIs(_) =>
    case NameOrEmailLike(_) =>
    case HasAnySkill(_) =>
  }

  /** `%search%`: the search text anywhere in the column. */
  function SearchPattern(s: string): string
  {
    "%" + s + "%"
  }

  /**
   * The one parameter a filter binds, as it is: the role's stored key, which
   * reads back as the role; the status's key; the search text between two
   * `%` wildcards; the skills list.
   */
  function FilterParam(f: Filter): (p: Param)
    ensures p.Raw?
    ensures f.RoleIs? ==> p.value.Str? && Roles.ParseRole(p.value.text) == Some(f.role)
    ensures f.StatusIs? ==> p.value == Str(StatusKey(f.status))
    ensures f.NameOrEmailLike? ==>
              && p.value.Str? && |p.value.text| == |f.search| + 2
              && p.value.text[0] == '%' == p.value.text[|p.value.text| - 1]
              && p.value.text[1..|p.value.text| - 1] == f.search
    ensures f.HasAnySkill? ==> p.value == TextList(f.skills)
  {
    match f
    case RoleIs(r) => Roles.KeyRoundTrip(r); Raw(Str(Roles.RoleKey(r)))
    case StatusIs(s) => Raw(Str(StatusKey(s)))
    case NameOrEmailLike(s) => Raw(Str(SearchPattern(s)))
    case HasAnySkill(tags) => Raw(TextList(tags))
  }

  /** The conditions of the filters, the i-th bound to $(i+1). */
  function Conditions(fs: seq<Filter>): (cs: seq<Sql>)
    ensures |cs| == |fs| && Numbered(cs)
  {
    seq(|fs|, i requires 0 <= i < |fs| => Condition(fs[i], i + 1))
  }

  function FilterParams(fs: seq<Filter>): (ps: seq<Param>)
    ensures |ps| == |fs|
  {
    seq(|fs|, i requires 0 <= i < |fs| => FilterParam(fs[i]))
  }

  const WHERE := Lit("WHERE ")
  const AND := Lit(" AND ")

  /** The WHERE clause: nothing without conditions, else "WHERE " and the conditions joined by " AND ". */
  function Where(conditions: seq<Sql>): (w: Sql)
    ensures conditions == [] <==> w == []
    ensures Numbered(conditions) ==> forall n: nat :: Ph(n) in w <==> 1 <= n <= |conditions|
  {
    if |conditions| > 0 then
      JoinNumberedIfNumbered(conditions, [AND]);
      [WHERE] + Join(conditions, [AND])
    else []
  }

  lemma JoinNumberedIfNumbered(parts: seq<Sql>, sep: Sql)
    requires forall m: nat :: Ph(m) !in sep
    ensures Numbered(parts) ==> forall n: nat :: Ph(n) in Join(parts, sep) <==> 1 <= n <= |parts|
  {
    if Numbered(parts) {
      JoinNumbered(parts, sep);
    }
  }

  const COUNT_HEAD := Lit("SELECT COUNT(*) as count FROM users ")
  const PAGE_HEAD := Lit("SELECT * FROM users ")
  const PAGE_ORDER := Lit(" ORDER BY last_name ASC, first_name ASC LIMIT ")
  const PAGE_OFFSET := Lit(" OFFSET ")

  /**
   * The count query for the conditions and their parameters: the whole
   * table without conditions, and aligned when the i-th of k conditions
   * uses $(i+1) and there are k parameters.
   */
  function CountQuery(conditions: seq<Sql>, params: seq<Param>): (q: Query)
    ensures q.params == params
    ensures conditions == [] ==> q.sql == [COUNT_HEAD]
    ensures Numbered(conditions) && |params| == |conditions| ==> Aligned(q)
  {
    Query([COUNT_HEAD] + Where(conditions), params)
  }

  /**
   * The page query: the same WHERE clause, then LIMIT and OFFSET bound
   * after the filter values at the next two placeholders.
   */
  function PageQuery(conditions: seq<Sql>, params: seq<Param>, limit: real, offset: real): (q: Query)
    ensures |q.params| == |params| + 2 && q.params[..|params|] == params
    ensures q.params[|params|] == Raw(Num(limit)) && q.params[|params| + 1] == Raw(Num(offset))
    ensures Numbered(conditions) && |params| == |conditions| ==> Aligned(q)
  {
    var k := |params|;
    Query([PAGE_HEAD] + Where(conditions) + [PAGE_ORDER, Ph(k + 1), PAGE_OFFSET, Ph(k + 2)],
          params + [Raw(Num(limit)), Raw(Num(offset))])
  }

  /**
   * The first half of `listUsers`: one condition and one parameter per
   * applied filter, the i-th condition using $(i+1), and the next free
   * placeholder index.
   */
  method FilterClauses(opts: ListUsersOptions) returns (conditions: seq<Sql>, params: seq<Param>, paramIndex: nat)
    ensures conditions == Conditions(Filters(opts))
    ensures params == FilterParams(Filters(opts))
    ensures paramIndex == |params| + 1
  {
    ghost var fs: seq<Filter> := [];
    conditions := [];
    params := [];
    paramIndex := 1;

    if opts.role.Some? {
      TracksStep(fs, conditions, params, paramIndex, RoleIs(opts.role.value));
      conditions := conditions + [[ROLE_EQ, Ph(paramIndex)]];
      paramIndex := paramIndex + 1;
      params := params + [Raw(Str(Roles.RoleKey(opts.role.value)))];
    }
    fs := fs + RoleFilter(opts);
    assert fs == RoleFilter(opts);
    assert Tracks(fs, conditions, params, paramIndex);
    if opts.status.Some? {
      TracksStep(fs, conditions, params, paramIndex, StatusIs(opts.status.value));
      conditions := conditions + [[STATUS_EQ, Ph(paramIndex)]];
      paramIndex := paramIndex + 1;
      params := params + [Raw(Str(StatusKey(opts.status.value)))];
    }
    fs := fs + StatusFilter(opts);
    assert fs == RoleFilter(opts) + StatusFilter(opts);
    assert Tracks(fs, conditions, params, paramIndex);
    if opts.search.Some? && opts.search.value != "" {
      TracksStep(fs, conditions, params, paramIndex, NameOrEmailLike(opts.search.value));
      conditions := conditions + [[FIRST_NAME_LIKE, Ph(paramIndex), OR_LAST_NAME_LIKE, Ph(paramIndex),
                                   OR_EMAIL_LIKE, Ph(paramIndex), CLOSE]];
      params := params + [Raw(Str(SearchPattern(opts.search.value)))];
      paramIndex := paramIndex + 1;
    }
    fs := fs + SearchFilter(opts);
    assert fs == RoleFilter(opts) + StatusFilter(opts) + SearchFilter(opts);
    assert Tracks(fs, conditions, params, paramIndex);
    if opts.skills.Some? && |opts.skills.value| > 0 {
      TracksStep(fs, conditions, params, paramIndex, HasAnySkill(opts.skills.value));
      conditions := conditions + [[SKILLS_OVERLAP, Ph(paramIndex)]];
      paramIndex := paramIndex + 1;
      params := params + [Raw(TextList(opts.skills.value))];
    }
    fs := fs + SkillsFilter(opts);
    assert fs == Filters(opts);
    TracksSpec(fs, conditions, params, paramIndex);
  }

  /**
   * The two queries of `listUsers`: the total count and one page of users.
   * The k filter values take $1 … $k; the page's limit and offset, which
   * default to 50 and 0, take $(k+1) and $(k+2) and follow them.
   */
  method ListUsersQueries(opts: ListUsersOptions) returns (count: Query, page: Query)
    ensures var fs := Filters(opts);
            && count == CountQuery(Conditions(fs), FilterParams(fs))
            && page == PageQuery(Conditions(fs), FilterParams(fs), opts.limit.GetOr(50.0), opts.offset.GetOr(0.0))
    ensures Aligned(count) && Aligned(page)
  {
    var conditions, params, paramIndex := FilterClauses(opts);

    var where := if |conditions| > 0 then [WHERE] + Join(conditions, [AND]) else [];
    count := Query([COUNT_HEAD] + where, params);

    var limit := opts.limit.GetOr(50.0);
    var offset := opts.offset.GetOr(0.0);
    var limitIndex := paramIndex;
    paramIndex := paramIndex + 1;
    var offsetIndex := paramIndex;
    paramIndex := paramIndex + 1;
    page := Query([PAGE_HEAD] + where + [PAGE_ORDER, Ph(limitIndex), PAGE_OFFSET, Ph(offsetIndex)],
                  params + [Raw(Num(limit)), Raw(Num(offset))]);
  }

  /** The method's lists follow the filters applied so far, and the next index is one past them. */
  ghost predicate Tracks(fs: seq<Filter>, conditions: seq<Sql>, params: seq<Param>, paramIndex: int)
  {
    && |conditions| == |fs| && |params| == |fs| && paramIndex == |fs| + 1
    && (forall i :: 0 <= i < |fs| ==> conditions[i] == Condition(fs[i], i + 1))
    && (forall i :: 0 <= i < |fs| ==> params[i] == FilterParam(fs[i]))
  }

  lemma TracksStep(fs: seq<Filter>, conditions: seq<Sql>, params: seq<Param>, paramIndex: int, f: Filter)
    requires Tracks(fs, conditions, params, paramIndex)
    ensures Tracks(fs + [f], conditions + [Condition(f, paramIndex)], params + [FilterParam(f)], paramIndex + 1)
  {
  }

  lemma TracksSpec(fs: seq<Filter>, conditions: seq<Sql>, params: seq<Param>, paramIndex: int)
    requires Tracks(fs, conditions, params, paramIndex)
    ensures conditions == Conditions(fs) && params == FilterParams(fs)
  {
  }

  /** Without filters both queries run over the whole table and the page binds only $1 and $2. */
  lemma NoFiltersNoWhere(opts: ListUsersOptions, count: Query, page: Query)
    requires Filters(opts) == []
    ensures Where(Conditions(Filters(opts))) == []
    ensures FilterParams(Filters(opts)) == []
  {
  }

  /**
   * The SQL text of `listUsers` depends only on which options are
   * truthy, never on their values: two calls that supply the same
   * options build the same conditions and the same count and page text.
   */
  lemma ListSqlIgnoresValues(o1: ListUsersOptions, o2: ListUsersOptions)
    requires forall k: nat :: Supplied(o1, k) <==> Supplied(o2, k)
    ensures Conditions(Filters(o1)) == Conditions(Filters(o2))
    ensures var fs1, fs2 := Filters(o1), Filters(o2);
            && CountQuery(Conditions(fs1), FilterParams(fs1)).sql == CountQuery(Conditions(fs2), FilterParams(fs2)).sql
            && PageQuery(Conditions(fs1), FilterParams(fs1), o1.limit.GetOr(50.0), o1.offset.GetOr(0.0)).sql
               == PageQuery(Conditions(fs2), FilterParams(fs2), o2.limit.GetOr(50.0), o2.offset.GetOr(0.0)).sql
  {
    var fs1, fs2 := Filters(o1), Filters(o2);
    SameRanks(o1, o2);
    SameConditions(fs1, fs2);
    QueryTextIgnoresParams(Conditions(fs1), FilterParams(fs1), FilterParams(fs2),
                           o1.limit.GetOr(50.0), o1.offset.GetOr(0.0), o2.limit.GetOr(50.0), o2.offset.GetOr(0.0));
  }

  /** Filters of the same kinds in the same order give the same conditions. */
  lemma SameConditions(fs1: seq<Filter>, fs2: seq<Filter>)
    requires Ranks(fs1) == Ranks(fs2)
    ensures Conditions(fs1) == Conditions(fs2)
  {
    assert |fs1| == |Ranks(fs1)| == |fs2|;
    forall i | 0 <= i < |fs1|
      ensures Conditions(fs1)[i] == Conditions(fs2)[i]
    {
      assert Ranks(fs1)[i] == Ranks(fs2)[i];
      ConditionByRank(fs1[i], fs2[i], i + 1);
    }
  }

  /** The text of both queries depends on the conditions and the number of parameters only. */
  lemma QueryTextIgnoresParams(conditions: seq<Sql>, p1: seq<Param>, p2: seq<Param>,
                               limit1: real, offset1: real, limit2: real, offset2: real)
    requires |p1| == |p2|
    ensures CountQuery(conditions, p1).sql == CountQuery(conditions, p2).sql
    ensures PageQuery(conditions, p1, limit1, offset1).sql == PageQuery(conditions, p2, limit2, offset2).sql
  {
  }

  /** The ranks of the filters, in order. */
  function Ranks(fs: seq<Filter>): (rs: seq<nat>)
    ensures |rs| == |fs| && forall i :: 0 <= i < |fs| ==> rs[i] == Rank(fs[i])
  {
    seq(|fs|, i requires 0 <= i < |fs| => Rank(fs[i]))
  }

  /** Options with the same truthy tests apply filters of the same kinds in the same order. */
  lemma SameRanks(o1: ListUsersOptions, o2: ListUsersOptions)
    requires forall k: nat :: Supplied(o1, k) <==> Supplied(o2, k)
    ensures Ranks(Filters(o1)) == Ranks(Filters(o2))
  {
    assert Supplied(o1, 0) <==> Supplied(o2, 0);
    assert Supplied(o1, 1) <==> Supplied(o2, 1);
    assert Supplied(o1, 2) <==> Supplied(o2, 2);
    assert Supplied(o1, 3) <==> Supplied(o2, 3);
    assert Ranks(RoleFilter(o1)) == Ranks(RoleFilter(o2));
    assert Ranks(StatusFilter(o1)) == Ranks(StatusFilter(o2));
    assert Ranks(SearchFilter(o1)) == Ranks(SearchFilter(o2));
    assert Ranks(SkillsFilter(o1)) == Ranks(SkillsFilter(o2));
    RanksAppend(RoleFilter(o1), StatusFilter(o1), SearchFilter(o1), SkillsFilter(o1));
    RanksAppend(RoleFilter(o2), StatusFilter(o2), SearchFilter(o2), SkillsFilter(o2));
  }

  lemma RanksAppend(a: seq<Filter>, b: seq<Filter>, c: seq<Filter>, d: seq<Filter>)
    ensures Ranks(a + b + c + d) == Ranks(a) + Ranks(b) + Ranks(c) + Ranks(d)
  {
  }

  /** The condition's text depends only on the kind of filter, not on its value. */
  lemma ConditionByRank(f: Filter, g: Filter, p: nat)
    requires Rank(f) == Rank(g)
    ensures Condition(f, p) == Condition(g, p)
  {
  }

  // ── createUser / updateUser ──────────────────────────────

  /** Columns stored as `jsonb`: bound as JSON text behind a `::jsonb` cast. */
  const JSON_COLUMNS: set<string> :=
    {"emergency_contact", "bank_details", "certifications", "availability", "notification_prefs"}

  /** Array columns: bound as they are. */
  const ARRAY_COLUMNS: set<string> := {"skills_tags", "preferred_areas"}

  /** No array column is a JSON column, so arrays are bound as they are. */
  lemma ArrayColumnsAreNotJson(key: string)
    requires key in ARRAY_COLUMNS
    ensures key !in JSON_COLUMNS
  {
    assert key[0] == 's' || key[0] == 'p';
  }

  /** `Object.entries(input)`: each field with its value, None where the value is `undefined`. */
  type Entries = seq<(string, Option<Value>)>

  /** The fields that have a value, in order. */
  function Defined(entries: Entries): (d: seq<(string, Value)>)
    ensures |d| <= |entries|
    ensures forall k, v :: (k, v) in d <==> (k, Some(v)) in entries
  {
    if entries == [] then []
    else
      var last := entries[|entries| - 1];
      var d := Defined(entries[..|entries| - 1]);
      assert entries == entries[..|entries| - 1] + [last];
      if last.1.Some? then d + [(last.0, last.1.value)] else d
  }

  /** The placeholder of a column bound to $n. */
  function ColumnPlaceholder(key: string, n: nat): (c: Sql)
    ensures forall m: nat :: Ph(m) in c <==> m == n
  {
    if key in JSON_COLUMNS then [Ph(n), Lit("::jsonb")] else [Ph(n)]
  }

  /** The parameter a column binds. */
  function ColumnParam(key: string, v: Value): (p: Param)
    ensures p.value == v
    ensures p.Json? <==> key in JSON_COLUMNS
  {
    if key in JSON_COLUMNS then Json(v) else Raw(v)
  }

  function Columns(d: seq<(string, Value)>): (cs: seq<string>)
    ensures |cs| == |d| && forall i :: 0 <= i < |d| ==> cs[i] == d[i].0
  {
    seq(|d|, i requires 0 <= i < |d| => d[i].0)
  }

  function ColumnPlaceholders(d: seq<(string, Value)>): (ps: seq<Sql>)
    ensures |ps| == |d| && Numbered(ps)
  {
    seq(|d|, i requires 0 <= i < |d| => ColumnPlaceholder(d[i].0, i + 1))
  }

  function ColumnParams(d: seq<(string, Value)>): (ps: seq<Param>)
    ensures |ps| == |d|
    ensures forall i :: 0 <= i < |d| ==> ps[i].value == d[i].1 && (ps[i].Json? <==> d[i].0 in JSON_COLUMNS)
  {
    seq(|d|, i requires 0 <= i < |d| => ColumnParam(d[i].0, d[i].1))
  }

  const INSERT_HEAD := "\n    INSERT INTO users ("
  const INSERT_VALUES := ")\n    VALUES ("
  const INSERT_TAIL := ")\n    RETURNING *\n  "

  /** The INSERT for the given columns and placeholders; numbered placeholders make it use $1 … $k. */
  function InsertSql(columns: seq<string>, placeholders: seq<Sql>): (sql: Sql)
    ensures Numbered(placeholders) ==> forall n: nat :: Ph(n) in sql <==> 1 <= n <= |placeholders|
  {
    JoinNumberedIfNumbered(placeholders, [Lit(", ")]);
    [Lit(INSERT_HEAD + Join(columns, ", ") + INSERT_VALUES)] + Join(placeholders, [Lit(", ")]) + [Lit(INSERT_TAIL)]
  }

  /**
   * The INSERT of `createUser`: undefined fields are skipped; every other
   * field adds a column, a placeholder and a value, so the three lists stay
   * the same length; the JSON columns get a `::jsonb` placeholder and a
   * stringified value.
   */
  method CreateUserQuery(entries: Entries) returns (q: Query)
    ensures var d := Defined(entries);
            q == Query(InsertSql(Columns(d), ColumnPlaceholders(d)), ColumnParams(d))
    ensures Aligned(q)
  {
    var columns: seq<string> := [];
    var placeholders: seq<Sql> := [];
    var values: seq<Param> := [];
    var idx := 1;
    var e := 0;
    while e < |entries|
      invariant 0 <= e <= |entries|
      invariant InsertState(Defined(entries[..e]), columns, placeholders, values, idx)
    {
      var key := entries[e].0;
      var value := entries[e].1;
      DefinedStep(entries, e);
      e := e + 1;
      if value.None? {
        continue;
      }
      InsertStep(Defined(entries[..e - 1]), columns, placeholders, values, idx, key, value.value);
      columns := columns + [key];
      if key in ARRAY_COLUMNS {
        ArrayColumnsAreNotJson(key);
        placeholders := placeholders + [[Ph(idx)]];
        idx := idx + 1;
      } else if key in JSON_COLUMNS {
        placeholders := placeholders + [[Ph(idx), Lit("::jsonb")]];
        idx := idx + 1;
        values := values + [Json(value.value)];
        continue;
      } else {
        placeholders := placeholders + [[Ph(idx)]];
        idx := idx + 1;
      }
      values := values + [Raw(value.value)];
    }
    assert entries[..e] == entries;
    InsertSpec(Defined(entries), columns, placeholders, values, idx);
    q := Query(InsertSql(columns, placeholders), values);
  }

  /** The lists `createUser` has built for the defined fields `d`, and the next placeholder index. */
  ghost predicate InsertState(d: seq<(string, Value)>, columns: seq<string>, placeholders: seq<Sql>,
                              values: seq<Param>, idx: int)
  {
    && |columns| == |d| && |placeholders| == |d| && |values| == |d| && idx == |d| + 1
    && (forall i :: 0 <= i < |d| ==> columns[i] == d[i].0)
    && (forall i :: 0 <= i < |d| ==> placeholders[i] == ColumnPlaceholder(d[i].0, i + 1))
    && (forall i :: 0 <= i < |d| ==> values[i] == ColumnParam(d[i].0, d[i].1))
  }

  /** One more entry extends the defined fields by that entry exactly when it has a value. */
  lemma DefinedStep(entries: Entries, e: nat)
    requires e < |entries|
    ensures Defined(entries[..e + 1]) ==
            Defined(entries[..e]) + (if entries[e].1.Some? then [(entries[e].0, entries[e].1.value)] else [])
  {
    assert entries[..e + 1][..e] == entries[..e];
  }

  lemma InsertStep(d: seq<(string, Value)>, columns: seq<string>, placeholders: seq<Sql>,
                   values: seq<Param>, idx: int, key: string, v: Value)
    requires InsertState(d, columns, placeholders, values, idx) && idx >= 0
    ensures InsertState(d + [(key, v)], columns + [key], placeholders + [ColumnPlaceholder(key, idx)],
                        values + [ColumnParam(key, v)], idx + 1)
  {
  }

  lemma InsertSpec(d: seq<(string, Value)>, columns: seq<string>, placeholders: seq<Sql>,
                   values: seq<Param>, idx: int)
    requires InsertState(d, columns, placeholders, values, idx)
    ensures columns == Columns(d) && placeholders == ColumnPlaceholders(d) && values == ColumnParams(d)
  {
  }

  /** `updateUser` either falls back to `getUserById` or runs an UPDATE. */
  datatype UpdatePlan = FetchById(fetch: Query) | Update(update: Query)

  /** `key = $n`, with a `::jsonb` cast for the JSON columns. */
  function SetClause(key: string, n: nat): (c: Sql)
    ensures forall m: nat :: Ph(m) in c <==> m == n
  {
    if key in JSON_COLUMNS then [Lit(key + " = "), Ph(n), Lit("::jsonb")] else [Lit(key + " = "), Ph(n)]
  }

  function SetClauses(d: seq<(string, Value)>): (cs: seq<Sql>)
    ensures |cs| == |d| && Numbered(cs)
  {
    seq(|d|, i requires 0 <= i < |d| => SetClause(d[i].0, i + 1))
  }

  const UPDATE_HEAD := Lit("\n    UPDATE users SET ")
  const UPDATE_WHERE := Lit("\n    WHERE id = ")
  const UPDATE_TAIL := Lit("\n    RETURNING *\n  ")

  /** The UPDATE for the given SET clauses, the id bound to $(n+1); numbered clauses make it use $1 … $(n+1). */
  function UpdateSql(sets: seq<Sql>): (sql: Sql)
    ensures Ph(|sets| + 1) in sql
    ensures Numbered(sets) ==> forall n: nat :: Ph(n) in sql <==> 1 <= n <= |sets| + 1
  {
    JoinNumberedIfNumbered(sets, [Lit(", ")]);
    [UPDATE_HEAD] + Join(sets, [Lit(", ")]) + [UPDATE_WHERE, Ph(|sets| + 1), UPDATE_TAIL]
  }

  /**
   * The loop of `updateUser`: one SET clause and one value per defined
   * field, the i-th clause using $(i+1), and the next free index.
   */
  method UpdateClauses(entries: Entries) returns (sets: seq<Sql>, values: seq<Param>, idx: nat)
    ensures sets == SetClauses(Defined(entries)) && values == ColumnParams(Defined(entries))
    ensures idx == |sets| + 1
  {
    sets := [];
    values := [];
    idx := 1;
    var e := 0;
    while e < |entries|
      invariant 0 <= e <= |entries|
      invariant UpdateState(Defined(entries[..e]), sets, values, idx)
    {
      var key := entries[e].0;
      var value := entries[e].1;
      DefinedStep(entries, e);
      e := e + 1;
      if value.None? {
        continue;
      }
      UpdateStep(Defined(entries[..e - 1]), sets, values, idx, key, value.value);
      if key in JSON_COLUMNS {
        sets := sets + [[Lit(key + " = "), Ph(idx), Lit("::jsonb")]];
        idx := idx + 1;
        values := values + [Json(value.value)];
      } else {
        sets := sets + [[Lit(key + " = "), Ph(idx)]];
        idx := idx + 1;
        values := values + [Raw(value.value)];
      }
    }
    assert entries[..e] == entries;
    UpdateSpec(Defined(entries), sets, values, idx);
  }

  /**
   * The query of `updateUser`: with no defined field there is no UPDATE and
   * the user is read by id; otherwise one SET clause per defined field,
   * the field values in order and the id last, at $(n+1).
   */
  method UpdateUserQuery(id: string, entries: Entries) returns (plan: UpdatePlan)
    ensures Defined(entries) == [] ==> plan == FetchById(GetUserById(id))
    ensures Defined(entries) != [] ==>
              plan == Update(Query(UpdateSql(SetClauses(Defined(entries))), ColumnParams(Defined(entries)) + [Raw(Str(id))]))
    ensures plan.FetchById? ==> Aligned(plan.fetch)
    ensures plan.Update? ==> Aligned(plan.update) && plan.update.params[|plan.update.params| - 1] == Raw(Str(id))
  {
    var sets, values, idx := UpdateClauses(entries);
    if |sets| == 0 {
      return FetchById(GetUserById(id));
    }
    values := values + [Raw(Str(id))];
    plan := Update(Query(UpdateSql(sets), values));
  }

  /** The lists `updateUser` has built for the defined fields `d`, and the next placeholder index. */
  ghost predicate UpdateState(d: seq<(string, Value)>, sets: seq<Sql>, values: seq<Param>, idx: int)
  {
    && |sets| == |d| && |values| == |d| && idx == |d| + 1
    && (forall i :: 0 <= i < |d| ==> sets[i] == SetClause(d[i].0, i + 1))
    && (forall i :: 0 <= i < |d| ==> values[i] == ColumnParam(d[i].0, d[i].1))
  }

  lemma UpdateStep(d: seq<(string, Value)>, sets: seq<Sql>, values: seq<Param>, idx: int, key: string, v: Value)
    requires UpdateState(d, sets, values, idx) && idx >= 0
    ensures UpdateState(d + [(key, v)], sets + [SetClause(key, idx)], values + [ColumnParam(key, v)], idx + 1)
  {
  }

  lemma UpdateSpec(d: seq<(string, Value)>, sets: seq<Sql>, values: seq<Param>, idx: int)
    requires UpdateState(d, sets, values, idx)
    ensures sets == SetClauses(d) && values == ColumnParams(d) && idx == |d| + 1
  {
  }

  /** The fields `deactivateUser` sets: the status "terminated" and the end date `today`. */
  function DeactivateEntries(today: string): Entries
  {
    [("status", Some(Str(StatusKey(Terminated)))), ("end_date", Some(Str(today)))]
  }

  lemma DeactivateFields(today: string)
    ensures SetClauses(Defined(DeactivateEntries(today))) == [SetClause("status", 1), SetClause("end_date", 2)]
    ensures ColumnParams(Defined(DeactivateEntries(today))) == [Raw(Str("terminated")), Raw(Str(today))]
  {
    var d := Defined(DeactivateEntries(today));
    DeactivateDefined(today);
    TwoColumns(d);
    assert "status" !in JSON_COLUMNS && "end_date" !in JSON_COLUMNS by {
      assert |"status"| == 6 && |"end_date"| == 8;
      assert forall k :: k in JSON_COLUMNS ==> |k| >= 12;
    }
  }

  lemma TwoColumns(d: seq<(string, Value)>)
    requires |d| == 2
    ensures SetClauses(d) == [SetClause(d[0].0, 1), SetClause(d[1].0, 2)]
    ensures ColumnParams(d) == [ColumnParam(d[0].0, d[0].1), ColumnParam(d[1].0, d[1].1)]
  {
  }

  lemma DeactivateDefined(today: string)
    ensures Defined(DeactivateEntries(today)) == [("status", Str("terminated")), ("end_date", Str(today))]
  {
    var entries := DeactivateEntries(today);
    assert entries[..1] == [entries[0]];
  }

  /** `deactivateUser`: an UPDATE of the status to "terminated" and the end date to today's ISO date. */
  method DeactivateUserQuery(id: string, today: string) returns (plan: UpdatePlan)
    ensures plan == Update(Query(UpdateSql([SetClause("status", 1), SetClause("end_date", 2)]),
                                 [Raw(Str("terminated")), Raw(Str(today)), Raw(Str(id))]))
    ensures Aligned(plan.update)
  {
    DeactivateFields(today);
    plan := UpdateUserQuery(id, DeactivateEntries(today));
  }

  /** Two field lists with the same keys, each defined in both or in neither. */
  predicate SameShape(e1: Entries, e2: Entries)
  {
    |e1| == |e2| && forall i :: 0 <= i < |e1| ==> e1[i].0 == e2[i].0 && (e1[i].1.Some? <==> e2[i].1.Some?)
  }

  /**
   * The SQL text of `createUser` and `updateUser` depends only on which
   * fields are defined, never on their values: the values reach the
   * query only through its parameters.
   */
  lemma WriteSqlIgnoresValues(e1: Entries, e2: Entries)
    requires SameShape(e1, e2)
    ensures var d1, d2 := Defined(e1), Defined(e2);
            && InsertSql(Columns(d1), ColumnPlaceholders(d1)) == InsertSql(Columns(d2), ColumnPlaceholders(d2))
            && UpdateSql(SetClauses(d1)) == UpdateSql(SetClauses(d2))
  {
    var d1, d2 := Defined(e1), Defined(e2);
    DefinedColumns(e1, e2);
    assert |d1| == |Columns(d1)| == |d2|;
    forall i | 0 <= i < |d1|
      ensures d1[i].0 == d2[i].0
    {
      assert Columns(d1)[i] == Columns(d2)[i];
    }
    assert ColumnPlaceholders(d1) == ColumnPlaceholders(d2);
    assert SetClauses(d1) == SetClauses(d2);
  }

  /** Field lists of the same shape define the same columns, in the same order. */
  lemma {:induction false} DefinedColumns(e1: Entries, e2: Entries)
    requires SameShape(e1, e2)
    ensures Columns(Defined(e1)) == Columns(Defined(e2))
  {
    if e1 != [] {
      var n := |e1| - 1;
      assert SameShape(e1[..n], e2[..n]);
      DefinedColumns(e1[..n], e2[..n]);
      DefinedColumnsStep(e1, e2, n);
      assert e1[..n + 1] == e1 && e2[..n + 1] == e2;
    }
  }

  lemma DefinedColumnsStep(e1: Entries, e2: Entries, n: nat)
    requires SameShape(e1, e2) && n < |e1|
    requires Columns(Defined(e1[..n])) == Columns(Defined(e2[..n]))
    ensures Columns(Defined(e1[..n + 1])) == Columns(Defined(e2[..n + 1]))
  {
    DefinedStep(e1, n);
    DefinedStep(e2, n);
    var p1, p2 := Defined(e1[..n]), Defined(e2[..n]);
    if e1[n].1.Some? {
      ColumnsSnoc(p1, (e1[n].0, e1[n].1.value));
      ColumnsSnoc(p2, (e2[n].0, e2[n].1.value));
    }
  }

  lemma ColumnsSnoc(d: seq<(string, Value)>, x: (string, Value))
    ensures Columns(d + [x]) == Columns(d) + [x.0]
  {
  }

  /** `deleteUser`: the user was deleted when the DELETE returned a row. */
  function DeleteUserQuery(id: string): (q: Query)
    ensures Aligned(q) && q.params == [Raw(Str(id))]
  {
    Query([Lit("DELETE FROM users WHERE id = "), Ph(1), Lit(" RETURNING id")], [Raw(Str(id))])
  }

  /** `updateUserLocation`: latitude, longitude and id at $1, $2 and $3; the timestamp is the database's `now()`. */
  function UpdateUserLocationQuery(id: string, lat: real, lng: real): (q: Query)
    ensures Aligned(q) && q.params == [Raw(Num(lat)), Raw(Num(lng)), Raw(Str(id))]
  {
    Query([Lit("UPDATE users\n     SET last_known_lat = "), Ph(1),
           Lit(",\n         last_known_lng = "), Ph(2),
           Lit(",\n         last_location_update = now()\n     WHERE id = "), Ph(3)],
          [Raw(Num(lat)), Raw(Num(lng)), Raw(Str(id))])
  }
}
