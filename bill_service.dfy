/**
 * The bill service: turning stored rows into bills, building the filtered
 * query, filtering by tags, and aggregating totals, per-category and per-tag
 * sums. The database runs the query and returns rows; here it is a function
 * parameter, as is the JSON decoding of the stored tag list.
 */
module BillService {
  import opened Wrappers
  import opened PyText

  /** The table's CHECK constraint admits only these two flags. */
  datatype Flag = Income | Expense

  /** A stored row; `tags` is the stored JSON text, possibly NULL. */
  datatype Row = Row(billId: int, name: string, amount: real, flag: Flag, category: string,
                     tags: Option<string>, timestamp: string)

  datatype Bill = Bill(billId: int, name: string, amount: real, flag: Flag, category: string,
                       tags: seq<string>, timestamp: string)

  /** `json.loads` on a stored tag list: None where it raises JSONDecodeError. */
  type TagDecoder = string -> Option<seq<string>>

  // ---------------------------------------------------------------------
  // _format_bill
  // ---------------------------------------------------------------------

  function DecodeTags(raw: Option<string>, decode: TagDecoder): seq<string>
  {
    if raw.None? || raw.value == "" then []
    else match decode(raw.value)
      case None => []
      case Some(tags) => tags
  }

  /**
   * `_format_bill`: no row gives no bill; otherwise every column is copied
   * and the tags are decoded, with NULL, empty or malformed text read as no tags.
   */
  function FormatBill(row: Option<Row>, decode: TagDecoder): (b: Option<Bill>)
    ensures row.None? <==> b.None?
    ensures row.Some? ==>
              var r := row.value;
              && b.value.billId == r.billId && b.value.name == r.name && b.value.amount == r.amount
              && b.value.flag == r.flag && b.value.category == r.category && b.value.timestamp == r.timestamp
              && (r.tags.None? || r.tags == Some("") || decode(r.tags.value).None? ==> b.value.tags == [])
              && (r.tags.Some? && r.tags.value != "" && decode(r.tags.value).Some? ==>
                    b.value.tags == decode(r.tags.value).value)
  {
    match row
    case None => None
    case Some(r) => Some(Bill(r.billId, r.name, r.amount, r.flag, r.category, DecodeTags(r.tags, decode), r.timestamp))
  }

  // ---------------------------------------------------------------------
  // fetch_bills: the query
  // ---------------------------------------------------------------------

  const BaseQuery := "SELECT * FROM bills WHERE 1=1"
  const OrderBy := " ORDER BY timestamp DESC"
  const EndOfDay := " 23:59:59"

  /** Python truthiness of an optional string: present and non-empty. */
  predicate Supplied(s: Option<string>)
  {
    s.Some? && s.value != ""
  }

  /** Which column a filter constrains. */
  datatype FilterKind = ByCategory | FromDate | ToDate

  function ClauseText(k: FilterKind): string
  {
    match k
    case ByCategory => CategoryClause
    case FromDate => StartClause
    case ToDate => EndClause
  }

  datatype Filter = Filter(kind: FilterKind, param: string)
  {
    function clause(): string { ClauseText(kind) }
  }

  /** The filters in force, in the order category, start, end. */
  function Filters(category: Option<string>, startDate: Option<string>, endDate: Option<string>): (fs: seq<Filter>)
    ensures |fs| <= 3
  {
    (if Supplied(category) then [Filter(ByCategory, category.value)] else [])
    + (if Supplied(startDate) then [Filter(FromDate, startDate.value)] else [])
    + (if Supplied(endDate) then [Filter(ToDate, endDate.value + EndOfDay)] else [])
  }

  function Clauses(fs: seq<Filter>): string
  {
    if fs == [] then "" else Clauses(fs[..|fs| - 1]) + fs[|fs| - 1].clause()
  }

  function Params(fs: seq<Filter>): (ps: seq<string>)
    ensures |ps| == |fs|
  {
    if fs == [] then [] else Params(fs[..|fs| - 1]) + [fs[|fs| - 1].param]
  }

  /** Each filter's clause carries exactly one placeholder. */
  lemma {:induction false} ClausesPlaceholders(fs: seq<Filter>)
    ensures Count(Clauses(fs), '?') == |fs|
  {
    if fs != [] {
      ClausesPlaceholders(fs[..|fs| - 1]);
      OneEach(fs[|fs| - 1].kind);
      CountConcat(Clauses(fs[..|fs| - 1]), fs[|fs| - 1].clause(), '?');
    }
  }

  const CategoryClause := " AND category = ?"
  const StartClause := " AND timestamp >= ?"
  const EndClause := " AND timestamp <= ?"

  /** A clause that ends in its only placeholder. */
  lemma OnePlaceholder(prefix: string)
    requires '?' !in prefix
    ensures Count(prefix + "?", '?') == 1
  {
    CountAbsent(prefix, '?');
    CountConcat(prefix, "?", '?');
    assert "?"[1..] == [];
  }

  lemma CategoryClausePlaceholder()
    ensures Count(CategoryClause, '?') == 1
  {
    assert CategoryClause == " AND category = " + "?";
    OnePlaceholder(" AND category = ");
  }

  lemma StartClausePlaceholder()
    ensures Count(StartClause, '?') == 1
  {
    assert StartClause == " AND timestamp >= " + "?";
    OnePlaceholder(" AND timestamp >= ");
  }

  lemma EndClausePlaceholder()
    ensures Count(EndClause, '?') == 1
  {
    assert EndClause == " AND timestamp <= " + "?";
    OnePlaceholder(" AND timestamp <= ");
  }

  /**
   * The filters: one per supplied argument, in the order category, start,
   * end; the end date is widened to the end of its day.
   */
  lemma FiltersSpec(category: Option<string>, startDate: Option<string>, endDate: Option<string>)
    ensures var fs := Filters(category, startDate, endDate);
            && |fs| == (if Supplied(category) then 1 else 0) + (if Supplied(startDate) then 1 else 0)
                       + (if Supplied(endDate) then 1 else 0)
            && (Supplied(category) ==> fs[0] == Filter(ByCategory, category.value))
            && (Supplied(startDate) ==> Filter(FromDate, startDate.value) in fs)
            && (Supplied(endDate) ==> fs[|fs| - 1] == Filter(ToDate, endDate.value + EndOfDay))
  {
  }

  /** Every kind of clause carries exactly one placeholder. */
  lemma OneEach(k: FilterKind)
    ensures Count(ClauseText(k), '?') == 1
  {
    match k
    case ByCategory => CategoryClausePlaceholder();
    case FromDate => StartClausePlaceholder();
    case ToDate => EndClausePlaceholder();
  }

  lemma BaseQueryPlaceholders()
    ensures Count(BaseQuery, '?') == 0
  {
    assert '?' !in BaseQuery;
    CountAbsent(BaseQuery, '?');
  }

  lemma OrderByPlaceholders()
    ensures Count(OrderBy, '?') == 0
  {
    assert '?' !in OrderBy;
    CountAbsent(OrderBy, '?');
  }

  /** A query built from any filters holds one placeholder per parameter. */
  lemma QueryPlaceholders(fs: seq<Filter>)
    ensures Count(BaseQuery + Clauses(fs) + OrderBy, '?') == |Params(fs)|
  {
    ClausesPlaceholders(fs);
    BaseQueryPlaceholders();
    OrderByPlaceholders();
    CountConcat(BaseQuery, Clauses(fs), '?');
    CountConcat(BaseQuery + Clauses(fs), OrderBy, '?');
  }

  /**
   * The query building of `fetch_bills`: one clause and one parameter per
   * supplied filter, appended in order, and the ordering clause last.
   */
  method BuildQuery(category: Option<string>, startDate: Option<string>, endDate: Option<string>)
    returns (query: string, params: seq<string>)
    ensures var fs := Filters(category, startDate, endDate);
            query == BaseQuery + Clauses(fs) + OrderBy && params == Params(fs)
    ensures Count(query, '?') == |params|
  {
    query, params := BaseQuery, [];
    assert query == BaseQuery + Clauses([]);
    ghost var fs: seq<Filter> := [];
    query, params, fs := AppendFilter(query, params, fs, Supplied(category), Filter(ByCategory, OrEmpty(category)));
    query, params, fs := AppendFilter(query, params, fs, Supplied(startDate), Filter(FromDate, OrEmpty(startDate)));
    query, params, fs := AppendFilter(query, params, fs, Supplied(endDate), Filter(ToDate, OrEmpty(endDate) + EndOfDay));
    assert fs == Filters(category, startDate, endDate);
    query := query + OrderBy;
    QueryPlaceholders(fs);
  }

  function OrEmpty(s: Option<string>): string
  {
    if s.Some? then s.value else ""
  }

  /** `if supplied: query += clause; params.append(param)`. */
  method AppendFilter(query: string, params: seq<string>, ghost fs: seq<Filter>, supplied: bool, f: Filter)
    returns (query': string, params': seq<string>, ghost fs': seq<Filter>)
    requires query == BaseQuery + Clauses(fs) && params == Params(fs)
    ensures fs' == fs + (if supplied then [f] else [])
    ensures query' == BaseQuery + Clauses(fs') && params' == Params(fs')
  {
    if supplied {
      query' := query + f.clause();
      params' := params + [f.param];
      fs' := fs + [f];
      ClausesSnoc(fs, f);
      AppendAssoc(BaseQuery, Clauses(fs), f.clause());
    } else {
      query', params', fs' := query, params, fs;
      assert fs + [] == fs;
    }
  }

  lemma ClausesSnoc(fs: seq<Filter>, f: Filter)
    ensures Clauses(fs + [f]) == Clauses(fs) + f.clause()
    ensures Params(fs + [f]) == Params(fs) + [f.param]
  {
    assert (fs + [f])[..|fs|] == fs;
  }

  /** Helper: the query text is the same however its pieces are grouped. */
  lemma AppendAssoc(a: string, b: string, c: string)
    ensures a + b + c == a + (b + c)
  {
  }

  // ---------------------------------------------------------------------
  // fetch_bills: the tag filter
  // ---------------------------------------------------------------------

  /** `not set(wanted).isdisjoint(set(tags))`. */
  predicate Intersects(tags: seq<string>, wanted: seq<string>)
  {
    exists t :: t in wanted && t in tags
  }

  /** The bills whose tags meet the wanted ones, in their original order. */
  function KeepTagged(bills: seq<Bill>, wanted: seq<string>): seq<Bill>
  {
    if bills == [] then []
    else KeepTagged(bills[..|bills| - 1], wanted)
         + (if Intersects(bills[|bills| - 1].tags, wanted) then [bills[|bills| - 1]] else [])
  }

  /** Exactly the intersecting bills are kept. */
  lemma {:induction false} KeepTaggedMembers(bills: seq<Bill>, wanted: seq<string>)
    ensures |KeepTagged(bills, wanted)| <= |bills|
    ensures forall b :: b in KeepTagged(bills, wanted) <==> b in bills && Intersects(b.tags, wanted)
  {
    if bills != [] {
      var init := bills[..|bills| - 1];
      KeepTaggedMembers(init, wanted);
      assert bills == init + [bills[|bills| - 1]];
    }
  }

  /** Filtering distributes over concatenation, so the kept bills stay in input order. */
  lemma {:induction false} KeepTaggedConcat(a: seq<Bill>, b: seq<Bill>, wanted: seq<string>)
    ensures KeepTagged(a + b, wanted) == KeepTagged(a, wanted) + KeepTagged(b, wanted)
  {
    if b == [] {
      assert a + b == a;
    } else {
      var init, last := b[..|b| - 1], b[|b| - 1];
      var x := if Intersects(last.tags, wanted) then [last] else [];
      KeepTaggedConcat(a, init, wanted);
      assert (a + b)[..|a + b| - 1] == a + init && (a + b)[|a + b| - 1] == last;
      assert KeepTagged(a + b, wanted) == KeepTagged(a, wanted) + KeepTagged(init, wanted) + x;
      assert KeepTagged(b, wanted) == KeepTagged(init, wanted) + x;
    }
  }

  /** `set(wanted).isdisjoint(set(tags))`, computed. */
  function Disjoint(tags: seq<string>, wanted: seq<string>): (r: bool)
    ensures r <==> !Intersects(tags, wanted)
  {
    if tags == [] then true
    else if tags[0] in wanted then (assert tags[0] in tags; false)
    else (assert forall t :: t in tags[1..] ==> t in tags; Disjoint(tags[1..], wanted))
  }

  /** The tag filter of `fetch_bills`: with no tags (None or empty) every bill is kept. */
  method FilterByTags(bills: seq<Bill>, tags: Option<seq<string>>) returns (kept: seq<Bill>)
    ensures tags.None? || tags.value == [] ==> kept == bills
    ensures tags.Some? && tags.value != [] ==> kept == KeepTagged(bills, tags.value)
  {
    if tags.None? || tags.value == [] {
      return bills;
    }
    var wanted := tags.value;
    kept := [];
    var i := 0;
    while i < |bills|
      invariant 0 <= i <= |bills|
      invariant kept == KeepTagged(bills[..i], wanted)
    {
      assert bills[..i + 1][..i] == bills[..i];
      if !Disjoint(bills[i].tags, wanted) {
        kept := kept + [bills[i]];
      }
      i := i + 1;
    }
    assert bills[..|bills|] == bills;
  }

  /** `fetch_bills`: build the query, let the database run it, format the rows, filter by tags. */
  method FetchBills(category: Option<string>, tags: Option<seq<string>>,
                    startDate: Option<string>, endDate: Option<string>,
                    run: (string, seq<string>) -> seq<Row>, decode: TagDecoder)
    returns (bills: seq<Bill>)
    ensures var fs := Filters(category, startDate, endDate);
            var all := Formatted(run(BaseQuery + Clauses(fs) + OrderBy, Params(fs)), decode);
            bills == (if tags.None? || tags.value == [] then all else KeepTagged(all, tags.value))
  {
    var query, params := BuildQuery(category, startDate, endDate);
    var rows := run(query, params);
    bills := FilterByTags(Formatted(rows, decode), tags);
  }

  /** `[self._format_bill(row) for row in rows]`; fetched rows are never None. */
  function Formatted(rows: seq<Row>, decode: TagDecoder): (bills: seq<Bill>)
    ensures |bills| == |rows|
    ensures forall i :: 0 <= i < |rows| ==> Some(bills[i]) == FormatBill(Some(rows[i]), decode)
  {
    seq(|rows|, i requires 0 <= i < |rows| => FormatBill(Some(rows[i]), decode).value)
  }

  // ---------------------------------------------------------------------
  // get_statistics
  // ---------------------------------------------------------------------

  /** `{'income': …, 'expense': …}`. */
  datatype FlagSums = FlagSums(income: real, expense: real)

  const Zero := FlagSums(0.0, 0.0)

  /** `sums[flag] += amount`. */
  function Credit(s: FlagSums, flag: Flag, amount: real): FlagSums
  {
    match flag
    case Income => FlagSums(s.income + amount, s.expense)
    case Expense => FlagSums(s.income, s.expense + amount)
  }

  function Plus(a: FlagSums, b: FlagSums): FlagSums
  {
    FlagSums(a.income + b.income, a.expense + b.expense)
  }

  /** One entry of `by_category` or `by_tag`; the list keeps the dict's insertion order. */
  datatype Bucket = Bucket(key: string, sums: FlagSums)

  function Keys(bk: seq<Bucket>): (ks: seq<string>)
    ensures |ks| == |bk|
    ensures forall i :: 0 <= i < |bk| ==> ks[i] == bk[i].key
  {
    if bk == [] then [] else [bk[0].key] + Keys(bk[1..])
  }

  predicate DistinctKeys(bk: seq<Bucket>)
  {
    forall i, j :: 0 <= i < j < |bk| ==> bk[i].key != bk[j].key
  }

  /** `d.get(key, {'income': 0, 'expense': 0})`. */
  function Lookup(bk: seq<Bucket>, key: string): FlagSums
  {
    if bk == [] then Zero else if bk[0].key == key then bk[0].sums else Lookup(bk[1..], key)
  }

  /** All buckets added up. */
  function Total(bk: seq<Bucket>): FlagSums
  {
    if bk == [] then Zero else Plus(bk[0].sums, Total(bk[1..]))
  }

  /** `if key not in d: d[key] = {0, 0}` then `d[key][flag] += amount`. */
  function AddTo(bk: seq<Bucket>, key: string, flag: Flag, amount: real): seq<Bucket>
  {
    if bk == [] then [Bucket(key, Credit(Zero, flag, amount))]
    else if bk[0].key == key then [Bucket(key, Credit(bk[0].sums, flag, amount))] + bk[1..]
    else [bk[0]] + AddTo(bk[1..], key, flag, amount)
  }

  /** Adding to a bucket changes that key's sums only. */
  lemma {:induction false} AddToLookup(bk: seq<Bucket>, key: string, flag: Flag, amount: real, k: string)
    ensures Lookup(AddTo(bk, key, flag, amount), k)
            == if k == key then Credit(Lookup(bk, key), flag, amount) else Lookup(bk, k)
  {
    if bk != [] && bk[0].key != key {
      AddToLookup(bk[1..], key, flag, amount, k);
    }
  }

  /** Adding to a bucket adds the amount to the grand total. */
  lemma {:induction false} AddToTotal(bk: seq<Bucket>, key: string, flag: Flag, amount: real)
    ensures Total(AddTo(bk, key, flag, amount)) == Credit(Total(bk), flag, amount)
  {
    if bk != [] && bk[0].key != key {
      AddToTotal(bk[1..], key, flag, amount);
    }
  }

  /** A new key is appended at the end; an existing one stays where it is. */
  lemma {:induction false} AddToKeys(bk: seq<Bucket>, key: string, flag: Flag, amount: real)
    ensures Keys(AddTo(bk, key, flag, amount)) == if key in Keys(bk) then Keys(bk) else Keys(bk) + [key]
  {
    if bk != [] {
      assert Keys(bk) == [bk[0].key] + Keys(bk[1..]);
      if bk[0].key != key {
        AddToKeys(bk[1..], key, flag, amount);
        if key !in Keys(bk[1..]) {
          assert Keys(bk) + [key] == [bk[0].key] + (Keys(bk[1..]) + [key]);
        }
      }
    }
  }

  predicate DistinctSeq(ks: seq<string>)
  {
    forall i, j :: 0 <= i < j < |ks| ==> ks[i] != ks[j]
  }

  lemma DistinctKeysSeq(bk: seq<Bucket>)
    ensures DistinctKeys(bk) <==> DistinctSeq(Keys(bk))
  {
  }

  /** Keys stay distinct. */
  lemma AddToDistinct(bk: seq<Bucket>, key: string, flag: Flag, amount: real)
    requires DistinctKeys(bk)
    ensures DistinctKeys(AddTo(bk, key, flag, amount))
  {
    AddToKeys(bk, key, flag, amount);
    DistinctKeysSeq(bk);
    DistinctKeysSeq(AddTo(bk, key, flag, amount));
  }

  /** Income and expense of a list of bills, as the loop accumulates them. */
  function Tally(bills: seq<Bill>): FlagSums
  {
    if bills == [] then Zero else Credit(Tally(bills[..|bills| - 1]), bills[|bills| - 1].flag, bills[|bills| - 1].amount)
  }

  /** The bills of one category, in order. */
  function InCategory(bills: seq<Bill>, c: string): seq<Bill>
  {
    if bills == [] then []
    else InCategory(bills[..|bills| - 1], c) + (if bills[|bills| - 1].category == c then [bills[|bills| - 1]] else [])
  }

  /** `by_category` after the loop. */
  function CategorySums(bills: seq<Bill>): seq<Bucket>
  {
    if bills == [] then []
    else AddTo(CategorySums(bills[..|bills| - 1]), bills[|bills| - 1].category, bills[|bills| - 1].flag, bills[|bills| - 1].amount)
  }

  /** `for tag in tags: by_tag[tag][flag] += amount`. */
  function AddTags(bk: seq<Bucket>, tags: seq<string>, flag: Flag, amount: real): seq<Bucket>
  {
    if tags == [] then bk else AddTo(AddTags(bk, tags[..|tags| - 1], flag, amount), tags[|tags| - 1], flag, amount)
  }

  /** `by_tag` after the loop. */
  function TagSums(bills: seq<Bill>): seq<Bucket>
  {
    if bills == [] then []
    else var b := bills[|bills| - 1];
         AddTags(TagSums(bills[..|bills| - 1]), b.tags, b.flag, b.amount)
  }

  function Occurrences(tags: seq<string>, t: string): nat
  {
    if tags == [] then 0 else Occurrences(tags[..|tags| - 1], t) + (if tags[|tags| - 1] == t then 1 else 0)
  }

  /** Each bill's sums, counted once per occurrence of `t` among its tags. */
  function TagTally(bills: seq<Bill>, t: string): FlagSums
  {
    if bills == [] then Zero
    else var b := bills[|bills| - 1];
         Credit(TagTally(bills[..|bills| - 1], t), b.flag, Scale(b.amount, Occurrences(b.tags, t)))
  }

  /** Each bill's sums, counted once per tag it carries. */
  function TagWeight(bills: seq<Bill>): FlagSums
  {
    if bills == [] then Zero
    else var b := bills[|bills| - 1];
         Credit(TagWeight(bills[..|bills| - 1]), b.flag, Scale(b.amount, |b.tags|))
  }

  /** An amount counted `n` times. */
  function Scale(amount: real, n: nat): real
  {
    amount * (n as real)
  }

  /** Helper: one more count adds the amount once more. */
  lemma ScaleSucc(amount: real, n: nat)
    ensures Scale(amount, n) + amount == Scale(amount, n + 1)
  {
  }

  /** Helper: two credits to the same flag are one credit of their sum. */
  lemma CreditTwice(s: FlagSums, flag: Flag, a: real, b: real)
    ensures Credit(Credit(s, flag, a), flag, b) == Credit(s, flag, a + b)
  {
  }

  /** One bill's tags: each tag's entry grows by the amount times its occurrences. */
  lemma {:induction false} AddTagsLookup(bk: seq<Bucket>, tags: seq<string>, flag: Flag, amount: real, k: string)
    ensures Lookup(AddTags(bk, tags, flag, amount), k) == Credit(Lookup(bk, k), flag, Scale(amount, Occurrences(tags, k)))
  {
    if tags != [] {
      var init := tags[..|tags| - 1];
      AddTagsLookup(bk, init, flag, amount, k);
      AddToLookup(AddTags(bk, init, flag, amount), tags[|tags| - 1], flag, amount, k);
      var n := Occurrences(init, k);
      assert init == tags[..|tags| - 1];
      if tags[|tags| - 1] == k {
        assert Occurrences(tags, k) == n + 1;
        CreditTwice(Lookup(bk, k), flag, Scale(amount, n), amount);
        ScaleSucc(amount, n);
      } else {
        assert Occurrences(tags, k) == n;
      }
    } else {
      assert Credit(Lookup(bk, k), flag, 0.0) == Lookup(bk, k);
    }
  }

  /** One bill's tags: the grand total grows by the amount times the number of tags. */
  lemma {:induction false} AddTagsTotal(bk: seq<Bucket>, tags: seq<string>, flag: Flag, amount: real)
    ensures Total(AddTags(bk, tags, flag, amount)) == Credit(Total(bk), flag, Scale(amount, |tags|))
  {
    if tags != [] {
      var init := tags[..|tags| - 1];
      AddTagsTotal(bk, init, flag, amount);
      AddToTotal(AddTags(bk, init, flag, amount), tags[|tags| - 1], flag, amount);
      CreditTwice(Total(bk), flag, Scale(amount, |init|), amount);
      assert |tags| == |init| + 1;
      ScaleSucc(amount, |init|);
    } else {
      assert Credit(Total(bk), flag, 0.0) == Total(bk);
    }
  }

  lemma {:induction false} AddTagsDistinct(bk: seq<Bucket>, tags: seq<string>, flag: Flag, amount: real)
    requires DistinctKeys(bk)
    ensures DistinctKeys(AddTags(bk, tags, flag, amount))
  {
    if tags != [] {
      AddTagsDistinct(bk, tags[..|tags| - 1], flag, amount);
      AddToDistinct(AddTags(bk, tags[..|tags| - 1], flag, amount), tags[|tags| - 1], flag, amount);
    }
  }

  /** The keys of `by_category` are distinct and are exactly the bills' categories. */
  lemma CategoryKeys(bills: seq<Bill>)
    ensures DistinctKeys(CategorySums(bills))
    ensures forall c :: c in Keys(CategorySums(bills)) <==> exists b :: b in bills && b.category == c
  {
    CategoryDistinct(bills);
    forall c ensures c in Keys(CategorySums(bills)) <==> exists b :: b in bills && b.category == c {
      CategoryKeyOf(bills, c);
      CategoryOfBill(bills, c);
    }
  }

  /** The categories of the bills, in order. */
  function Categories(bills: seq<Bill>): seq<string>
  {
    if bills == [] then [] else Categories(bills[..|bills| - 1]) + [bills[|bills| - 1].category]
  }

  lemma {:induction false} CategoryDistinct(bills: seq<Bill>)
    ensures DistinctKeys(CategorySums(bills))
  {
    if bills != [] {
      var b := bills[|bills| - 1];
      CategoryDistinct(bills[..|bills| - 1]);
      AddToDistinct(CategorySums(bills[..|bills| - 1]), b.category, b.flag, b.amount);
    }
  }

  lemma {:induction false} CategoryKeyOf(bills: seq<Bill>, c: string)
    ensures c in Keys(CategorySums(bills)) <==> c in Categories(bills)
  {
    if bills != [] {
      var b := bills[|bills| - 1];
      CategoryKeyOf(bills[..|bills| - 1], c);
      AddToKeys(CategorySums(bills[..|bills| - 1]), b.category, b.flag, b.amount);
    }
  }

  lemma {:induction false} CategoryOfBill(bills: seq<Bill>, c: string)
    ensures c in Categories(bills) <==> exists b :: b in bills && b.category == c
  {
    if bills != [] {
      var init := bills[..|bills| - 1];
      var b := bills[|bills| - 1];
      CategoryOfBill(init, c);
      assert bills == init + [b];
      if c in Categories(init) {
        var w :| w in init && w.category == c;
        assert w in bills;
      } else if c == b.category {
        assert b in bills;
      } else {
        assert forall w :: w in bills && w.category == c ==> w in init;
      }
    }
  }

  /** Each category's entry holds exactly the income and expense of that category's bills. */
  lemma {:induction false} CategoryLookup(bills: seq<Bill>, c: string)
    ensures Lookup(CategorySums(bills), c) == Tally(InCategory(bills, c))
  {
    if bills != [] {
      var init := bills[..|bills| - 1];
      var b := bills[|bills| - 1];
      CategoryLookup(init, c);
      AddToLookup(CategorySums(init), b.category, b.flag, b.amount, c);
      if c == b.category {
        assert InCategory(bills, c)[..|InCategory(bills, c)| - 1] == InCategory(init, c);
      } else {
        assert InCategory(bills, c) == InCategory(init, c);
      }
    }
  }

  /** The categories together add up to the totals. */
  lemma {:induction false} CategoryTotal(bills: seq<Bill>)
    ensures Total(CategorySums(bills)) == Tally(bills)
  {
    if bills != [] {
      var init := bills[..|bills| - 1];
      var b := bills[|bills| - 1];
      CategoryTotal(init);
      AddToTotal(CategorySums(init), b.category, b.flag, b.amount);
    }
  }

  /**
   * Conservation for `by_category`: the categories are distinct, appear
   * exactly when some bill has them, each holds its own bills' income and
   * expense, and together they add up to the totals.
   */
  lemma CategorySumsSpec(bills: seq<Bill>)
    ensures DistinctKeys(CategorySums(bills))
    ensures forall c :: c in Keys(CategorySums(bills)) <==> exists b :: b in bills && b.category == c
    ensures forall c :: Lookup(CategorySums(bills), c) == Tally(InCategory(bills, c))
    ensures Total(CategorySums(bills)) == Tally(bills)
  {
    CategoryKeys(bills);
    forall c ensures Lookup(CategorySums(bills), c) == Tally(InCategory(bills, c)) {
      CategoryLookup(bills, c);
    }
    CategoryTotal(bills);
  }

  lemma {:induction false} TagLookup(bills: seq<Bill>, t: string)
    ensures Lookup(TagSums(bills), t) == TagTally(bills, t)
  {
    if bills != [] {
      var init := bills[..|bills| - 1];
      var b := bills[|bills| - 1];
      TagLookup(init, t);
      AddTagsLookup(TagSums(init), b.tags, b.flag, b.amount, t);
    }
  }

  lemma {:induction false} TagTotal(bills: seq<Bill>)
    ensures DistinctKeys(TagSums(bills))
    ensures Total(TagSums(bills)) == TagWeight(bills)
  {
    if bills != [] {
      var init := bills[..|bills| - 1];
      var b := bills[|bills| - 1];
      TagTotal(init);
      AddTagsTotal(TagSums(init), b.tags, b.flag, b.amount);
      AddTagsDistinct(TagSums(init), b.tags, b.flag, b.amount);
    }
  }

  /**
   * Conservation for `by_tag`: the tags are distinct, each holds its bills'
   * sums counted once per occurrence of the tag, and together they add up
   * to every bill's sums counted once per tag, so untagged bills add nothing.
   */
  lemma TagSumsSpec(bills: seq<Bill>)
    ensures DistinctKeys(TagSums(bills))
    ensures forall t :: Lookup(TagSums(bills), t) == TagTally(bills, t)
    ensures Total(TagSums(bills)) == TagWeight(bills)
  {
    forall t ensures Lookup(TagSums(bills), t) == TagTally(bills, t) {
      TagLookup(bills, t);
    }
    TagTotal(bills);
  }

  /** What `get_statistics` returns. */
  datatype Statistics = Statistics(
    startDate: string, endDate: string,
    totalIncome: real, totalExpense: real, netTotal: real,
    byCategory: seq<Bucket>, byTag: seq<Bucket>,
    filteredBillCount: nat)

  /** The aggregation loop of `get_statistics` over already fetched bills. */
  method Aggregate(startDate: string, endDate: string, bills: seq<Bill>) returns (s: Statistics)
    ensures s.startDate == startDate && s.endDate == endDate
    ensures s.totalIncome == Tally(bills).income && s.totalExpense == Tally(bills).expense
    ensures s.netTotal == s.totalIncome - s.totalExpense
    ensures s.byCategory == CategorySums(bills) && s.byTag == TagSums(bills)
    ensures s.filteredBillCount == |bills|
    ensures Total(s.byCategory) == FlagSums(s.totalIncome, s.totalExpense)
    ensures Total(s.byTag) == TagWeight(bills)
  {
    var totalIncome, totalExpense := 0.0, 0.0;
    var byCategory: seq<Bucket> := [];
    var byTag: seq<Bucket> := [];
    var i := 0;
    while i < |bills|
      invariant 0 <= i <= |bills|
      invariant FlagSums(totalIncome, totalExpense) == Tally(bills[..i])
      invariant byCategory == CategorySums(bills[..i])
      invariant byTag == TagSums(bills[..i])
    {
      var bill := bills[i];
      assert bills[..i + 1][..i] == bills[..i];
      if bill.flag == Income {
        totalIncome := totalIncome + bill.amount;
      } else {
        totalExpense := totalExpense + bill.amount;
      }
      byCategory := AddTo(byCategory, bill.category, bill.flag, bill.amount);
      byTag := AddBillTags(byTag, bill.tags, bill.flag, bill.amount);
      i := i + 1;
    }
    assert bills[..i] == bills;
    s := Statistics(startDate, endDate, totalIncome, totalExpense, totalIncome - totalExpense,
                    byCategory, byTag, |bills|);
    CategoryTotal(bills);
    TagTotal(bills);
  }

  /**
   * The inner loop over one bill's tags: each tag's bucket is credited once
   * per occurrence, and the grand total grows by the amount once per tag.
   */
  method AddBillTags(byTag: seq<Bucket>, tags: seq<string>, flag: Flag, amount: real) returns (r: seq<Bucket>)
    ensures r == AddTags(byTag, tags, flag, amount)
    ensures forall k :: Lookup(r, k) == Credit(Lookup(byTag, k), flag, Scale(amount, Occurrences(tags, k)))
    ensures Total(r) == Credit(Total(byTag), flag, Scale(amount, |tags|))
  {
    r := byTag;
    var j := 0;
    while j < |tags|
      invariant 0 <= j <= |tags|
      invariant r == AddTags(byTag, tags[..j], flag, amount)
    {
      assert tags[..j + 1][..j] == tags[..j];
      r := AddTo(r, tags[j], flag, amount);
      j := j + 1;
    }
    assert tags[..j] == tags;
    forall k ensures Lookup(r, k) == Credit(Lookup(byTag, k), flag, Scale(amount, Occurrences(tags, k))) {
      AddTagsLookup(byTag, tags, flag, amount, k);
    }
    AddTagsTotal(byTag, tags, flag, amount);
  }

  /** `get_statistics`: `fetch_bills` with the same filters, then the aggregation. */
  method GetStatistics(startDate: string, endDate: string, category: Option<string>, tags: Option<seq<string>>,
                       run: (string, seq<string>) -> seq<Row>, decode: TagDecoder)
    returns (s: Statistics)
    ensures exists bills: seq<Bill> ::
              && bills == FetchedBills(startDate, endDate, category, tags, run, decode)
              && s.totalIncome == Tally(bills).income && s.totalExpense == Tally(bills).expense
              && s.netTotal == s.totalIncome - s.totalExpense
              && s.byCategory == CategorySums(bills) && s.byTag == TagSums(bills)
              && s.filteredBillCount == |bills|
    ensures s.startDate == startDate && s.endDate == endDate
  {
    var bills := FetchBills(category, tags, Some(startDate), Some(endDate), run, decode);
    s := Aggregate(startDate, endDate, bills);
  }

  /** What `fetch_bills` returns for the statistics' filters. */
  function FetchedBills(startDate: string, endDate: string, category: Option<string>, tags: Option<seq<string>>,
                        run: (string, seq<string>) -> seq<Row>, decode: TagDecoder): seq<Bill>
  {
    var fs := Filters(category, Some(startDate), Some(endDate));
    var all := Formatted(run(BaseQuery + Clauses(fs) + OrderBy, Params(fs)), decode);
    if tags.None? || tags.value == [] then all else KeepTagged(all, tags.value)
  }
}
