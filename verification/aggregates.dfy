/** Counts and sums over sets of expenses: what `count()`, `func.sum(Expense.amount)` and
    `GROUP BY category` compute in the handlers' queries. */
module Aggregates {
  import opened Models

  /** The sum of the amounts of the expenses `ids` (0 for none, as `scalar() or 0` gives). */
  ghost function Total(exps: map<nat, Expense>, ids: set<nat>): int
    requires ids <= exps.Keys
    decreases |ids|
  {
    if ids == {} then 0
    else var x :| x in ids; exps[x].amount + Total(exps, ids - {x})
  }

  /** Any expense can be taken out of the sum first. */
  lemma {:induction false} TotalRemove(exps: map<nat, Expense>, ids: set<nat>, y: nat)
    requires ids <= exps.Keys && y in ids
    ensures Total(exps, ids) == exps[y].amount + Total(exps, ids - {y})
    decreases |ids|
  {
    var x :| x in ids && Total(exps, ids) == exps[x].amount + Total(exps, ids - {x});
    if x != y {
      TotalRemove(exps, ids - {x}, y);
      TotalRemove(exps, ids - {y}, x);
      assert ids - {x} - {y} == ids - {y} - {x};
    }
  }

  /** The sum over two disjoint sets is the sum of the sums. */
  lemma {:induction false} TotalUnion(exps: map<nat, Expense>, a: set<nat>, b: set<nat>)
    requires a <= exps.Keys && b <= exps.Keys && a * b == {}
    ensures Total(exps, a + b) == Total(exps, a) + Total(exps, b)
    decreases |a|
  {
    if a == {} {
      assert a + b == b;
    } else {
      var x :| x in a;
      TotalRemove(exps, a + b, x);
      TotalRemove(exps, a, x);
      assert (a + b) - {x} == (a - {x}) + b;
      TotalUnion(exps, a - {x}, b);
    }
  }

  /** `func.sum(Expense.amount)` over the ids, one expense at a time. */
  method SumAmounts(exps: map<nat, Expense>, ids: set<nat>) returns (total: int)
    requires ids <= exps.Keys
    ensures total == Total(exps, ids)
  {
    total := 0;
    var todo := ids;
    while todo != {}
      invariant todo <= ids
      invariant total + Total(exps, todo) == Total(exps, ids)
      decreases |todo|
    {
      var id :| id in todo;
      TotalRemove(exps, todo, id);
      total := total + exps[id].amount;
      todo := todo - {id};
    }
  }

  /** The ids whose expense has status `st` (`filter_by(status=...)`). */
  function WithStatus(exps: map<nat, Expense>, ids: set<nat>, st: ExpenseStatus): (r: set<nat>)
    requires ids <= exps.Keys
    ensures r <= ids
    ensures forall id :: id in r <==> id in ids && exps[id].status == st
  {
    set id | id in ids && exps[id].status == st
  }

  /** A subset is no larger than its superset. */
  lemma {:induction false} SubsetCount(a: set<nat>, s: set<nat>)
    requires a <= s
    ensures |a| <= |s|
    decreases |a|
  {
    if a != {} {
      var x :| x in a;
      SubsetCount(a - {x}, s - {x});
    }
  }

  /** Disjoint parts of a set add up to at most its size. */
  lemma DisjointCountBound(a: set<nat>, b: set<nat>, c: set<nat>, s: set<nat>)
    requires a <= s && b <= s && c <= s
    requires a * b == {} && a * c == {} && b * c == {}
    ensures |a| + |b| + |c| <= |s|
  {
    assert |a + b| == |a| + |b|;
    assert (a + b) * c == {};
    assert |a + b + c| == |a + b| + |c|;
    SubsetCount(a + b + c, s);
  }

  /** The pending, approved and rejected counts of a set never exceed its size. */
  lemma StatusCountsBounded(exps: map<nat, Expense>, ids: set<nat>)
    requires ids <= exps.Keys
    ensures |WithStatus(exps, ids, Pending)| + |WithStatus(exps, ids, Approved)| + |WithStatus(exps, ids, Rejected)| <= |ids|
  {
    DisjointCountBound(WithStatus(exps, ids, Pending), WithStatus(exps, ids, Approved), WithStatus(exps, ids, Rejected), ids);
  }

  /** The ids whose expense is in category `c`. */
  function InCategory(exps: map<nat, Expense>, ids: set<nat>, c: string): (r: set<nat>)
    requires ids <= exps.Keys
    ensures r <= ids
    ensures forall id :: id in r <==> id in ids && exps[id].category == c
  {
    set id | id in ids && exps[id].category == c
  }

  /** One group of a `GROUP BY`: how many rows and the sum of their amounts. */
  datatype Bucket = Bucket(count: nat, total: int)

  /** The categories occurring among the ids. */
  function Categories(exps: map<nat, Expense>, ids: set<nat>): (cs: set<string>)
    requires ids <= exps.Keys
    ensures forall c :: c in cs <==> exists id :: id in ids && exps[id].category == c
  {
    set id | id in ids :: exps[id].category
  }

  /** The bucket of category `c` by definition: its rows counted and their amounts summed. */
  ghost function BucketOf(exps: map<nat, Expense>, ids: set<nat>, c: string): Bucket
    requires ids <= exps.Keys
  {
    Bucket(|InCategory(exps, ids, c)|, Total(exps, InCategory(exps, ids, c)))
  }

  /** `groups` holds exactly the buckets of the categories occurring among `ids`. */
  ghost predicate GroupsOf(exps: map<nat, Expense>, ids: set<nat>, groups: map<string, Bucket>)
    requires ids <= exps.Keys
  {
    && groups.Keys == Categories(exps, ids)
    && forall c :: c in groups ==> groups[c] == BucketOf(exps, ids, c)
  }

  /** Counting one more row into its category's bucket. */
  function AddRow(groups: map<string, Bucket>, e: Expense): map<string, Bucket> {
    var before := if e.category in groups then groups[e.category] else Bucket(0, 0);
    groups[e.category := Bucket(before.count + 1, before.total + e.amount)]
  }

  /** `GROUP BY Expense.category` with `count` and `sum`, one row at a time. */
  method CategoryTotals(exps: map<nat, Expense>, ids: set<nat>) returns (groups: map<string, Bucket>)
    requires ids <= exps.Keys
    ensures groups.Keys == Categories(exps, ids)
    ensures forall c :: c in groups ==> groups[c] == BucketOf(exps, ids, c)
  {
    groups := map[];
    var todo := ids;
    ghost var done: set<nat> := {};
    while todo != {}
      invariant todo <= ids && done <= ids && done * todo == {} && done + todo == ids
      invariant GroupsOf(exps, done, groups)
      decreases |todo|
    {
      var id :| id in todo;
      GroupStep(exps, done, id, groups);
      groups := AddRow(groups, exps[id]);
      done := done + {id};
      todo := todo - {id};
    }
  }

  /** Adding a row of category `c` adds `c` to the categories and nothing else. */
  lemma GroupKeysStep(exps: map<nat, Expense>, done: set<nat>, id: nat)
    requires done <= exps.Keys && id in exps
    ensures Categories(exps, done + {id}) == Categories(exps, done) + {exps[id].category}
  {
  }

  /** Adding a row of another category leaves a category's rows as they were. */
  lemma OtherBucketStep(exps: map<nat, Expense>, done: set<nat>, id: nat, k: string)
    requires done <= exps.Keys && id in exps && k != exps[id].category
    ensures InCategory(exps, done + {id}, k) == InCategory(exps, done, k)
  {
  }

  /** Adding a new row of category `c` counts it once more in `c`'s bucket and adds its amount. */
  lemma OwnBucketStep(exps: map<nat, Expense>, done: set<nat>, id: nat)
    requires done <= exps.Keys && id in exps && id !in done
    ensures var c := exps[id].category; var b := BucketOf(exps, done, c);
      BucketOf(exps, done + {id}, c) == Bucket(b.count + 1, b.total + exps[id].amount)
  {
    var c := exps[id].category;
    var grown := InCategory(exps, done + {id}, c);
    assert grown - {id} == InCategory(exps, done, c);
    TotalRemove(exps, grown, id);
  }

  /** Counting one more row keeps `groups` the buckets of the rows counted so far. */
  lemma GroupStep(exps: map<nat, Expense>, done: set<nat>, id: nat, groups: map<string, Bucket>)
    requires done <= exps.Keys && id in exps && id !in done
    requires GroupsOf(exps, done, groups)
    ensures GroupsOf(exps, done + {id}, AddRow(groups, exps[id]))
  {
    var c := exps[id].category;
    var grown := done + {id};
    assert grown <= exps.Keys;
    GroupKeysStep(exps, done, id);
    OwnBucketStep(exps, done, id);
    var b := BucketOf(exps, done, c);
    if c !in groups {
      assert InCategory(exps, done, c) == {};
      assert b == Bucket(0, 0);
    }
    var next := AddRow(groups, exps[id]);
    assert next == groups[c := Bucket(b.count + 1, b.total + exps[id].amount)];
    forall k | k in next
      ensures next[k] == BucketOf(exps, grown, k)
    {
      if k != c {
        OtherBucketStep(exps, done, id, k);
        assert next[k] == groups[k] == BucketOf(exps, done, k);
      }
    }
  }
}
