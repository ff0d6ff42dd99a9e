/** The admin user table of app/components/admin/UserTable.tsx: the rows of the
    `user_engagement` view filtered by e-mail search and plan, sorted by a chosen column,
    and the column-header toggle that picks the sort. */
module Admin {
  import opened Text
  import opened Seqs

  /** One row of the `user_engagement` view; `created_at` is in milliseconds. */
  datatype UserEngagement = UserEngagement(
    email: string,
    plan: string,
    created_at: int,
    project_count: int,
    total_spent_cents: int)

  datatype SortField = CreatedAt | TotalSpentCents | ProjectCount

  datatype SortOrder = Asc | Desc

  datatype PlanFilter = AllPlans | BasicPlan | StandardPlan | PremiumPlan

  function SortKey(u: UserEngagement, f: SortField): int
  {
    match f
    case CreatedAt => u.created_at
    case TotalSpentCents => u.total_spent_cents
    case ProjectCount => u.project_count
  }

  /** The row passes the search box and the plan selector. */
  predicate Matches(u: UserEngagement, searchTerm: string, planFilter: PlanFilter)
  {
    && Contains(ToLower(u.email), ToLower(searchTerm))
    && match planFilter
       case AllPlans => true
       case BasicPlan => u.plan == "basic"
       case StandardPlan => u.plan == "standard"
       case PremiumPlan => u.plan == "premium"
  }

  /** The comparator handed to `sort`: 1 puts a after b, -1 puts a before b; it never
      answers 0, and it puts a after b exactly when a's key comes strictly later. */
  function Compare(a: UserEngagement, b: UserEngagement, f: SortField, order: SortOrder): (c: int)
    ensures c == 1 || c == -1
    ensures c == 1 <==> (if order == Asc then SortKey(a, f) > SortKey(b, f) else SortKey(a, f) < SortKey(b, f))
  {
    if order == Asc then (if SortKey(a, f) > SortKey(b, f) then 1 else -1)
    else (if SortKey(a, f) < SortKey(b, f) then 1 else -1)
  }

  /** Two rows with equal keys: the comparator as written calls each one later than the
      other, which a `sort` comparator must not do. */
  lemma CompareTiesInconsistent()
    ensures var a := UserEngagement("a@example.com", "basic", 0, 1, 500);
      var b := UserEngagement("b@example.com", "premium", 0, 2, 500);
      Compare(a, b, TotalSpentCents, Desc) == -1 && Compare(b, a, TotalSpentCents, Desc) == -1
  {
  }

  /** The comparator the table evidently means: ties compare equal. */
  function CompareWithTies(a: UserEngagement, b: UserEngagement, f: SortField, order: SortOrder): (c: int)
    ensures -1 <= c <= 1
    ensures c == 0 <==> SortKey(a, f) == SortKey(b, f)
    ensures c > 0 <==> Compare(a, b, f, order) > 0
  {
    if SortKey(a, f) == SortKey(b, f) then 0 else Compare(a, b, f, order)
  }

  /** Swapping the arguments negates the corrected comparator, as `sort` requires. */
  lemma CompareWithTiesAntisymmetric(a: UserEngagement, b: UserEngagement, f: SortField, order: SortOrder)
    ensures CompareWithTies(a, b, f, order) == -CompareWithTies(b, a, f, order)
  {
  }

  /** a may stand before b in the sorted table. */
  predicate InOrder(a: UserEngagement, b: UserEngagement, f: SortField, order: SortOrder)
  {
    if order == Asc then SortKey(a, f) <= SortKey(b, f) else SortKey(a, f) >= SortKey(b, f)
  }

  predicate Sorted(s: seq<UserEngagement>, f: SortField, order: SortOrder)
  {
    forall i, j :: 0 <= i < j < |s| ==> InOrder(s[i], s[j], f, order)
  }

  /** Places u before the first row the corrected comparator does not put u after. */
  function Insert(u: UserEngagement, s: seq<UserEngagement>, f: SortField, order: SortOrder): (r: seq<UserEngagement>)
    requires Sorted(s, f, order)
    ensures Sorted(r, f, order)
    ensures multiset(r) == multiset(s) + multiset{u}
    decreases |s|
  {
    if s == [] then [u]
    else if CompareWithTies(u, s[0], f, order) > 0 then
      var rest := Insert(u, s[1..], f, order);
      assert multiset(s) == multiset{s[0]} + multiset(s[1..]) by { assert s == [s[0]] + s[1..]; }
      HeadBeforeAll(s[0], s[1..], u, rest, f, order);
      SortedCons(s[0], rest, f, order);
      [s[0]] + rest
    else
      SortedCons(u, s, f, order);
      [u] + s
  }

  /** A row that may stand before every row of a sorted table may head it. */
  lemma SortedCons(x: UserEngagement, t: seq<UserEngagement>, f: SortField, order: SortOrder)
    requires Sorted(t, f, order)
    requires forall k :: 0 <= k < |t| ==> InOrder(x, t[k], f, order)
    ensures Sorted([x] + t, f, order)
  {
    forall i, j | 0 <= i < j < |[x] + t| ensures InOrder(([x] + t)[i], ([x] + t)[j], f, order) {
      if i > 0 {
        assert ([x] + t)[i] == t[i - 1];
      }
      assert ([x] + t)[j] == t[j - 1];
    }
  }

  /** The head of a sorted table may stand before every row of its tail with u added, when
      the comparator puts u after that head. */
  lemma HeadBeforeAll(h: UserEngagement, tail: seq<UserEngagement>, u: UserEngagement, rest: seq<UserEngagement>,
                      f: SortField, order: SortOrder)
    requires Sorted([h] + tail, f, order)
    requires Compare(u, h, f, order) > 0
    requires multiset(rest) == multiset(tail) + multiset{u}
    ensures forall k :: 0 <= k < |rest| ==> InOrder(h, rest[k], f, order)
  {
    forall k | 0 <= k < |rest| ensures InOrder(h, rest[k], f, order) {
      assert rest[k] in multiset(rest);
      if rest[k] != u {
        assert rest[k] in multiset(tail);
        var m :| 0 <= m < |tail| && tail[m] == rest[k];
        assert ([h] + tail)[0] == h && ([h] + tail)[m + 1] == tail[m];
        assert InOrder(([h] + tail)[0], ([h] + tail)[m + 1], f, order);
      }
    }
  }

  /** The array sort with the table's comparator, as an insertion sort. */
  function SortUsers(s: seq<UserEngagement>, f: SortField, order: SortOrder): (r: seq<UserEngagement>)
    ensures Sorted(r, f, order)
    ensures multiset(r) == multiset(s)
    decreases |s|
  {
    if s == [] then []
    else
      assert s == [s[0]] + s[1..];
      Insert(s[0], SortUsers(s[1..], f, order), f, order)
  }

  /** `filteredUsers`: the matching rows, re-ordered by the chosen column. */
  function FilteredUsers(users: seq<UserEngagement>, searchTerm: string, planFilter: PlanFilter,
                         sortBy: SortField, sortOrder: SortOrder): (r: seq<UserEngagement>)
    ensures forall i :: 0 <= i < |r| ==> Matches(r[i], searchTerm, planFilter)
    ensures multiset(r) == multiset(Filter(users, u => Matches(u, searchTerm, planFilter)))
    ensures Sorted(r, sortBy, sortOrder)
    ensures forall i :: 0 <= i < |users| && Matches(users[i], searchTerm, planFilter) ==> users[i] in r
    ensures |r| <= |users|
  {
    var keep := u => Matches(u, searchTerm, planFilter);
    var kept := Filter(users, keep);
    FilterSound(users, keep);
    FilterComplete(users, keep);
    var r := SortUsers(kept, sortBy, sortOrder);
    assert |r| == |kept| by { assert |multiset(r)| == |multiset(kept)|; }
    assert forall i :: 0 <= i < |r| ==> r[i] in kept by {
      forall i | 0 <= i < |r| ensures r[i] in kept {
        assert r[i] in multiset(r);
      }
    }
    assert forall u :: u in kept ==> u in r by {
      forall u | u in kept ensures u in r {
        assert u in multiset(kept);
      }
    }
    r
  }

  /** In a sorted table, of two rows with different keys the one whose key comes first in
      the chosen order is shown first; `FilteredUsers` is sorted in this sense. */
  lemma {:induction false} DistinctKeysOrdered(r: seq<UserEngagement>, f: SortField, order: SortOrder, i: int, j: int)
    requires Sorted(r, f, order)
    requires 0 <= i < |r| && 0 <= j < |r| && SortKey(r[i], f) != SortKey(r[j], f)
    ensures i < j <==> (if order == Asc then SortKey(r[i], f) < SortKey(r[j], f) else SortKey(r[i], f) > SortKey(r[j], f))
  {
    if i < j {
      assert InOrder(r[i], r[j], f, order);
    } else {
      assert InOrder(r[j], r[i], f, order);
    }
  }

  /** The empty search matches every e-mail and `all` every plan. */
  lemma {:induction false} EmptySearchMatchesAll(u: UserEngagement)
    ensures Matches(u, "", AllPlans)
  {
    assert StartsWith(ToLower(u.email), ToLower(""));
  }

  /** `getPlanBadgeColor(plan)`. */
  function PlanBadgeColor(plan: string): string
  {
    if plan == "basic" then "bg-gray-100 text-gray-800"
    else if plan == "standard" then "bg-blue-100 text-blue-800"
    else if plan == "premium" then "bg-purple-100 text-purple-800"
    else "bg-gray-100 text-gray-800"
  }

  /** A plan the table does not know is badged like `basic`; the three known plans get three
      different badges. */
  lemma UnknownPlanBadge(plan: string)
    ensures plan != "standard" && plan != "premium" ==> PlanBadgeColor(plan) == PlanBadgeColor("basic")
    ensures PlanBadgeColor("basic") != PlanBadgeColor("standard")
    ensures PlanBadgeColor("standard") != PlanBadgeColor("premium")
    ensures PlanBadgeColor("basic") != PlanBadgeColor("premium")
  {
    assert "bg-gray-100 text-gray-800"[3] == 'g';
    assert "bg-blue-100 text-blue-800"[3] == 'b';
    assert "bg-purple-100 text-purple-800"[3] == 'p';
  }

  /** `handleSort(field)`: the same column flips the direction, a new column starts descending. */
  function ToggledSort(sortBy: SortField, sortOrder: SortOrder, field: SortField): (r: (SortField, SortOrder))
    ensures r.0 == field
    ensures field == sortBy ==> r.1 != sortOrder
    ensures field != sortBy ==> r.1 == Desc
  {
    if sortBy == field then (sortBy, if sortOrder == Asc then Desc else Asc)
    else (field, Desc)
  }

  /** Clicking the same header twice restores the sort. */
  lemma ToggleTwice(sortBy: SortField, sortOrder: SortOrder)
    ensures var (b, o) := ToggledSort(sortBy, sortOrder, sortBy); ToggledSort(b, o, sortBy) == (sortBy, sortOrder)
  {
  }

  /** The table's own state cells. */
  class UserTableState {
    var searchTerm: string
    var planFilter: PlanFilter
    var sortBy: SortField
    var sortOrder: SortOrder

    /** The initial state: no search, all plans, most spent first. */
    constructor ()
      ensures searchTerm == "" && planFilter == AllPlans
      ensures sortBy == TotalSpentCents && sortOrder == Desc
    {
      searchTerm := "";
      planFilter := AllPlans;
      sortBy := TotalSpentCents;
      sortOrder := Desc;
    }

    /** The rows the table renders for the loaded `users`. */
    function Shown(users: seq<UserEngagement>): seq<UserEngagement>
      reads this
    {
      FilteredUsers(users, searchTerm, planFilter, sortBy, sortOrder)
    }

    method SetSearchTerm(term: string)
      modifies this
      ensures searchTerm == term
      ensures planFilter == old(planFilter) && sortBy == old(sortBy) && sortOrder == old(sortOrder)
    {
      searchTerm := term;
    }

    method SetPlanFilter(filter: PlanFilter)
      modifies this
      ensures planFilter == filter
      ensures searchTerm == old(searchTerm) && sortBy == old(sortBy) && sortOrder == old(sortOrder)
    {
      planFilter := filter;
    }

    method HandleSort(field: SortField)
      modifies this
      ensures (sortBy, sortOrder) == ToggledSort(old(sortBy), old(sortOrder), field)
      ensures searchTerm == old(searchTerm) && planFilter == old(planFilter)
    {
      if sortBy == field {
        sortOrder := if sortOrder == Asc then Desc else Asc;
      } else {
        sortBy := field;
        sortOrder := Desc;
      }
    }
  }

  /** In the initial state every loaded row is shown, in descending order of spend. */
  lemma {:induction false} InitialShowsEveryone(users: seq<UserEngagement>)
    ensures var r := FilteredUsers(users, "", AllPlans, TotalSpentCents, Desc);
      multiset(r) == multiset(users) && |r| == |users|
  {
    forall i | 0 <= i < |users| ensures Matches(users[i], "", AllPlans) {
      EmptySearchMatchesAll(users[i]);
    }
    FilterAll(users, u => Matches(u, "", AllPlans));
    var r := FilteredUsers(users, "", AllPlans, TotalSpentCents, Desc);
    assert |multiset(r)| == |multiset(users)|;
  }
}
