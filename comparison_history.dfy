/** The comparison-history store of src/hooks/use-comparison-history.ts: a
    list of past profile comparisons, newest first, kept in browser storage
    under "ff_comparison_history", with three demo entries seeded once on
    first load (a flag under "ff_comparison_history_seeded_v1" records that),
    and the entries grouped by role. Instants are milliseconds since the
    epoch; their ISO rendering is not modelled. */
module History {
  import opened Common
  import opened Domain

  datatype Entry = Entry(
    id: string,
    createdAt: int,
    role: string,
    userMetrics: Metrics,
    topFreelancersAverage: Option<MetricsPatch>,
    userScore: Option<real>,
    competitorUrl: Option<string>)

  /** What a caller of addEntry supplies: everything but id and createdAt. */
  datatype EntryFields = EntryFields(
    role: string,
    userMetrics: Metrics,
    topFreelancersAverage: Option<MetricsPatch>,
    userScore: Option<real>,
    competitorUrl: Option<string>)

  /** `{ id, createdAt, ...partial }` */
  function NewEntry(f: EntryFields, id: string, createdAt: int): Entry
  {
    Entry(id, createdAt, f.role, f.userMetrics, f.topFreelancersAverage, f.userScore, f.competitorUrl)
  }

  // ---------------------------------------------------------------------
  // Demo data
  // ---------------------------------------------------------------------

  const Hour: int := 1000 * 60 * 60
  const Day: int := Hour * 24

  /** The three demo comparisons, dated a week, three days and twelve hours
      before now. */
  function SeedData(now: int): (s: seq<Entry>)
    ensures |s| == 3
    ensures s[0].id == "seed-1" && s[1].id == "seed-2" && s[2].id == "seed-3"
    ensures s[0].createdAt < s[1].createdAt < s[2].createdAt < now
    ensures forall i :: 0 <= i < 3 ==> s[i].userScore.Some? && s[i].topFreelancersAverage.Some?
  {
    [ Entry("seed-1", now - Day * 7, "web-developer",
        Metrics(72.0, 120.0, 18.0, 4.0, 55.0, ["React", "TypeScript", "Tailwind"], 8.0, 25.0),
        Some(MetricsPatch(Some(92.0), None, Some(35.0), None, Some(75.0), None, Some(15.0), Some(45.0))),
        Some(66.0), Some("https://example.com/freelancer/jane-doe")),
      Entry("seed-2", now - Day * 3, "graphic-designer",
        Metrics(65.0, 90.0, 16.0, 3.0, 40.0, ["Figma", "Illustrator", "Branding"], 6.0, 22.0),
        Some(MetricsPatch(Some(90.0), None, Some(32.0), None, Some(60.0), None, Some(14.0), Some(40.0))),
        Some(58.0), None),
      Entry("seed-3", now - Hour * 12, "marketing",
        Metrics(78.0, 140.0, 22.0, 5.0, 50.0, ["SEO", "Content", "GA4"], 10.0, 28.0),
        Some(MetricsPatch(Some(91.0), None, Some(34.0), None, Some(70.0), None, Some(16.0), Some(44.0))),
        Some(71.0), Some("https://example.com/freelancer/john-smith")) ]
  }

  // ---------------------------------------------------------------------
  // The load decision
  // ---------------------------------------------------------------------

  /** What JSON.parse made of the stored text. */
  datatype Parsed = Unparsable | NotArray | Array(items: seq<Entry>)

  /** `localStorage.getItem(STORAGE_KEY)`: null, or a text and its parse. */
  datatype StoredHistory = Missing | Text(raw: string, parsed: Parsed)

  datatype LoadAction = UseStored(items: seq<Entry>) | Seed | StayEmpty

  /** A storage read is truthy when it is present and not the empty string. */
  predicate Truthy(v: Option<string>)
  {
    v.Some? && v.value != ""
  }

  predicate HoldsEntries(s: StoredHistory)
  {
    s.Text? && s.raw != "" && s.parsed.Array? && |s.parsed.items| > 0
  }

  /** The mount effect: stored entries are used when the text parses to a
      non-empty array; otherwise the demo is seeded when the flag is falsy,
      except when the text is present but does not parse, which the catch
      block swallows. */
  function LoadDecision(s: StoredHistory, flag: Option<string>): (a: LoadAction)
    ensures a.UseStored? <==> HoldsEntries(s)
    ensures a.UseStored? ==> a.items == s.parsed.items
    ensures a.Seed? <==> !HoldsEntries(s) && !Truthy(flag) && !(s.Text? && s.raw != "" && s.parsed.Unparsable?)
  {
    if s.Text? && s.raw != "" then
      match s.parsed
      case Unparsable => StayEmpty
      case Array(items) =>
        if |items| > 0 then UseStored(items)
        else if !Truthy(flag) then Seed else StayEmpty
      case NotArray => if !Truthy(flag) then Seed else StayEmpty
    else if !Truthy(flag) then Seed
    else StayEmpty
  }

  // ---------------------------------------------------------------------
  // Removal and grouping
  // ---------------------------------------------------------------------

  /** `prev.filter(e => e.id !== id)` */
  function WithoutEntry(es: seq<Entry>, id: string): (r: seq<Entry>)
    ensures forall x :: x in r <==> x in es && x.id != id
  {
    Filter(es, (e: Entry) => e.id != id)
  }

  /** Removing keeps the other entries in order, removing an absent id
      changes nothing, and removing twice is removing once. */
  lemma WithoutEntryLaws(a: seq<Entry>, b: seq<Entry>, id: string)
    ensures WithoutEntry(a + b, id) == WithoutEntry(a, id) + WithoutEntry(b, id)
    ensures (forall x :: x in a ==> x.id != id) ==> WithoutEntry(a, id) == a
    ensures WithoutEntry(WithoutEntry(a, id), id) == WithoutEntry(a, id)
  {
    var keep := (e: Entry) => e.id != id;
    FilterAppend(a, b, keep);
    FilterIdempotent(a, keep);
    if forall x :: x in a ==> x.id != id {
      FilterAllKept(a, keep);
    }
  }

  /** The roles of the entries, in order. */
  function Roles(es: seq<Entry>): (r: seq<string>)
    ensures |r| == |es|
    ensures forall i :: 0 <= i < |es| ==> r[i] == es[i].role
  {
    if es == [] then [] else Roles(es[..|es| - 1]) + [es[|es| - 1].role]
  }

  /** The entries of one role, in order. */
  function OfRole(es: seq<Entry>, role: string): (r: seq<Entry>)
    ensures forall x :: x in r <==> x in es && x.role == role
  {
    Filter(es, (e: Entry) => e.role == role)
  }

  lemma OfRoleSnoc(es: seq<Entry>, e: Entry, role: string)
    ensures OfRole(es + [e], role) == OfRole(es, role) + (if e.role == role then [e] else [])
  {
    FilterAppend(es, [e], (x: Entry) => x.role == role);
  }

  lemma OfRoleAbsent(es: seq<Entry>, role: string)
    requires role !in Roles(es)
    ensures OfRole(es, role) == []
  {
    forall x | x in es ensures x.role in Roles(es) {
      var i :| 0 <= i < |es| && es[i] == x;
      assert Roles(es)[i] == x.role;
    }
    FilterNoneKept(es, (e: Entry) => e.role == role);
  }

  /** Total size of the groups named in keys. */
  function SizeSum(keys: seq<string>, es: seq<Entry>): nat
  {
    if keys == [] then 0 else |OfRole(es, keys[0])| + SizeSum(keys[1..], es)
  }

  lemma {:induction false} SizeSumSnocEntry(keys: seq<string>, es: seq<Entry>, e: Entry)
    requires NoDup(keys)
    ensures SizeSum(keys, es + [e]) == SizeSum(keys, es) + (if e.role in keys then 1 else 0)
  {
    if keys != [] {
      OfRoleSnoc(es, e, keys[0]);
      assert NoDup(keys[1..]);
      SizeSumSnocEntry(keys[1..], es, e);
      assert e.role in keys <==> e.role == keys[0] || e.role in keys[1..];
      assert keys[0] !in keys[1..];
    }
  }

  lemma {:induction false} SizeSumSnocKey(keys: seq<string>, role: string, es: seq<Entry>)
    ensures SizeSum(keys + [role], es) == SizeSum(keys, es) + |OfRole(es, role)|
  {
    if keys == [] {
      assert SizeSum([role], es) == |OfRole(es, role)| + SizeSum([], es);
    } else {
      assert (keys + [role])[1..] == keys[1..] + [role];
      SizeSumSnocKey(keys[1..], role, es);
    }
  }

  /** The groups, one per distinct role, have sizes adding up to the number
      of entries: grouping loses and duplicates nothing. */
  lemma {:induction false} GroupSizesSum(es: seq<Entry>)
    ensures SizeSum(Dedup(Roles(es)), es) == |es|
  {
    if es != [] {
      var p := es[..|es| - 1];
      var e := es[|es| - 1];
      assert es == p + [e];
      GroupSizesSum(p);
      assert Roles(es) == Roles(p) + [e.role];
      DedupSnoc(Roles(p), e.role);
      var keys := Dedup(Roles(p));
      SizeSumSnocEntry(keys, p, e);
      if e.role !in keys {
        SizeSumSnocKey(keys, e.role, es);
        OfRoleSnoc(p, e, e.role);
        OfRoleAbsent(p, e.role);
      }
    }
  }

  /** Each group holds exactly the entries of its role, in order, and is
      not empty. */
  ghost predicate GroupContents(es: seq<Entry>, groups: map<string, seq<Entry>>)
  {
    forall r {:trigger OfRole(es, r)} :: r in groups ==> groups[r] == OfRole(es, r) && groups[r] != []
  }

  /** roles and groups are what grouping es produces: the distinct roles in
      first-occurrence order, and for each the non-empty list of its entries. */
  ghost predicate GroupsOf(es: seq<Entry>, roles: seq<string>, groups: map<string, seq<Entry>>)
  {
    && roles == Dedup(Roles(es))
    && (forall r :: r in groups <==> r in roles)
    && GroupContents(es, groups)
  }

  lemma RolesSnoc(es: seq<Entry>, e: Entry)
    ensures Roles(es + [e]) == Roles(es) + [e.role]
  {
    assert (es + [e])[..|es|] == es;
  }

  /** The distinct roles after one more entry: unchanged for a known role,
      the new role last otherwise. */
  lemma DistinctRolesSnoc(es: seq<Entry>, e: Entry)
    ensures Dedup(Roles(es + [e])) ==
      if e.role in Dedup(Roles(es)) then Dedup(Roles(es)) else Dedup(Roles(es)) + [e.role]
  {
    RolesSnoc(es, e);
    DedupSnoc(Roles(es), e.role);
  }

  lemma ContentsStep(es: seq<Entry>, e: Entry, groups: map<string, seq<Entry>>, group: seq<Entry>)
    requires GroupContents(es, groups)
    requires group == OfRole(es, e.role) + [e]
    ensures GroupContents(es + [e], groups[e.role := group])
  {
    var g := groups[e.role := group];
    forall r | r in g ensures g[r] == OfRole(es + [e], r) && g[r] != [] {
      OfRoleSnoc(es, e, r);
    }
  }

  lemma KnownContentsStep(es: seq<Entry>, e: Entry, groups: map<string, seq<Entry>>)
    requires GroupContents(es, groups) && e.role in groups
    ensures GroupContents(es + [e], groups[e.role := groups[e.role] + [e]])
  {
    assert groups[e.role] == OfRole(es, e.role);
    ContentsStep(es, e, groups, groups[e.role] + [e]);
  }

  lemma KnownRolesStep(es: seq<Entry>, e: Entry, roles: seq<string>)
    requires roles == Dedup(Roles(es)) && e.role in roles
    ensures roles == Dedup(Roles(es + [e]))
  {
    DistinctRolesSnoc(es, e);
  }

  lemma SameKeysAfterUpdate(groups: map<string, seq<Entry>>, roles: seq<string>, k: string, v: seq<Entry>)
    requires (forall r :: r in groups <==> r in roles) && k in groups
    ensures forall r :: r in groups[k := v] <==> r in roles
  {
    assert groups[k := v].Keys == groups.Keys;
  }

  /** One step of the reduce, for a role seen before: push onto its array. */
  lemma GroupStepKnown(es: seq<Entry>, e: Entry, roles: seq<string>, groups: map<string, seq<Entry>>)
    requires GroupsOf(es, roles, groups) && e.role in groups
    ensures GroupsOf(es + [e], roles, groups[e.role := groups[e.role] + [e]])
  {
    KnownContentsStep(es, e, groups);
    KnownRolesStep(es, e, roles);
    SameKeysAfterUpdate(groups, roles, e.role, groups[e.role] + [e]);
  }

  /** One step of the reduce, for a new role: create its array. */
  lemma GroupStepNew(es: seq<Entry>, e: Entry, roles: seq<string>, groups: map<string, seq<Entry>>)
    requires GroupsOf(es, roles, groups) && e.role !in groups
    ensures GroupsOf(es + [e], roles + [e.role], groups[e.role := [e]])
  {
    var g := groups[e.role := [e]];
    assert roles + [e.role] == Dedup(Roles(es + [e])) by {
      DistinctRolesSnoc(es, e);
    }
    assert GroupContents(es + [e], g) by {
      OfRoleAbsent(es, e.role);
      ContentsStep(es, e, groups, [e]);
    }
  }

  /** Every entry sits in the group of its role. */
  lemma GroupsCoverEntries(es: seq<Entry>, roles: seq<string>, groups: map<string, seq<Entry>>)
    requires GroupsOf(es, roles, groups)
    ensures forall e :: e in es ==> e.role in groups && e in groups[e.role]
  {
    forall e | e in es ensures e.role in groups && e in groups[e.role] {
      var i :| 0 <= i < |es| && es[i] == e;
      assert Roles(es)[i] == e.role;
      assert groups[e.role] == OfRole(es, e.role);
    }
  }

  // ---------------------------------------------------------------------
  // The store
  // ---------------------------------------------------------------------

  class ComparisonHistory {
    var entries: seq<Entry>
    /** The entries as last written under "ff_comparison_history". */
    var storedEntries: seq<Entry>
    /** What storage holds under "ff_comparison_history_seeded_v1". */
    var seedFlag: Option<string>

    /** The persistence effect writes the entries after every change. */
    predicate Valid()
      reads this
    {
      storedEntries == entries
    }

    /** Mounting the hook at time now: the load decision, followed by the
        persistence effect. */
    constructor(stored: StoredHistory, flag: Option<string>, now: int)
      ensures Valid()
      ensures HoldsEntries(stored) ==> entries == stored.parsed.items && seedFlag == flag
      ensures LoadDecision(stored, flag).Seed? ==> entries == SeedData(now) && seedFlag == Some("1")
      ensures LoadDecision(stored, flag).StayEmpty? ==> entries == [] && seedFlag == flag
    {
      var action := LoadDecision(stored, flag);
      match action {
        case UseStored(items) =>
          entries := items;
          seedFlag := flag;
        case Seed =>
          entries := SeedData(now);
          seedFlag := Some("1");
        case StayEmpty =>
          entries := [];
          seedFlag := flag;
      }
      storedEntries := entries;
    }

    method SeedDemo(now: int)
      modifies this
      ensures Valid()
      ensures entries == SeedData(now) && seedFlag == Some("1")
    {
      entries := SeedData(now);
      storedEntries := entries;
      seedFlag := Some("1");
    }

    /** addEntry; the fresh id and the creation instant are parameters. */
    method AddEntry(f: EntryFields, id: string, createdAt: int) returns (e: Entry)
      requires Valid()
      modifies this
      ensures Valid()
      ensures e.id == id && e.createdAt == createdAt && e.role == f.role && e.userMetrics == f.userMetrics
      ensures e.topFreelancersAverage == f.topFreelancersAverage && e.userScore == f.userScore
      ensures e.competitorUrl == f.competitorUrl
      ensures entries == [e] + old(entries) && seedFlag == old(seedFlag)
    {
      e := NewEntry(f, id, createdAt);
      entries := [e] + entries;
      storedEntries := entries;
    }

    method ClearAll()
      requires Valid()
      modifies this
      ensures Valid()
      ensures entries == [] && seedFlag == old(seedFlag)
    {
      entries := [];
      storedEntries := entries;
    }

    method Remove(id: string)
      requires Valid()
      modifies this
      ensures Valid()
      ensures entries == WithoutEntry(old(entries), id) && seedFlag == old(seedFlag)
    {
      entries := WithoutEntry(entries, id);
      storedEntries := entries;
    }

    /** groupedByRole: the reduce that pushes each entry onto the array of
        its role, creating the array on the role's first entry. The roles are
        returned in the order their arrays were created. */
    method GroupByRole() returns (roles: seq<string>, groups: map<string, seq<Entry>>)
      ensures roles == Dedup(Roles(entries))
      ensures forall r :: r in groups <==> r in roles
      ensures forall r :: r in groups ==> groups[r] == OfRole(entries, r) && groups[r] != []
      ensures forall e :: e in entries ==> e.role in groups && e in groups[e.role]
    {
      roles := [];
      groups := map[];
      var i := 0;
      while i < |entries|
        invariant 0 <= i <= |entries|
        invariant GroupsOf(entries[..i], roles, groups)
      {
        var e := entries[i];
        assert entries[..i + 1] == entries[..i] + [e];
        if e.role in groups {
          GroupStepKnown(entries[..i], e, roles, groups);
          groups := groups[e.role := groups[e.role] + [e]];
        } else {
          GroupStepNew(entries[..i], e, roles, groups);
          groups := groups[e.role := [e]];
          roles := roles + [e.role];
        }
        i := i + 1;
      }
      assert entries[..i] == entries;
      GroupsCoverEntries(entries, roles, groups);
    }
  }
}
