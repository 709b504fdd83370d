/** Plan lookup: a plan name, with its tier prefixes trimmed, selects a
    connection limit from a closed table (plans.go). */
module Plans {

  /** The plan a report is checked against; the zero plan has limit 0. */
  datatype Plan = Plan(connectionLimit: int)

  /** The prefixes that trimName removes, in the order it tries them. */
  const Prefixes: seq<string> := ["enterprise-", "premium-", "standard-", "hobby-"]

  /** Every limit the table can produce, including the zero plan's. */
  const Limits: set<int> := {0, 20, 60, 120, 200, 400, 500}

  /** The table of known tier names as an independent reference for GetPlan. */
  const PlanTable: map<string, int> := map[
    "dev" := 20, "basic" := 20,
    "crane" := 60, "yanari" := 60,
    "kappa" := 120, "0" := 120,
    "ronin" := 200, "tengu" := 200, "fugu" := 200,
    "ika" := 400, "2" := 400,
    "zilla" := 500, "baku" := 500, "mecha" := 500, "ryu" := 500,
    "4" := 500, "5" := 500, "6" := 500, "7" := 500
  ]

  predicate HasPrefix(s: string, prefix: string)
  {
    |prefix| <= |s| && s[..|prefix|] == prefix
  }

  /** `r` is a trailing part of `s`. */
  predicate IsSuffix(r: string, s: string)
  {
    |r| <= |s| && s[|s| - |r|..] == r
  }

  /** strings.TrimPrefix: drop `prefix` once if `s` starts with it. */
  function TrimPrefix(s: string, prefix: string): (r: string)
    ensures HasPrefix(s, prefix) ==> s == prefix + r
    ensures !HasPrefix(s, prefix) ==> r == s
  {
    if HasPrefix(s, prefix) then s[|prefix|..] else s
  }

  /** True when `s` starts with none of the tier prefixes. */
  predicate Untiered(s: string)
  {
    forall i :: 0 <= i < |Prefixes| ==> !HasPrefix(s, Prefixes[i])
  }

  /** trimName: the four prefix removals, in their fixed order. */
  function TrimName(name: string): string
  {
    var n1 := TrimPrefix(name, "enterprise-");
    var n2 := TrimPrefix(n1, "premium-");
    var n3 := TrimPrefix(n2, "standard-");
    TrimPrefix(n3, "hobby-")
  }

  /** The switch of GetPlan over an already trimmed name. */
  function TierLimit(tier: string): (limit: int)
    ensures limit in Limits
  {
    if tier == "dev" || tier == "basic" then 20
    else if tier == "crane" || tier == "yanari" then 60
    else if tier == "kappa" || tier == "0" then 120
    else if tier == "ronin" || tier == "tengu" || tier == "fugu" then 200
    else if tier == "ika" || tier == "2" then 400
    else if tier == "zilla" || tier == "baku" || tier == "mecha" || tier == "ryu"
         || tier == "4" || tier == "5" || tier == "6" || tier == "7" then 500
    else 0
  }

  /** The switch agrees with the tier table entry by entry, and gives 0
      for every name outside it. */
  lemma TierLimitMatchesTable(tier: string)
    ensures TierLimit(tier) == if tier in PlanTable then PlanTable[tier] else 0
  {
  }

  /** GetPlan: the switch over the trimmed name; unknown names get the zero plan. */
  function GetPlan(name: string): (p: Plan)
    ensures p.connectionLimit in Limits
  {
    Plan(TierLimit(TrimName(name)))
  }

  /** GetPlan reads the tier table at the trimmed name, with 0 for a name
      outside it. */
  lemma GetPlanMatchesTable(name: string)
    ensures GetPlan(name).connectionLimit ==
              if TrimName(name) in PlanTable then PlanTable[TrimName(name)] else 0
  {
    TierLimitMatchesTable(TrimName(name));
  }

  /** The empty name is outside the table and gets the zero plan. */
  lemma GetPlanEmptyName()
    ensures GetPlan("").connectionLimit == 0
  {
    assert TrimName("") == "" by {
      TrimNameUntiered("");
    }
    assert TierLimit("") == 0;
  }

  lemma SuffixTransitive(r: string, s: string, t: string)
    requires IsSuffix(r, s) && IsSuffix(s, t)
    ensures IsSuffix(r, t)
  {
    assert t[|t| - |r|..] == t[|t| - |s|..][|s| - |r|..];
  }

  lemma TrimPrefixIsSuffix(s: string, prefix: string)
    ensures IsSuffix(TrimPrefix(s, prefix), s)
  {
  }

  /** trimName only ever removes a leading part of its input. */
  lemma TrimNameIsSuffix(name: string)
    ensures IsSuffix(TrimName(name), name)
  {
    var n1 := TrimPrefix(name, "enterprise-");
    var n2 := TrimPrefix(n1, "premium-");
    var n3 := TrimPrefix(n2, "standard-");
    TrimPrefixIsSuffix(name, "enterprise-");
    TrimPrefixIsSuffix(n1, "premium-");
    TrimPrefixIsSuffix(n2, "standard-");
    TrimPrefixIsSuffix(n3, "hobby-");
    SuffixTransitive(n2, n1, name);
    SuffixTransitive(n3, n2, name);
    SuffixTransitive(TrimPrefix(n3, "hobby-"), n3, name);
  }

  /** A name that starts with no tier prefix passes through unchanged. */
  lemma TrimNameUntiered(name: string)
    requires Untiered(name)
    ensures TrimName(name) == name
  {
    assert !HasPrefix(name, Prefixes[0]);
    assert !HasPrefix(name, Prefixes[1]);
    assert !HasPrefix(name, Prefixes[2]);
    assert !HasPrefix(name, Prefixes[3]);
  }

  /** `p + rest` starts with `p`, and trimming `p` gives back `rest`. */
  lemma PrefixOfConcat(p: string, rest: string)
    ensures HasPrefix(p + rest, p) && TrimPrefix(p + rest, p) == rest
  {
  }

  /** Two strings that differ in their first character cannot both be
      prefixes of the same string. */
  lemma DistinctHeads(s: string, p: string, q: string)
    requires |p| > 0 && |q| > 0 && p[0] != q[0] && HasPrefix(s, p)
    ensures !HasPrefix(s, q)
  {
  }

  /** A string whose first character starts no tier prefix is untiered. */
  lemma UntieredByHead(s: string)
    requires |s| > 0 && s[0] !in {'e', 'p', 's', 'h'}
    ensures Untiered(s)
  {
  }

  /** One tier prefix in front of an untiered name is removed, and nothing else. */
  lemma {:induction false} TrimNameOnePrefix(i: nat, name: string)
    requires i < |Prefixes| && Untiered(name)
    ensures TrimName(Prefixes[i] + name) == name
  {
    var p := Prefixes[i];
    var s := p + name;
    assert HasPrefix(s, p) by { assert s[..|p|] == p; }
    assert s[|p|..] == name;
    forall j | 0 <= j < |Prefixes| && j != i
      ensures !HasPrefix(s, Prefixes[j])
    {
      DistinctHeads(s, p, Prefixes[j]);
    }
    assert !HasPrefix(name, Prefixes[0]);
    assert !HasPrefix(name, Prefixes[1]);
    assert !HasPrefix(name, Prefixes[2]);
    assert !HasPrefix(name, Prefixes[3]);
  }

  /** Every key of the table is untiered. */
  lemma TableNamesUntiered(n: string)
    requires n in PlanTable
    ensures Untiered(n)
  {
    assert |n| > 0 && n[0] in {'d', 'b', 'c', 'y', 'k', '0', 'r', 't', 'f', 'i', '2', 'z', 'm', '4', '5', '6', '7'};
    UntieredByHead(n);
  }

  /** A tier prefix in front of a listed plan name does not change its limit,
      e.g. "premium-crane" is 60 and "hobby-dev" is 20. */
  lemma {:induction false} GetPlanIgnoresTierPrefix(i: nat, n: string)
    requires i < |Prefixes| && n in PlanTable
    ensures GetPlan(Prefixes[i] + n) == GetPlan(n) == Plan(PlanTable[n])
  {
    TableNamesUntiered(n);
    TrimNameOnePrefix(i, n);
    TrimNameUntiered(n);
    TierLimitMatchesTable(n);
  }

  /** Prefixes are removed in their fixed order: "enterprise-premium-dev"
      loses both of its prefixes. */
  lemma TrimNameNestedExample()
    ensures TrimName("enterprise-premium-dev") == "dev"
  {
    UntieredByHead("dev");
    TrimNameUntiered("dev");
    PrefixOfConcat("enterprise-", "premium-dev");
    assert "enterprise-premium-dev" == "enterprise-" + "premium-dev";
    PrefixOfConcat("premium-", "dev");
    assert "premium-dev" == "premium-" + "dev";
    DistinctHeads("dev", "dev", "standard-");
    DistinctHeads("dev", "dev", "hobby-");
  }

  /** A later prefix cannot expose an earlier one: "hobby-premium-dev" only
      loses "hobby-". */
  lemma TrimNameOrderExample()
    ensures TrimName("hobby-premium-dev") == "premium-dev"
  {
    PrefixOfConcat("hobby-", "premium-dev");
    assert "hobby-premium-dev" == "hobby-" + "premium-dev";
    DistinctHeads("hobby-premium-dev", "hobby-", "enterprise-");
    DistinctHeads("hobby-premium-dev", "hobby-", "premium-");
    DistinctHeads("hobby-premium-dev", "hobby-", "standard-");
  }

  /** Each prefix is removed at most once. */
  lemma TrimNameOnceExample()
    ensures TrimName("premium-premium-dev") == "premium-dev"
  {
    PrefixOfConcat("premium-", "premium-dev");
    assert "premium-premium-dev" == "premium-" + "premium-dev";
    DistinctHeads("premium-premium-dev", "premium-", "enterprise-");
    DistinctHeads("premium-dev", "premium-", "standard-");
    DistinctHeads("premium-dev", "premium-", "hobby-");
  }
}
