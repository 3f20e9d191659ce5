/** The list of areas subscribers have asked for, offered to whoever writes an alert. */
module Geography {
  import opened Prelude
  import opened Text
  import opened Subscriptions

  function AreasOfRules(rules: seq<SubscriptionRule>): seq<string> {
    if |rules| == 0 then []
    else
      var last := rules[|rules| - 1];
      AreasOfRules(rules[..|rules| - 1]) + if last.GeographyRule? then last.areas else []
  }

  /** Every area of every geography rule, in reading order. */
  function AllAreas(subscriptions: seq<Subscription>): seq<string> {
    if |subscriptions| == 0 then []
    else AllAreas(subscriptions[..|subscriptions| - 1]) + AreasOfRules(subscriptions[|subscriptions| - 1].rules)
  }

  lemma {:induction false} AreasOfRulesIff(rules: seq<SubscriptionRule>, area: string)
    ensures area in AreasOfRules(rules) <==>
            exists j :: 0 <= j < |rules| && rules[j].GeographyRule? && area in rules[j].areas
  {
    if |rules| > 0 {
      var front, last := rules[..|rules| - 1], rules[|rules| - 1];
      AreasOfRulesIff(front, area);
      if j :| 0 <= j < |front| && front[j].GeographyRule? && area in front[j].areas {
        assert rules[j] == front[j];
      }
      if j :| 0 <= j < |rules| && rules[j].GeographyRule? && area in rules[j].areas {
        if j < |front| {
          assert front[j] == rules[j];
        }
      }
    }
  }

  /** Some geography rule of some subscription lists the area. */
  ghost predicate IsAskedFor(subscriptions: seq<Subscription>, area: string) {
    exists i, j ::
      && 0 <= i < |subscriptions| && 0 <= j < |subscriptions[i].rules|
      && subscriptions[i].rules[j].GeographyRule? && area in subscriptions[i].rules[j].areas
  }

  /** Every area of every geography rule of every subscription, and nothing else. */
  lemma {:induction false} AllAreasIff(subscriptions: seq<Subscription>, area: string)
    ensures area in AllAreas(subscriptions) <==> IsAskedFor(subscriptions, area)
  {
    if |subscriptions| > 0 {
      var front, last := subscriptions[..|subscriptions| - 1], subscriptions[|subscriptions| - 1];
      AllAreasIff(front, area);
      AreasOfRulesIff(last.rules, area);
      if i, j :| && 0 <= i < |front| && 0 <= j < |front[i].rules|
                 && front[i].rules[j].GeographyRule? && area in front[i].rules[j].areas {
        assert subscriptions[i].rules[j] == front[i].rules[j];
      }
      if i, j :| && 0 <= i < |subscriptions| && 0 <= j < |subscriptions[i].rules|
                 && subscriptions[i].rules[j].GeographyRule? && area in subscriptions[i].rules[j].areas {
        if i < |front| {
          assert front[i].rules[j] == subscriptions[i].rules[j];
        }
      }
    }
  }

  /** The list has an entry with this lower-case form. */
  predicate HasKey(lower: string -> string, list: seq<string>, key: string) {
    exists s :: s in list && lower(s) == key
  }

  /** The first spelling of each area, ignoring case. */
  function FirstSpellings(lower: string -> string, names: seq<string>): seq<string> {
    if |names| == 0 then []
    else
      var before, last := FirstSpellings(lower, names[..|names| - 1]), names[|names| - 1];
      if HasKey(lower, before, lower(last)) then before else before + [last]
  }

  lemma SpellingsSnoc(lower: string -> string, names: seq<string>, name: string)
    ensures var before := FirstSpellings(lower, names);
            FirstSpellings(lower, names + [name]) ==
            if HasKey(lower, before, lower(name)) then before else before + [name]
  {
    assert (names + [name])[..|names|] == names;
  }

  lemma HasKeySnoc(lower: string -> string, list: seq<string>, name: string, key: string)
    ensures HasKey(lower, list + [name], key) <==> HasKey(lower, list, key) || lower(name) == key
  {
    if HasKey(lower, list, key) {
      var s :| s in list && lower(s) == key;
      assert s in list + [name];
    }
    assert name in list + [name];
  }

  ghost predicate DistinctKeys(lower: string -> string, list: seq<string>) {
    forall i, j :: 0 <= i < j < |list| ==> lower(list[i]) != lower(list[j])
  }

  lemma DistinctKeysSnoc(lower: string -> string, list: seq<string>, name: string)
    requires DistinctKeys(lower, list) && !HasKey(lower, list, lower(name))
    ensures DistinctKeys(lower, list + [name])
  {
    forall i | 0 <= i < |list| ensures lower(list[i]) != lower(name) {
      assert list[i] in list;
    }
  }

  /** First spellings are spellings, one for each lower-case form and no two for the same. */
  lemma {:induction false} SpellingsRepresent(lower: string -> string, names: seq<string>)
    ensures DistinctKeys(lower, FirstSpellings(lower, names))
    ensures forall s :: s in FirstSpellings(lower, names) ==> s in names
    ensures forall name :: name in names ==> HasKey(lower, FirstSpellings(lower, names), lower(name))
  {
    if |names| > 0 {
      var front, last := names[..|names| - 1], names[|names| - 1];
      var before := FirstSpellings(lower, front);
      assert names == front + [last];
      SpellingsRepresent(lower, front);
      hide HasKey, DistinctKeys;
      if !HasKey(lower, before, lower(last)) {
        DistinctKeysSnoc(lower, before, last);
        forall name | name in names ensures HasKey(lower, before + [last], lower(name)) {
          HasKeySnoc(lower, before, last, lower(name));
        }
      }
    }
  }

  /** The name stands at position `i`, and no earlier name has its lower-case form. */
  ghost predicate IsFirstOfItsKey(lower: string -> string, names: seq<string>, i: nat, name: string) {
    && i < |names| && names[i] == name
    && forall j :: 0 <= j < i ==> lower(names[j]) != lower(name)
  }

  ghost predicate ComesFirst(lower: string -> string, names: seq<string>, name: string) {
    exists i: nat :: IsFirstOfItsKey(lower, names, i, name)
  }

  /** The spelling kept is the one that came first. */
  lemma {:induction false} SpellingsAreFirst(lower: string -> string, names: seq<string>, name: string)
    ensures name in FirstSpellings(lower, names) <==> ComesFirst(lower, names, name)
  {
    if |names| > 0 {
      var n := |names| - 1;
      var front, last := names[..n], names[n];
      SpellingsAreFirst(lower, front, name);
      SpellingsRepresent(lower, front);
      if i: nat :| IsFirstOfItsKey(lower, front, i, name) {
        assert IsFirstOfItsKey(lower, names, i, name);
      }
      if i: nat :| IsFirstOfItsKey(lower, names, i, name) {
        if i < n {
          assert IsFirstOfItsKey(lower, front, i, name);
        } else {
          NoEarlierSpelling(lower, front, lower(name));
        }
      }
      if name == last && !HasKey(lower, FirstSpellings(lower, front), lower(last)) {
        forall j | 0 <= j < n ensures lower(names[j]) != lower(name) {
          assert names[j] == front[j] && front[j] in front;
        }
        assert IsFirstOfItsKey(lower, names, n, name);
      }
    }
  }

  lemma NoEarlierSpelling(lower: string -> string, names: seq<string>, key: string)
    requires forall j :: 0 <= j < |names| ==> lower(names[j]) != key
    ensures !HasKey(lower, FirstSpellings(lower, names), key)
  {
    SpellingsRepresent(lower, names);
  }

  // ---- Sorting by a key ----

  function InsertByKey(key: string -> string, x: string, xs: seq<string>): seq<string> {
    if |xs| == 0 then [x]
    else if LexLess(key(x), key(xs[0])) then [x] + xs
    else [xs[0]] + InsertByKey(key, x, xs[1..])
  }

  function SortByKey(key: string -> string, xs: seq<string>): seq<string> {
    if |xs| == 0 then [] else InsertByKey(key, xs[|xs| - 1], SortByKey(key, xs[..|xs| - 1]))
  }

  ghost predicate StrictlyIncreasing(key: string -> string, xs: seq<string>) {
    forall i, j :: 0 <= i < j < |xs| ==> LexLess(key(xs[i]), key(xs[j]))
  }

  lemma {:induction false} InsertKeepsOrder(key: string -> string, x: string, xs: seq<string>)
    requires StrictlyIncreasing(key, xs) && forall y :: y in xs ==> key(y) != key(x)
    ensures StrictlyIncreasing(key, InsertByKey(key, x, xs))
    ensures forall y :: y in InsertByKey(key, x, xs) <==> y == x || y in xs
    ensures |InsertByKey(key, x, xs)| == |xs| + 1
  {
    if |xs| > 0 {
      LexTotal(key(x), key(xs[0]));
      if LexLess(key(x), key(xs[0])) {
        forall j | 0 < j < |xs| ensures LexLess(key(x), key(xs[j])) {
          LexTransitive(key(x), key(xs[0]), key(xs[j]));
        }
      } else {
        InsertKeepsOrder(key, x, xs[1..]);
        forall y | y in InsertByKey(key, x, xs[1..]) ensures LexLess(key(xs[0]), key(y)) {
          if y != x {
            var j :| 0 <= j < |xs[1..]| && xs[1..][j] == y;
            assert LexLess(key(xs[0]), key(xs[j + 1]));
          }
        }
        assert xs == [xs[0]] + xs[1..];
      }
    }
  }

  lemma {:induction false} SortOrders(key: string -> string, xs: seq<string>)
    requires DistinctKeys(key, xs)
    ensures StrictlyIncreasing(key, SortByKey(key, xs))
    ensures forall y :: y in SortByKey(key, xs) <==> y in xs
    ensures |SortByKey(key, xs)| == |xs|
  {
    if |xs| > 0 {
      var front, last := xs[..|xs| - 1], xs[|xs| - 1];
      assert xs == front + [last];
      SortOrders(key, front);
      InsertKeepsOrder(key, last, SortByKey(key, front));
    }
  }

  ghost predicate SeenExactly(lower: string -> string, seen: set<string>, areas: seq<string>) {
    forall key :: key in seen <==> HasKey(lower, areas, key)
  }

  lemma SeenSnoc(lower: string -> string, seen: set<string>, areas: seq<string>, name: string)
    requires SeenExactly(lower, seen, areas)
    ensures SeenExactly(lower, seen + {lower(name)}, areas + [name])
  {
    hide HasKey;
    forall key ensures key in seen + {lower(name)} <==> HasKey(lower, areas + [name], key) {
      HasKeySnoc(lower, areas, name, key);
    }
  }

  /** The innermost loop: the areas of one rule. */
  method GatherAreas(lower: string -> string, names: seq<string>, ghost earlier: seq<string>,
                     seenSoFar: set<string>, areasSoFar: seq<string>)
    returns (seen: set<string>, areas: seq<string>)
    requires areasSoFar == FirstSpellings(lower, earlier) && SeenExactly(lower, seenSoFar, areasSoFar)
    ensures areas == FirstSpellings(lower, earlier + names) && SeenExactly(lower, seen, areas)
  {
    hide HasKey, FirstSpellings;
    seen, areas := seenSoFar, areasSoFar;
    assert earlier + names[..0] == earlier;
    for k := 0 to |names|
      invariant areas == FirstSpellings(lower, earlier + names[..k]) && SeenExactly(lower, seen, areas)
    {
      assert earlier + names[..k + 1] == earlier + names[..k] + [names[k]];
      SpellingsSnoc(lower, earlier + names[..k], names[k]);
      if lower(names[k]) !in seen {
        SeenSnoc(lower, seen, areas, names[k]);
        seen := seen + {lower(names[k])};
        areas := areas + [names[k]];
      }
    }
    assert names[..|names|] == names;
  }

  /** The middle loop: the rules of one subscription. */
  method GatherRules(lower: string -> string, rules: seq<SubscriptionRule>, ghost earlier: seq<string>,
                     seenSoFar: set<string>, areasSoFar: seq<string>)
    returns (seen: set<string>, areas: seq<string>)
    requires areasSoFar == FirstSpellings(lower, earlier) && SeenExactly(lower, seenSoFar, areasSoFar)
    ensures areas == FirstSpellings(lower, earlier + AreasOfRules(rules)) && SeenExactly(lower, seen, areas)
  {
    hide HasKey, FirstSpellings, SeenExactly;
    seen, areas := seenSoFar, areasSoFar;
    assert earlier + AreasOfRules(rules[..0]) == earlier;
    for j := 0 to |rules|
      invariant areas == FirstSpellings(lower, earlier + AreasOfRules(rules[..j])) && SeenExactly(lower, seen, areas)
    {
      assert rules[..j + 1][..j] == rules[..j];
      ghost var before := earlier + AreasOfRules(rules[..j]);
      if rules[j].GeographyRule? {
        seen, areas := GatherAreas(lower, rules[j].areas, before, seen, areas);
        assert before + rules[j].areas == earlier + AreasOfRules(rules[..j + 1]);
      } else {
        assert before == earlier + AreasOfRules(rules[..j + 1]);
      }
    }
    assert rules[..|rules|] == rules;
  }

  /** The listing: nested loops gathering first spellings, then a sort by lower-case form. */
  method ListGeographyAreas(lower: string -> string, subscriptions: seq<Subscription>) returns (areas: seq<string>)
    ensures areas == Listing(lower, subscriptions)
    ensures StrictlyIncreasing(lower, areas)
    ensures forall listed :: listed in areas ==> listed in AllAreas(subscriptions)
    ensures forall area :: area in AllAreas(subscriptions) ==> HasKey(lower, areas, lower(area))
    ensures forall area :: area in AllAreas(subscriptions) <==> IsAskedFor(subscriptions, area)
  {
    hide IsAskedFor, HasKey, SeenExactly, StrictlyIncreasing, SortByKey;
    var seen: set<string> := {};
    areas := [];
    NothingSeen(lower);
    for i := 0 to |subscriptions|
      invariant areas == FirstSpellings(lower, AllAreas(subscriptions[..i])) && SeenExactly(lower, seen, areas)
    {
      assert subscriptions[..i + 1][..i] == subscriptions[..i];
      seen, areas := GatherRules(lower, subscriptions[i].rules, AllAreas(subscriptions[..i]), seen, areas);
    }
    assert subscriptions[..|subscriptions|] == subscriptions;
    ListingRepresents(lower, subscriptions);
    forall area ensures area in AllAreas(subscriptions) <==> IsAskedFor(subscriptions, area) {
      AllAreasIff(subscriptions, area);
    }
    areas := SortByKey(lower, areas);
  }

  lemma NothingSeen(lower: string -> string)
    ensures SeenExactly(lower, {}, [])
  {
  }

  function Listing(lower: string -> string, subscriptions: seq<Subscription>): seq<string> {
    SortByKey(lower, FirstSpellings(lower, AllAreas(subscriptions)))
  }

  lemma ListingRepresents(lower: string -> string, subscriptions: seq<Subscription>)
    ensures StrictlyIncreasing(lower, Listing(lower, subscriptions))
    ensures forall listed :: listed in Listing(lower, subscriptions) ==> listed in AllAreas(subscriptions)
    ensures forall area :: area in AllAreas(subscriptions) ==> HasKey(lower, Listing(lower, subscriptions), lower(area))
    ensures forall listed :: listed in Listing(lower, subscriptions) <==>
                             ComesFirst(lower, AllAreas(subscriptions), listed)
  {
    hide FirstSpellings, SortByKey, AllAreas, ComesFirst;
    var spellings := FirstSpellings(lower, AllAreas(subscriptions));
    forall listed ensures listed in spellings <==>
                          ComesFirst(lower, AllAreas(subscriptions), listed) {
      SpellingsAreFirst(lower, AllAreas(subscriptions), listed);
    }
    SpellingsRepresent(lower, AllAreas(subscriptions));
    SortOrders(lower, spellings);
    forall area | area in AllAreas(subscriptions) ensures HasKey(lower, Listing(lower, subscriptions), lower(area)) {
      assert HasKey(lower, spellings, lower(area));
    }
  }

  // ---- What picking a listed area achieves ----

  /** An alert's target area; `None` when blank once trimmed. */
  function NewTarget(description: string): Option<string> {
    if |Trim(description)| == 0 then None else Some(Trim(description))
  }

  /** A target is what is left of the description between white space, and a blank description gives none. */
  lemma NewTargetIff(description: string, target: string)
    ensures NewTarget(description) == Some(target) <==>
            && target != "" && IsTrimmed(target)
            && exists before, after :: IsBlank(before) && IsBlank(after) && description == before + target + after
    ensures NewTarget(description) == None <==> IsBlank(description)
  {
    hide Trim, IsTrimmed, IsBlank;
    TrimIff(description, target);
    BlankIff(description);
  }

  ghost predicate AreasWereValidated(subscriptions: seq<Subscription>) {
    forall area :: area in AllAreas(subscriptions) ==> exists name :: NewGeoArea(name) == Some(area)
  }

  lemma PickedAreaIsAccepted(area: string)
    requires exists name :: NewGeoArea(name) == Some(area)
    ensures NewTarget(area) == Some(area)
  {
    var name :| NewGeoArea(name) == Some(area);
    TrimIsTrimmed(name);
    TrimmedIsFixed(area);
  }

  lemma OneEntryPerKey(key: string -> string, list: seq<string>, a: string, b: string)
    requires StrictlyIncreasing(key, list) && a in list && b in list && key(a) == key(b)
    ensures a == b
  {
    var i :| 0 <= i < |list| && list[i] == a;
    var j :| 0 <= j < |list| && list[j] == b;
    LexIrreflexive(key(a));
  }

  lemma {:induction false} LexIrreflexive(s: string)
    ensures !LexLess(s, s)
  {
    if |s| > 0 {
      LexIrreflexive(s[1..]);
    }
  }

  /** Every subscriber area has exactly one entry in the list, and an alert whose target is written by
      picking that entry is accepted as it stands and reaches the subscriber. */
  lemma ListedAreaReachesItsSubscribers(lower: string -> string, subscriptions: seq<Subscription>, area: string)
    returns (listed: string)
    requires AreasWereValidated(subscriptions) && area in AllAreas(subscriptions)
    ensures listed in Listing(lower, subscriptions) && lower(listed) == lower(area)
    ensures forall other :: other in Listing(lower, subscriptions) && lower(other) == lower(area) ==> other == listed
    ensures NewTarget(listed) == Some(listed) && IsNamedIn(lower, area, listed)
  {
    hide Listing, AllAreas, StrictlyIncreasing;
    ListingRepresents(lower, subscriptions);
    assert HasKey(lower, Listing(lower, subscriptions), lower(area));
    listed :| listed in Listing(lower, subscriptions) && lower(listed) == lower(area);
    PickedAreaIsAccepted(listed);
    ContainsItself(lower(area));
    MatchesTargetIff(lower, area, listed);
    forall other | other in Listing(lower, subscriptions) && lower(other) == lower(area) ensures other == listed {
      OneEntryPerKey(lower, Listing(lower, subscriptions), other, listed);
    }
  }
}
