/**
 * The orchestrator's data shaping: ordering matches by status, splitting
 * the full match cache into keyed maps, and the deduplicating loop that
 * runs every alert over every selected match once.
 */
module Orchestrate {
  import opened Wrappers
  import opened Json
  import opened Text

  // ---------------------------------------------------------------------
  // Ordering by status
  // ---------------------------------------------------------------------

  /** The status ids in display order, as strings. */
  const DesiredStatusOrder: seq<string> :=
    ["1", "2", "3", "4", "5", "6", "7", "8", "9", "10", "11", "12", "13", "14"]

  /**
   * The sort key of a match: the position of its `status_id` in
   * DesiredStatusOrder, or 14 for a missing id or one that is not one of
   * those strings (an integer 3 is not the string "3").
   */
  function Rank(m: Object): nat {
    match Get(m, "status_id")
    case Some(Str(s)) =>
      (match FirstIndex(DesiredStatusOrder, s)
       case Some(k) => k
       case None => |DesiredStatusOrder|)
    case _ => |DesiredStatusOrder|
  }

  /**
   * A match ranks below 14 exactly when its `status_id` is one of the
   * listed strings, and then its rank is that string's position.
   */
  lemma RankMeaning(m: Object)
    ensures Rank(m) <= |DesiredStatusOrder|
    ensures Rank(m) < |DesiredStatusOrder| <==> exists s :: Get(m, "status_id") == Some(Str(s)) && s in DesiredStatusOrder
    ensures Rank(m) < |DesiredStatusOrder| ==> Get(m, "status_id") == Some(Str(DesiredStatusOrder[Rank(m)]))
  {
  }

  predicate SortedBy<T>(xs: seq<T>, key: T -> nat) {
    forall i, j :: 0 <= i < j < |xs| ==> key(xs[i]) <= key(xs[j])
  }

  /** Insertion before the first element whose key is equal or greater. */
  function Insert<T>(x: T, xs: seq<T>, key: T -> nat): seq<T>
    decreases |xs|
  {
    if |xs| == 0 || key(x) <= key(xs[0]) then [x] + xs
    else [xs[0]] + Insert(x, xs[1..], key)
  }

  /** `sorted(xs, key=key)`, which is stable, as an insertion sort. */
  function SortBy<T>(xs: seq<T>, key: T -> nat): seq<T>
    decreases |xs|
  {
    if |xs| == 0 then [] else Insert(xs[0], SortBy(xs[1..], key), key)
  }

  /** The elements whose key is `k`, in order. */
  function WithKey<T>(xs: seq<T>, key: T -> nat, k: nat): seq<T>
    decreases |xs|
  {
    if |xs| == 0 then []
    else if key(xs[0]) == k then [xs[0]] + WithKey(xs[1..], key, k)
    else WithKey(xs[1..], key, k)
  }

  lemma {:induction false} InsertPermutes<T>(x: T, xs: seq<T>, key: T -> nat)
    ensures multiset(Insert(x, xs, key)) == multiset(xs) + multiset{x}
    decreases |xs|
  {
    if |xs| > 0 && key(x) > key(xs[0]) {
      InsertPermutes(x, xs[1..], key);
      assert xs == [xs[0]] + xs[1..];
    }
  }

  lemma {:induction false} InsertSorted<T>(x: T, xs: seq<T>, key: T -> nat)
    requires SortedBy(xs, key)
    ensures SortedBy(Insert(x, xs, key), key)
    ensures |Insert(x, xs, key)| == |xs| + 1
    ensures Insert(x, xs, key)[0] == x || (|xs| > 0 && Insert(x, xs, key)[0] == xs[0])
    decreases |xs|
  {
    if |xs| > 0 && key(x) > key(xs[0]) {
      InsertSorted(x, xs[1..], key);
    }
  }

  lemma {:induction false} InsertWithKey<T>(x: T, xs: seq<T>, key: T -> nat, k: nat)
    ensures WithKey(Insert(x, xs, key), key, k) == if key(x) == k then [x] + WithKey(xs, key, k) else WithKey(xs, key, k)
    decreases |xs|
  {
    if |xs| > 0 && key(x) > key(xs[0]) {
      InsertWithKey(x, xs[1..], key, k);
    }
  }

  /**
   * `sorted` returns a permutation of its input, ordered by key, and it is
   * stable: the elements of each key keep their input order.
   */
  lemma {:induction false} SortByCorrect<T>(xs: seq<T>, key: T -> nat)
    ensures multiset(SortBy(xs, key)) == multiset(xs)
    ensures SortedBy(SortBy(xs, key), key)
    ensures forall k :: WithKey(SortBy(xs, key), key, k) == WithKey(xs, key, k)
    decreases |xs|
  {
    if |xs| > 0 {
      var rest := SortBy(xs[1..], key);
      SortByCorrect(xs[1..], key);
      InsertPermutes(xs[0], rest, key);
      InsertSorted(xs[0], rest, key);
      assert xs == [xs[0]] + xs[1..];
      forall k: nat ensures WithKey(SortBy(xs, key), key, k) == WithKey(xs, key, k) {
        InsertWithKey(xs[0], rest, key, k);
      }
    }
  }

  /** `sort_by_status`. */
  function SortByStatus(ms: seq<Object>): (r: seq<Object>)
    ensures multiset(r) == multiset(ms)
    ensures SortedBy(r, Rank)
    ensures forall k :: WithKey(r, Rank, k) == WithKey(ms, Rank, k)
  {
    SortByCorrect(ms, Rank);
    SortBy(ms, Rank)
  }

  /** A match with an unknown status sorts after every match with a known one. */
  lemma UnknownStatusLast(ms: seq<Object>, i: nat, j: nat)
    requires i < |SortByStatus(ms)| && j < |SortByStatus(ms)|
    requires Rank(SortByStatus(ms)[i]) == |DesiredStatusOrder| && Rank(SortByStatus(ms)[j]) < |DesiredStatusOrder|
    ensures j < i
  {
  }

  // ---------------------------------------------------------------------
  // Unpacking the full match cache
  // ---------------------------------------------------------------------

  /** The six results of `unpack_full_cache`. */
  datatype Unpacked = Unpacked(
    live: seq<Value>,
    details: map<Value, Value>,
    odds: map<Value, Value>,
    teams: map<Value, Value>,
    competitions: map<Value, Value>,
    countries: map<Value, Value>)

  const Empty := Unpacked([], map[], map[], map[], map[], map[])

  const Roles: seq<string> := ["home_team", "away_team"]

  /** Lists and dicts cannot be dict keys: using one raises TypeError. */
  predicate Hashable(v: Value) {
    !v.Arr? && !v.Obj?
  }

  /**
   * What `for m in full_cache.get("matches", [])` iterates over: a list's
   * items, and nothing for an empty dict or string. Other values raise
   * (None, numbers) or yield keys or characters, on which `m.get` raises:
   * those are None.
   */
  function MatchList(fullCache: Object): (r: Option<seq<Value>>)
    ensures Get(fullCache, "matches").None? ==> r == Some([])
  {
    match GetOr(fullCache, "matches", Arr([]))
    case Arr(items) => Some(items)
    case Obj(fields) => if |fields| == 0 then Some([]) else None
    case Str(s) => if |s| == 0 then Some([]) else None
    case _ => None
  }

  function MatchIdOf(m: Object): Value { GetOr(m, "match_id", Null) }
  function BasicOf(m: Object): Value { GetOr(m, "basic_info", Obj([])) }
  function DetailsOf(m: Object): Value { GetOr(m, "details", Obj([])) }
  function OddsOf(m: Object): Value { GetOr(m, "odds", Obj([])) }

  /** `m.get("enriched", {}).get(part, {})` when it is a dict; None where this or the following `.get` raises. */
  function EnrichedPart(m: Object, part: string): Option<Object> {
    match GetOr(m, "enriched", Obj([]))
    case Obj(e) => (match GetOr(e, part, Obj([])) case Obj(p) => Some(p) case _ => None)
    case _ => None
  }

  /** One pass of the team loop: record the team under a truthy id; None where it raises. */
  function AddTeam(teams: map<Value, Value>, m: Object, role: string): Option<map<Value, Value>> {
    match EnrichedPart(m, role)
    case None => None
    case Some(t) =>
      var tid := GetOr(t, "id", Null);
      if !Truthy(tid) then Some(teams)
      else if !Hashable(tid) then None
      else Some(teams[tid := Obj(t)])
  }

  /** The team loop over the first `n` roles. */
  function AddTeams(teams: map<Value, Value>, m: Object, n: nat): Option<map<Value, Value>>
    requires n <= |Roles|
  {
    if n == 0 then Some(teams)
    else match AddTeams(teams, m, n - 1)
      case None => None
      case Some(t) => AddTeam(t, m, Roles[n - 1])
  }

  /** The competition step: record it under a truthy id; None where it raises. */
  function AddCompetition(comps: map<Value, Value>, comp: Object): Option<map<Value, Value>> {
    var cid := GetOr(comp, "id", Null);
    if !Truthy(cid) then Some(comps)
    else if !Hashable(cid) then None
    else Some(comps[cid := Obj(comp)])
  }

  /** The country step: record a truthy name under a truthy id; None where it raises. */
  function AddCountry(countries: map<Value, Value>, comp: Object, m: Object): Option<map<Value, Value>> {
    var countryId := GetOr(comp, "country_id", Null);
    match GetOr(m, "metadata", Obj([]))
    case Obj(meta) =>
      var countryName := GetOr(meta, "country_name", Null);
      if !(Truthy(countryId) && Truthy(countryName)) then Some(countries)
      else if !Hashable(countryId) then None
      else Some(countries[countryId := countryName])
    case _ => None
  }

  /** One iteration of the loop of `unpack_full_cache`; None where it raises. */
  function Absorb(u: Unpacked, v: Value): Option<Unpacked> {
    if !v.Obj? || !Hashable(MatchIdOf(v.fields)) then None
    else
      var m := v.fields;
      var mid := MatchIdOf(m);
      match AddTeams(u.teams, m, |Roles|)
      case None => None
      case Some(teams) =>
        match EnrichedPart(m, "competition")
        case None => None
        case Some(comp) =>
          match AddCompetition(u.competitions, comp)
          case None => None
          case Some(comps) =>
            match AddCountry(u.countries, comp, m)
            case None => None
            case Some(countries) =>
              Some(Unpacked(u.live + [BasicOf(m)], u.details[mid := DetailsOf(m)], u.odds[mid := OddsOf(m)],
                            teams, comps, countries))
  }

  /** The maps after the loop has run over `ms`; None where an iteration raises. */
  function UnpackAll(ms: seq<Value>): Option<Unpacked>
    decreases |ms|
  {
    if |ms| == 0 then Some(Empty)
    else match UnpackAll(ms[..|ms| - 1])
      case None => None
      case Some(u) => Absorb(u, ms[|ms| - 1])
  }

  lemma {:induction false} UnpackAllNoneExtends(ms: seq<Value>, i: nat)
    requires i <= |ms| && UnpackAll(ms[..i]).None?
    ensures UnpackAll(ms).None?
    decreases |ms| - i
  {
    if i < |ms| {
      assert ms[..i + 1][..i] == ms[..i];
      UnpackAllNoneExtends(ms, i + 1);
    } else {
      assert ms[..i] == ms;
    }
  }

  /** The body of the loop of `unpack_full_cache` for one match; None where it raises. */
  method AbsorbMatch(u: Unpacked, v: Value) returns (r: Option<Unpacked>)
    ensures r == Absorb(u, v)
  {
    if !v.Obj? || !Hashable(MatchIdOf(v.fields)) {
      return None;
    }
    var m := v.fields;
    var mid := MatchIdOf(m);
    var live := u.live + [BasicOf(m)];
    var details := u.details[mid := DetailsOf(m)];
    var odds := u.odds[mid := OddsOf(m)];
    var teams := u.teams;
    var j := 0;
    while j < |Roles|
      invariant 0 <= j <= |Roles|
      invariant AddTeams(u.teams, m, j) == Some(teams)
    {
      var t := EnrichedPart(m, Roles[j]);
      if t.None? {
        assert AddTeams(u.teams, m, j + 1).None?;
        NoTeamsAfter(u.teams, m, j + 1);
        return None;
      }
      var tid := GetOr(t.value, "id", Null);
      if Truthy(tid) {
        if !Hashable(tid) {
          assert AddTeams(u.teams, m, j + 1).None?;
          NoTeamsAfter(u.teams, m, j + 1);
          return None;
        }
        teams := teams[tid := Obj(t.value)];
      }
      j := j + 1;
    }
    var comp := EnrichedPart(m, "competition");
    if comp.None? {
      return None;
    }
    var comps := u.competitions;
    var cid := GetOr(comp.value, "id", Null);
    if Truthy(cid) {
      if !Hashable(cid) {
        return None;
      }
      comps := comps[cid := Obj(comp.value)];
    }
    var countries := u.countries;
    var countryId := GetOr(comp.value, "country_id", Null);
    var meta := GetOr(m, "metadata", Obj([]));
    if !meta.Obj? {
      return None;
    }
    var countryName := GetOr(meta.fields, "country_name", Null);
    if Truthy(countryId) && Truthy(countryName) {
      if !Hashable(countryId) {
        return None;
      }
      countries := countries[countryId := countryName];
    }
    return Some(Unpacked(live, details, odds, teams, comps, countries));
  }

  lemma {:induction false} NoTeamsAfter(teams: map<Value, Value>, m: Object, n: nat)
    requires n <= |Roles| && AddTeams(teams, m, n).None?
    ensures AddTeams(teams, m, |Roles|).None?
    decreases |Roles| - n
  {
    if n < |Roles| {
      NoTeamsAfter(teams, m, n + 1);
    }
  }

  /** `unpack_full_cache`; None where it raises. */
  method UnpackFullCache(fullCache: Object) returns (r: Option<Unpacked>)
    ensures MatchList(fullCache).None? ==> r.None?
    ensures MatchList(fullCache).Some? ==> r == UnpackAll(MatchList(fullCache).value)
  {
    var list := MatchList(fullCache);
    if list.None? {
      return None;
    }
    var ms := list.value;
    var acc := Empty;
    var i := 0;
    while i < |ms|
      invariant 0 <= i <= |ms|
      invariant UnpackAll(ms[..i]) == Some(acc)
    {
      assert ms[..i + 1][..i] == ms[..i];
      var next := AbsorbMatch(acc, ms[i]);
      if next.None? {
        UnpackAllNoneExtends(ms, i + 1);
        return None;
      }
      acc := next.value;
      i := i + 1;
    }
    assert ms[..i] == ms;
    return Some(acc);
  }

  /** Every key of the map is truthy (and, with `values`, every value too). */
  predicate TruthyKeys(mp: map<Value, Value>, values: bool) {
    forall k :: k in mp ==> Truthy(k) && (values ==> Truthy(mp[k]))
  }

  lemma {:induction false} AddTeamsTruthy(teams: map<Value, Value>, m: Object, n: nat)
    requires n <= |Roles| && TruthyKeys(teams, false) && AddTeams(teams, m, n).Some?
    ensures TruthyKeys(AddTeams(teams, m, n).value, false)
  {
    if n > 0 {
      AddTeamsTruthy(teams, m, n - 1);
    }
  }

  /** What one iteration does to the accumulated results. */
  lemma AbsorbEffect(u: Unpacked, v: Value)
    requires Absorb(u, v).Some?
    ensures v.Obj?
    ensures var u' := Absorb(u, v).value;
      && u'.live == u.live + [BasicOf(v.fields)]
      && u'.details == u.details[MatchIdOf(v.fields) := DetailsOf(v.fields)]
      && u'.odds == u.odds[MatchIdOf(v.fields) := OddsOf(v.fields)]
    ensures TruthyKeys(u.teams, false) ==> TruthyKeys(Absorb(u, v).value.teams, false)
    ensures TruthyKeys(u.competitions, false) ==> TruthyKeys(Absorb(u, v).value.competitions, false)
    ensures TruthyKeys(u.countries, true) ==> TruthyKeys(Absorb(u, v).value.countries, true)
  {
    if TruthyKeys(u.teams, false) {
      AddTeamsTruthy(u.teams, v.fields, |Roles|);
    }
  }

  /** One more match: what a successful unpacking adds to that of the matches before it. */
  lemma UnpackStep(ms: seq<Value>)
    requires |ms| > 0 && UnpackAll(ms).Some?
    ensures UnpackAll(ms[..|ms| - 1]).Some? && ms[|ms| - 1].Obj?
    ensures var u0 := UnpackAll(ms[..|ms| - 1]).value;
      var u := UnpackAll(ms).value;
      var m := ms[|ms| - 1].fields;
      && u.live == u0.live + [BasicOf(m)]
      && u.details == u0.details[MatchIdOf(m) := DetailsOf(m)]
      && u.odds == u0.odds[MatchIdOf(m) := OddsOf(m)]
      && (TruthyKeys(u0.teams, false) ==> TruthyKeys(u.teams, false))
      && (TruthyKeys(u0.competitions, false) ==> TruthyKeys(u.competitions, false))
      && (TruthyKeys(u0.countries, true) ==> TruthyKeys(u.countries, true))
  {
    AbsorbEffect(UnpackAll(ms[..|ms| - 1]).value, ms[|ms| - 1]);
  }

  /** The fields of a match, or none for a value that is not an object. */
  function FieldsOf(v: Value): Object {
    if v.Obj? then v.fields else []
  }

  /** `[f(m) for m in ms]`: one entry per match, in input order. */
  function Column<T>(ms: seq<Value>, f: Object -> T): (r: seq<T>)
    ensures |r| == |ms|
    decreases |ms|
  {
    if |ms| == 0 then [] else Column(ms[..|ms| - 1], f) + [f(FieldsOf(ms[|ms| - 1]))]
  }

  lemma {:induction false} ColumnAt<T>(ms: seq<Value>, f: Object -> T)
    ensures forall i :: 0 <= i < |ms| ==> Column(ms, f)[i] == f(FieldsOf(ms[i]))
    decreases |ms|
  {
    if |ms| > 0 {
      ColumnAt(ms[..|ms| - 1], f);
    }
  }

  predicate AllObjects(ms: seq<Value>) {
    forall i :: 0 <= i < |ms| ==> ms[i].Obj?
  }

  /** Unpacking succeeds only on a list of objects. */
  lemma {:induction false} UnpackObjects(ms: seq<Value>)
    requires UnpackAll(ms).Some?
    ensures AllObjects(ms)
    decreases |ms|
  {
    if |ms| > 0 {
      var init := ms[..|ms| - 1];
      UnpackStep(ms);
      UnpackObjects(init);
      forall i | 0 <= i < |init| ensures ms[i].Obj? {
        assert ms[i] == init[i];
      }
    }
  }

  lemma {:induction false} UnpackLive(ms: seq<Value>)
    requires UnpackAll(ms).Some?
    ensures UnpackAll(ms).value.live == Column(ms, BasicOf)
    decreases |ms|
  {
    if |ms| > 0 {
      UnpackStep(ms);
      UnpackLive(ms[..|ms| - 1]);
    }
  }

  /** A successful unpacking keeps one `basic_info` per match, in input order. */
  lemma UnpackLiveInOrder(ms: seq<Value>)
    requires UnpackAll(ms).Some?
    ensures forall i :: 0 <= i < |ms| ==> ms[i].Obj?
    ensures |UnpackAll(ms).value.live| == |ms|
    ensures forall i :: 0 <= i < |ms| ==> UnpackAll(ms).value.live[i] == BasicOf(ms[i].fields)
  {
    UnpackObjects(ms);
    UnpackLive(ms);
    ColumnAt(ms, BasicOf);
  }

  /**
   * A successful unpacking puts only truthy ids in the team and
   * competition maps, and only truthy names under truthy ids in the
   * country map.
   */
  lemma {:induction false} UnpackKeys(ms: seq<Value>)
    requires UnpackAll(ms).Some?
    ensures var u := UnpackAll(ms).value;
      TruthyKeys(u.teams, false) && TruthyKeys(u.competitions, false) && TruthyKeys(u.countries, true)
    decreases |ms|
  {
    if |ms| > 0 {
      UnpackStep(ms);
      UnpackKeys(ms[..|ms| - 1]);
    }
  }

  /** A dict filled by `d[k] = v` for the pairs `(k, v)` in order. */
  function Assigned<K(==), V>(ps: seq<(K, V)>): map<K, V>
    decreases |ps|
  {
    if |ps| == 0 then map[]
    else Assigned(ps[..|ps| - 1])[ps[|ps| - 1].0 := ps[|ps| - 1].1]
  }

  /** Position `i` is the last one assigning its key. */
  predicate LastOfKey<K(==), V>(ps: seq<(K, V)>, i: int) {
    0 <= i < |ps| && forall j :: i < j < |ps| ==> ps[j].0 != ps[i].0
  }

  /** The keys of the dict are the keys assigned. */
  lemma {:induction false} AssignedKeys<K, V>(ps: seq<(K, V)>)
    ensures Assigned(ps).Keys == set p | p in ps :: p.0
    decreases |ps|
  {
    if |ps| > 0 {
      var n := |ps| - 1;
      AssignedKeys(ps[..n]);
      assert ps == ps[..n] + [ps[n]];
      assert (set p | p in ps :: p.0) == (set p | p in ps[..n] :: p.0) + {ps[n].0};
    }
  }

  /** Every entry of the dict is one of the assignments. */
  lemma {:induction false} AssignedFrom<K, V>(ps: seq<(K, V)>)
    ensures forall k :: k in Assigned(ps) ==> (k, Assigned(ps)[k]) in ps
    decreases |ps|
  {
    if |ps| > 0 {
      var n := |ps| - 1;
      AssignedFrom(ps[..n]);
      assert ps == ps[..n] + [ps[n]];
    }
  }

  /** The last assignment to a key wins. */
  lemma {:induction false} AssignedLastWins<K, V>(ps: seq<(K, V)>)
    ensures forall i :: LastOfKey(ps, i) ==> ps[i].0 in Assigned(ps) && Assigned(ps)[ps[i].0] == ps[i].1
    decreases |ps|
  {
    if |ps| > 0 {
      var n := |ps| - 1;
      AssignedLastWins(ps[..n]);
      forall i | LastOfKey(ps, i) ensures ps[i].0 in Assigned(ps) && Assigned(ps)[ps[i].0] == ps[i].1 {
        if i < n {
          assert LastOfKey(ps[..n], i);
        }
      }
    }
  }

  /** Assigning `q` after `ps` continues from the dict `ps` built. */
  lemma AssignedAppend<K, V>(ps: seq<(K, V)>, q: (K, V))
    ensures Assigned(ps + [q]) == Assigned(ps)[q.0 := q.1]
  {
    assert (ps + [q])[..|ps|] == ps;
  }

  /** The `details` and `odds` assignments of one match. */
  function DetailsEntry(m: Object): (Value, Value) { (MatchIdOf(m), DetailsOf(m)) }
  function OddsEntry(m: Object): (Value, Value) { (MatchIdOf(m), OddsOf(m)) }

  lemma {:induction false} UnpackMaps(ms: seq<Value>)
    requires UnpackAll(ms).Some?
    ensures UnpackAll(ms).value.details == Assigned(Column(ms, DetailsEntry))
    ensures UnpackAll(ms).value.odds == Assigned(Column(ms, OddsEntry))
    decreases |ms|
  {
    if |ms| > 0 {
      var n := |ms| - 1;
      UnpackStep(ms);
      UnpackMaps(ms[..n]);
      AssignedAppend(Column(ms[..n], DetailsEntry), DetailsEntry(FieldsOf(ms[n])));
      AssignedAppend(Column(ms[..n], OddsEntry), OddsEntry(FieldsOf(ms[n])));
    }
  }

  /** No later match has the id of match `i`. */
  predicate LastOfId(ms: seq<Value>, i: int) {
    0 <= i < |ms| && forall j :: i < j < |ms| ==> MatchIdOf(FieldsOf(ms[j])) != MatchIdOf(FieldsOf(ms[i]))
  }

  /**
   * `details` and `odds` are keyed by match id: their keys are exactly
   * the ids of the matches, and a later match with the same id overwrites
   * an earlier one.
   */
  lemma UnpackLastWins(ms: seq<Value>)
    requires UnpackAll(ms).Some?
    ensures forall i :: 0 <= i < |ms| ==> ms[i].Obj?
    ensures var u := UnpackAll(ms).value;
      && u.details.Keys == (set m | m in ms :: MatchIdOf(FieldsOf(m)))
      && u.odds.Keys == u.details.Keys
      && forall i :: LastOfId(ms, i) ==>
           && u.details[MatchIdOf(ms[i].fields)] == DetailsOf(ms[i].fields)
           && u.odds[MatchIdOf(ms[i].fields)] == OddsOf(ms[i].fields)
  {
    var ds, os := Column(ms, DetailsEntry), Column(ms, OddsEntry);
    UnpackObjects(ms);
    UnpackMaps(ms);
    ColumnKeys(ms, DetailsEntry);
    ColumnKeys(ms, OddsEntry);
    AssignedKeys(ds);
    AssignedKeys(os);
    AssignedLastWins(ds);
    AssignedLastWins(os);
    ColumnLast(ms, DetailsEntry);
    ColumnLast(ms, OddsEntry);
  }

  /** The keys a column of assignments makes are the match ids. */
  lemma ColumnKeys(ms: seq<Value>, f: Object -> (Value, Value))
    requires forall m :: f(m).0 == MatchIdOf(m)
    ensures (set p | p in Column(ms, f) :: p.0) == (set m | m in ms :: MatchIdOf(FieldsOf(m)))
  {
    var ps := Column(ms, f);
    ColumnAt(ms, f);
    forall m | m in ms ensures MatchIdOf(FieldsOf(m)) in (set p | p in ps :: p.0) {
      var i :| 0 <= i < |ms| && ms[i] == m;
      assert ps[i] in ps;
    }
  }

  /** The last match with its id holds the last assignment to that key. */
  lemma ColumnLast(ms: seq<Value>, f: Object -> (Value, Value))
    requires forall m :: f(m).0 == MatchIdOf(m)
    ensures forall i :: LastOfId(ms, i) ==> LastOfKey(Column(ms, f), i) && Column(ms, f)[i] == f(FieldsOf(ms[i]))
  {
    ColumnAt(ms, f);
  }

  /** The `team_cache` assignment for one role of a match: its team under a truthy id. */
  function RoleEntry(m: Object, role: string): seq<(Value, Value)> {
    match EnrichedPart(m, role)
    case Some(t) => if Truthy(GetOr(t, "id", Null)) then [(GetOr(t, "id", Null), Obj(t))] else []
    case None => []
  }

  /** The `team_cache` assignments of one match: home team, then away team. */
  function TeamEntries(m: Object): seq<(Value, Value)> {
    RoleEntry(m, Roles[0]) + RoleEntry(m, Roles[1])
  }

  /** The `competition_cache` assignment of one match: its competition under a truthy id. */
  function CompetitionEntries(m: Object): seq<(Value, Value)> {
    match EnrichedPart(m, "competition")
    case Some(c) => if Truthy(GetOr(c, "id", Null)) then [(GetOr(c, "id", Null), Obj(c))] else []
    case None => []
  }

  /** The `country_map` assignment of one match: a truthy country name under a truthy country id. */
  function CountryEntries(m: Object): seq<(Value, Value)> {
    match EnrichedPart(m, "competition")
    case Some(c) =>
      (match GetOr(m, "metadata", Obj([]))
       case Obj(meta) =>
         var countryId, name := GetOr(c, "country_id", Null), GetOr(meta, "country_name", Null);
         if Truthy(countryId) && Truthy(name) then [(countryId, name)] else []
       case _ => [])
    case None => []
  }

  /** The assignments `f` makes for each match, all in match order. */
  function Flat(ms: seq<Value>, f: Object -> seq<(Value, Value)>): seq<(Value, Value)>
    decreases |ms|
  {
    if |ms| == 0 then [] else Flat(ms[..|ms| - 1], f) + f(FieldsOf(ms[|ms| - 1]))
  }

  lemma {:induction false} FlatMembers(ms: seq<Value>, f: Object -> seq<(Value, Value)>)
    ensures forall p :: p in Flat(ms, f) ==> exists i :: 0 <= i < |ms| && p in f(FieldsOf(ms[i]))
    ensures forall i, p :: 0 <= i < |ms| && p in f(FieldsOf(ms[i])) ==> p in Flat(ms, f)
    decreases |ms|
  {
    if |ms| > 0 {
      var n := |ms| - 1;
      FlatMembers(ms[..n], f);
      forall p | p in Flat(ms, f) ensures exists i :: 0 <= i < |ms| && p in f(FieldsOf(ms[i])) {
        if p in Flat(ms[..n], f) {
          var i :| 0 <= i < n && p in f(FieldsOf(ms[..n][i]));
          assert ms[..n][i] == ms[i];
        }
      }
      forall i, p | 0 <= i < |ms| && p in f(FieldsOf(ms[i])) ensures p in Flat(ms, f) {
        if i < n {
          assert ms[..n][i] == ms[i];
        }
      }
    }
  }

  /** Assigning more pairs continues from the dict the earlier ones built. */
  lemma {:induction false} AssignedConcat(ps: seq<(Value, Value)>, qs: seq<(Value, Value)>)
    ensures |qs| == 0 ==> Assigned(ps + qs) == Assigned(ps)
    ensures |qs| == 1 ==> Assigned(ps + qs) == Assigned(ps)[qs[0].0 := qs[0].1]
  {
    if |qs| == 0 {
      assert ps + qs == ps;
    } else if |qs| == 1 {
      assert qs == [qs[0]];
      AssignedAppend(ps, qs[0]);
    }
  }

  lemma AddTeamAssigned(ps: seq<(Value, Value)>, m: Object, role: string)
    requires AddTeam(Assigned(ps), m, role).Some?
    ensures AddTeam(Assigned(ps), m, role).value == Assigned(ps + RoleEntry(m, role))
  {
    AssignedConcat(ps, RoleEntry(m, role));
  }

  /** A successful team loop is the team assignments of the match. */
  lemma AddTeamsAssigned(ps: seq<(Value, Value)>, m: Object)
    requires AddTeams(Assigned(ps), m, |Roles|).Some?
    ensures AddTeams(Assigned(ps), m, |Roles|).value == Assigned(ps + TeamEntries(m))
  {
    assert AddTeams(Assigned(ps), m, 1) == AddTeam(Assigned(ps), m, Roles[0]);
    assert AddTeams(Assigned(ps), m, 1).Some?;
    AddTeamAssigned(ps, m, Roles[0]);
    var ps1 := ps + RoleEntry(m, Roles[0]);
    AddTeamAssigned(ps1, m, Roles[1]);
    assert ps1 + RoleEntry(m, Roles[1]) == ps + TeamEntries(m);
  }

  /** One iteration continues the three caches with the match's assignments. */
  lemma AbsorbCaches(u: Unpacked, v: Value, ts: seq<(Value, Value)>, cs: seq<(Value, Value)>, ns: seq<(Value, Value)>)
    requires Absorb(u, v).Some?
    requires u.teams == Assigned(ts) && u.competitions == Assigned(cs) && u.countries == Assigned(ns)
    ensures var u' := Absorb(u, v).value;
      && u'.teams == Assigned(ts + TeamEntries(FieldsOf(v)))
      && u'.competitions == Assigned(cs + CompetitionEntries(FieldsOf(v)))
      && u'.countries == Assigned(ns + CountryEntries(FieldsOf(v)))
  {
    var m := v.fields;
    AddTeamsAssigned(ts, m);
    AssignedConcat(cs, CompetitionEntries(m));
    AssignedConcat(ns, CountryEntries(m));
  }

  /** The three caches are the dicts built by every match's assignments, in match order. */
  lemma {:induction false} UnpackCaches(ms: seq<Value>)
    requires UnpackAll(ms).Some?
    ensures var u := UnpackAll(ms).value;
      && u.teams == Assigned(Flat(ms, TeamEntries))
      && u.competitions == Assigned(Flat(ms, CompetitionEntries))
      && u.countries == Assigned(Flat(ms, CountryEntries))
    decreases |ms|
  {
    if |ms| > 0 {
      var n := |ms| - 1;
      UnpackStep(ms);
      UnpackCaches(ms[..n]);
      AbsorbCaches(UnpackAll(ms[..n]).value, ms[n],
                   Flat(ms[..n], TeamEntries), Flat(ms[..n], CompetitionEntries), Flat(ms[..n], CountryEntries));
    }
  }

  /**
   * `mp` is the dict the matches' assignments `f` build: every key a match
   * assigns is in it, every entry is what some match assigned, and the last
   * assignment to a key wins.
   */
  predicate BuiltBy(mp: map<Value, Value>, ms: seq<Value>, f: Object -> seq<(Value, Value)>) {
    && (forall i, p :: 0 <= i < |ms| && p in f(FieldsOf(ms[i])) ==> p.0 in mp)
    && (forall k :: k in mp ==> exists i :: 0 <= i < |ms| && (k, mp[k]) in f(FieldsOf(ms[i])))
    && (forall i :: 0 <= i < |Flat(ms, f)| && LastOfKey(Flat(ms, f), i) ==> Flat(ms, f)[i].0 in mp && mp[Flat(ms, f)[i].0] == Flat(ms, f)[i].1)
  }

  lemma AssignedFlat(ms: seq<Value>, f: Object -> seq<(Value, Value)>)
    ensures BuiltBy(Assigned(Flat(ms, f)), ms, f)
  {
    FlatMembers(ms, f);
    AssignedKeys(Flat(ms, f));
    AssignedFrom(Flat(ms, f));
    AssignedLastWins(Flat(ms, f));
  }

  /**
   * The team, competition and country caches: every truthy team or
   * competition id of a match (every truthy country id with a truthy name)
   * is a key, every key holds what some match assigned to it, and the
   * last match to assign a key wins.
   */
  lemma UnpackCacheContents(ms: seq<Value>)
    requires UnpackAll(ms).Some?
    ensures BuiltBy(UnpackAll(ms).value.teams, ms, TeamEntries)
    ensures BuiltBy(UnpackAll(ms).value.competitions, ms, CompetitionEntries)
    ensures BuiltBy(UnpackAll(ms).value.countries, ms, CountryEntries)
  {
    UnpackCaches(ms);
    AssignedFlat(ms, TeamEntries);
    AssignedFlat(ms, CompetitionEntries);
    AssignedFlat(ms, CountryEntries);
  }

  // ---------------------------------------------------------------------
  // Running the alerts
  // ---------------------------------------------------------------------

  /**
   * What follows an alert's notice: formatting or sending raised before
   * the id was marked as seen, the id was marked, or it was marked and
   * saving the seen ids raised afterwards.
   */
  datatype Delivery = FailedBeforeMark | Delivered | FailedAfterMark

  /** `match.get("match_id") or match.get("id") or ""`. */
  function RawId(m: Object): Value {
    Or(Or(GetOr(m, "match_id", Null), GetOr(m, "id", Null)), Str(""))
  }

  /** A non-empty `match_ids` keeps only the matches whose raw id it lists. */
  predicate Selected(matchIds: seq<Value>, m: Object) {
    |matchIds| == 0 || RawId(m) in matchIds
  }

  /** The list comprehension that narrows the matches to process. */
  function SelectMatches(matchIds: seq<Value>, ms: seq<Object>): (r: seq<Object>)
    ensures |r| <= |ms|
    decreases |ms|
  {
    if |ms| == 0 then []
    else if Selected(matchIds, ms[0]) then [ms[0]] + SelectMatches(matchIds, ms[1..])
    else SelectMatches(matchIds, ms[1..])
  }

  /**
   * Without match ids every match is processed; with some, exactly the
   * matches whose raw id is listed are.
   */
  lemma {:induction false} SelectMatchesMeaning(matchIds: seq<Value>, ms: seq<Object>)
    ensures |matchIds| == 0 ==> SelectMatches(matchIds, ms) == ms
    ensures forall m :: m in SelectMatches(matchIds, ms) <==> m in ms && Selected(matchIds, m)
    decreases |ms|
  {
    if |ms| > 0 {
      SelectMatchesMeaning(matchIds, ms[1..]);
      assert ms == [ms[0]] + ms[1..];
    }
  }

  /** The selection keeps input order: selecting from a concatenation concatenates the selections. */
  lemma {:induction false} SelectMatchesInOrder(matchIds: seq<Value>, xs: seq<Object>, ys: seq<Object>)
    ensures SelectMatches(matchIds, xs + ys) == SelectMatches(matchIds, xs) + SelectMatches(matchIds, ys)
    decreases |xs|
  {
    if |xs| > 0 {
      assert (xs + ys)[1..] == xs[1..] + ys;
      SelectMatchesInOrder(matchIds, xs[1..], ys);
    } else {
      assert xs + ys == ys;
    }
  }

  /**
   * One alert checking one match: the alert's position and seen-file
   * base, the match's position among those processed and its id, whether
   * the alert noticed the match and whether the id was then marked.
   */
  datatype Visit = Visit(alert: nat, base: string, pos: nat, id: string, noticed: bool, marked: bool)

  /** The ids marked for one seen-file base. */
  function MarkedIds(trace: seq<Visit>, base: string): set<string> {
    set v | v in trace && v.marked && v.base == base :: v.id
  }

  /** `str(match.get("match_id") or match.get("id") or "")` for each match processed. */
  function MatchKeys(process: seq<Object>, show: Value -> string): (ids: seq<string>)
    ensures |ids| == |process|
  {
    seq(|process|, k requires 0 <= k < |process| => show(RawId(process[k])))
  }

  /** Visit `v` is what the loop does for alert `v.alert` on match `v.pos`, whose id is `ids[v.pos]`. */
  predicate Faithful(v: Visit, bases: seq<string>, ids: seq<string>,
                     notice: (nat, nat) -> bool, deliver: (nat, nat) -> Delivery) {
    && v.alert < |bases| && v.base == bases[v.alert]
    && v.pos < |ids| && v.id == ids[v.pos] && v.id != ""
    && v.noticed == notice(v.alert, v.pos)
    && v.marked == (v.noticed && deliver(v.alert, v.pos) != FailedBeforeMark)
  }

  /** Visit `u` comes before visit `v`: an earlier match, or the same match and an earlier alert. */
  predicate Before(u: Visit, v: Visit) {
    u.pos < v.pos || (u.pos == v.pos && u.alert < v.alert)
  }

  /** Every visit is faithful, and each comes before the later ones. */
  predicate Orderly(trace: seq<Visit>, bases: seq<string>, ids: seq<string>,
                    notice: (nat, nat) -> bool, deliver: (nat, nat) -> Delivery) {
    && (forall i :: 0 <= i < |trace| ==> Faithful(trace[i], bases, ids, notice, deliver))
    && (forall i, j :: 0 <= i < j < |trace| ==> Before(trace[i], trace[j]))
  }

  /** The last visit comes before alert `a` visiting match `k`. */
  predicate Precedes(trace: seq<Visit>, k: nat, a: nat) {
    |trace| == 0 || trace[|trace| - 1].pos < k || (trace[|trace| - 1].pos == k && trace[|trace| - 1].alert < a)
  }

  /** No visit checks an id already seen, or marked by an earlier visit, for its base. */
  predicate NeverRechecked(trace: seq<Visit>, seen: map<string, set<string>>) {
    && (forall i :: 0 <= i < |trace| ==> trace[i].base in seen && trace[i].id !in seen[trace[i].base])
    && (forall j, i :: 0 <= j < i < |trace| && trace[j].marked && trace[j].base == trace[i].base ==> trace[j].id != trace[i].id)
  }

  /** The seen sets are the initial ones plus the ids the trace marked, and no visit rechecked an id. */
  predicate Bookkeeping(seen: map<string, set<string>>, cur: map<string, set<string>>, trace: seq<Visit>) {
    && cur.Keys == seen.Keys
    && (forall b :: b in seen ==> cur[b] == seen[b] + MarkedIds(trace, b))
    && NeverRechecked(trace, seen)
  }

  /** Alert `a` checked match `k`. */
  predicate Visited(trace: seq<Visit>, a: nat, k: nat) {
    exists i :: 0 <= i < |trace| && trace[i].alert == a && trace[i].pos == k
  }

  /** A visit before alert `a` on match `k` marked `id` for the seen-file base `base`. */
  predicate MarkedBefore(trace: seq<Visit>, base: string, id: string, a: nat, k: nat) {
    exists i :: 0 <= i < |trace| && trace[i].marked && trace[i].base == base && trace[i].id == id
      && (trace[i].pos < k || (trace[i].pos == k && trace[i].alert < a))
  }

  /**
   * Alert `a`, whose seen-file base is `base`, is due to check match `k`
   * with id `id`: the id is not empty, was not in the base's seen set at
   * the start, and no earlier visit marked it for that base.
   */
  predicate Due(seen: map<string, set<string>>, trace: seq<Visit>, base: string, id: string, a: nat, k: nat) {
    id != "" && !(base in seen && id in seen[base]) && !MarkedBefore(trace, base, id, a, k)
  }

  /** Alert `a` either checked match `k`, or had `id` in its seen set then: from the start or marked by an earlier visit. */
  predicate Covered(seen: map<string, set<string>>, trace: seq<Visit>, base: string, id: string, a: nat, k: nat) {
    (base in seen && id in seen[base]) || MarkedBefore(trace, base, id, a, k) || Visited(trace, a, k)
  }

  /** Coverage already reached survives the step from `trace` to `trace'`. */
  ghost predicate KeepsCoverage(seen: map<string, set<string>>, trace: seq<Visit>, trace': seq<Visit>) {
    forall base, id, a, k :: Covered(seen, trace, base, id, a, k) ==> Covered(seen, trace', base, id, a, k)
  }

  /**
   * `run_alerters` after loading the alerts and their seen sets: the
   * alerts are given by their seen-file bases; `show` is `str()`;
   * `notice(a, k)` is whether alert `a` fires on the `k`-th match
   * processed, and `deliver(a, k)` what formatting, sending and saving then
   * do. Returns the new seen sets and the trace of checks made, in order.
   */
  method RunAlerters(matches: seq<Object>, matchIds: seq<Value>, bases: seq<string>, seen: map<string, set<string>>,
                     show: Value -> string, notice: (nat, nat) -> bool, deliver: (nat, nat) -> Delivery)
    returns (seen': map<string, set<string>>, trace: seq<Visit>)
    requires forall a :: 0 <= a < |bases| ==> bases[a] in seen
    ensures Bookkeeping(seen, seen', trace)
    ensures Orderly(trace, bases, MatchKeys(SelectMatches(matchIds, matches), show), notice, deliver)
    ensures forall a, k :: 0 <= a < |bases| && 0 <= k < |SelectMatches(matchIds, matches)| ==>
      var id := MatchKeys(SelectMatches(matchIds, matches), show)[k];
      (Visited(trace, a, k) <==> Due(seen, trace, bases[a], id, a, k))
    ensures forall a, k :: 0 <= a < |bases| && 0 <= k < |SelectMatches(matchIds, matches)| ==>
      var id := MatchKeys(SelectMatches(matchIds, matches), show)[k];
      id == "" || id in seen'[bases[a]] || Visited(trace, a, k)
  {
    var process := SelectMatches(matchIds, matches);
    var ids := MatchKeys(process, show);
    seen', trace := AlertMatches(ids, bases, seen, notice, deliver);
  }

  /**
   * The match loop of `run_alerters` over the ids of the matches
   * processed: a match without id is skipped; otherwise every alert whose
   * seen set lacks the id checks it. So alert `a` checks match `k` exactly
   * when it is due to, and afterwards every id is in every alert's seen set
   * or was checked by that alert.
   */
  method AlertMatches(ids: seq<string>, bases: seq<string>, seen: map<string, set<string>>,
                      notice: (nat, nat) -> bool, deliver: (nat, nat) -> Delivery)
    returns (seen': map<string, set<string>>, trace: seq<Visit>)
    requires forall a :: 0 <= a < |bases| ==> bases[a] in seen
    ensures Bookkeeping(seen, seen', trace)
    ensures Orderly(trace, bases, ids, notice, deliver)
    ensures forall a, k :: 0 <= a < |bases| && 0 <= k < |ids| ==> (Visited(trace, a, k) <==> Due(seen, trace, bases[a], ids[k], a, k))
    ensures forall a, k :: 0 <= a < |bases| && 0 <= k < |ids| ==> ids[k] == "" || ids[k] in seen'[bases[a]] || Visited(trace, a, k)
  {
    seen' := seen;
    trace := [];
    var k := 0;
    while k < |ids|
      invariant 0 <= k <= |ids|
      invariant Bookkeeping(seen, seen', trace)
      invariant Orderly(trace, bases, ids, notice, deliver) && Precedes(trace, k, 0)
      invariant CoveredBefore(seen, trace, bases, ids, k)
    {
      if ids[k] != "" {
        var seen2, trace2 := CheckMatch(k, ids, bases, seen, seen', trace, notice, deliver);
        CoverageStep(seen, trace, trace2, bases, ids, k);
        seen', trace := seen2, trace2;
      } else {
        CoverageSkip(seen, trace, bases, ids, k);
      }
      k := k + 1;
    }
    CoverageDone(seen, seen', trace, bases, ids);
    VisitedDue(seen, trace, bases, ids, notice, deliver);
  }

  /** Every match with an id before position `k` is covered for every alert. */
  ghost predicate CoveredBefore(seen: map<string, set<string>>, trace: seq<Visit>, bases: seq<string>, ids: seq<string>, k: nat)
    requires k <= |ids|
  {
    forall a, kk :: 0 <= a < |bases| && 0 <= kk < k ==> ids[kk] == "" || Covered(seen, trace, bases[a], ids[kk], a, kk)
  }

  /** A match without id needs no coverage. */
  lemma CoverageSkip(seen: map<string, set<string>>, trace: seq<Visit>, bases: seq<string>, ids: seq<string>, k: nat)
    requires k < |ids| && ids[k] == ""
    requires CoveredBefore(seen, trace, bases, ids, k)
    ensures CoveredBefore(seen, trace, bases, ids, k + 1)
  {
  }

  /** The matches before `k` stay covered, and match `k` is now covered too. */
  lemma CoverageStep(seen: map<string, set<string>>, trace: seq<Visit>, trace': seq<Visit>,
                     bases: seq<string>, ids: seq<string>, k: nat)
    requires k < |ids|
    requires CoveredBefore(seen, trace, bases, ids, k)
    requires KeepsCoverage(seen, trace, trace')
    requires forall a :: 0 <= a < |bases| ==> Covered(seen, trace', bases[a], ids[k], a, k)
    ensures CoveredBefore(seen, trace', bases, ids, k + 1)
  {
  }

  /** Once every match is covered, an alert that did not check a match with an id was not due to, and now has the id. */
  lemma CoverageDone(seen: map<string, set<string>>, cur: map<string, set<string>>, trace: seq<Visit>,
                     bases: seq<string>, ids: seq<string>)
    requires forall a :: 0 <= a < |bases| ==> bases[a] in seen
    requires Bookkeeping(seen, cur, trace)
    requires CoveredBefore(seen, trace, bases, ids, |ids|)
    ensures forall a, kk :: 0 <= a < |bases| && 0 <= kk < |ids| ==> Due(seen, trace, bases[a], ids[kk], a, kk) ==> Visited(trace, a, kk)
    ensures forall a, kk :: 0 <= a < |bases| && 0 <= kk < |ids| ==> ids[kk] == "" || ids[kk] in cur[bases[a]] || Visited(trace, a, kk)
  {
    forall a, kk | 0 <= a < |bases| && 0 <= kk < |ids| && MarkedBefore(trace, bases[a], ids[kk], a, kk)
      ensures ids[kk] in cur[bases[a]]
    {
      var i :| 0 <= i < |trace| && trace[i].marked && trace[i].base == bases[a] && trace[i].id == ids[kk];
      assert trace[i] in trace;
      assert ids[kk] in MarkedIds(trace, bases[a]);
    }
  }

  /** Every visit was due: its id was neither seen at the start nor marked earlier for its base. */
  lemma VisitedDue(seen: map<string, set<string>>, trace: seq<Visit>,
                   bases: seq<string>, ids: seq<string>, notice: (nat, nat) -> bool, deliver: (nat, nat) -> Delivery)
    requires NeverRechecked(trace, seen) && Orderly(trace, bases, ids, notice, deliver)
    ensures forall a, k :: 0 <= a < |bases| && 0 <= k < |ids| && Visited(trace, a, k) ==> Due(seen, trace, bases[a], ids[k], a, k)
  {
    forall a, k | 0 <= a < |bases| && 0 <= k < |ids| && Visited(trace, a, k)
      ensures Due(seen, trace, bases[a], ids[k], a, k)
    {
      var i :| 0 <= i < |trace| && trace[i].alert == a && trace[i].pos == k;
      assert Faithful(trace[i], bases, ids, notice, deliver);
      if MarkedBefore(trace, bases[a], ids[k], a, k) {
        var j :| 0 <= j < |trace| && trace[j].marked && trace[j].base == bases[a] && trace[j].id == ids[k]
          && (trace[j].pos < k || (trace[j].pos == k && trace[j].alert < a));
        assert false;
      }
    }
  }

  /**
   * The inner loop of `run_alerters` for the `k`-th match processed: every
   * alert whose seen set lacks the id checks the match, in alert order.
   */
  method CheckMatch(k: nat, ids: seq<string>, bases: seq<string>, seen: map<string, set<string>>,
                    cur: map<string, set<string>>, trace: seq<Visit>,
                    notice: (nat, nat) -> bool, deliver: (nat, nat) -> Delivery)
    returns (cur': map<string, set<string>>, trace': seq<Visit>)
    requires k < |ids| && ids[k] != ""
    requires forall a :: 0 <= a < |bases| ==> bases[a] in seen
    requires Bookkeeping(seen, cur, trace)
    requires Orderly(trace, bases, ids, notice, deliver) && Precedes(trace, k, 0)
    ensures Bookkeeping(seen, cur', trace')
    ensures Orderly(trace', bases, ids, notice, deliver) && Precedes(trace', k + 1, 0)
    ensures KeepsCoverage(seen, trace, trace')
    ensures forall a :: 0 <= a < |bases| ==> Covered(seen, trace', bases[a], ids[k], a, k)
  {
    cur' := cur;
    trace' := trace;
    var a := 0;
    while a < |bases|
      invariant 0 <= a <= |bases|
      invariant Bookkeeping(seen, cur', trace')
      invariant Orderly(trace', bases, ids, notice, deliver) && Precedes(trace', k, a)
      invariant KeepsCoverage(seen, trace, trace')
      invariant forall a' :: 0 <= a' < a ==> Covered(seen, trace', bases[a'], ids[k], a', k)
    {
      ghost var t0 := trace';
      cur', trace' := CheckAlert(a, k, ids, bases, seen, cur', trace', notice, deliver);
      CoverageTransitive(seen, trace, t0, trace');
      a := a + 1;
    }
  }

  lemma CoverageTransitive(seen: map<string, set<string>>, t0: seq<Visit>, t1: seq<Visit>, t2: seq<Visit>)
    requires KeepsCoverage(seen, t0, t1) && KeepsCoverage(seen, t1, t2)
    ensures KeepsCoverage(seen, t0, t2)
  {
  }

  /** One pass of the inner loop: alert `a` checks the `k`-th match unless its seen set has the id. */
  method CheckAlert(a: nat, k: nat, ids: seq<string>, bases: seq<string>, seen: map<string, set<string>>,
                    cur: map<string, set<string>>, trace: seq<Visit>,
                    notice: (nat, nat) -> bool, deliver: (nat, nat) -> Delivery)
    returns (cur': map<string, set<string>>, trace': seq<Visit>)
    requires a < |bases| && k < |ids| && ids[k] != "" && bases[a] in cur
    requires Bookkeeping(seen, cur, trace)
    requires Orderly(trace, bases, ids, notice, deliver) && Precedes(trace, k, a)
    ensures Bookkeeping(seen, cur', trace')
    ensures Orderly(trace', bases, ids, notice, deliver) && Precedes(trace', k, a + 1)
    ensures KeepsCoverage(seen, trace, trace')
    ensures Covered(seen, trace', bases[a], ids[k], a, k)
  {
    var id, base := ids[k], bases[a];
    if id in cur[base] {
      if id !in seen[base] {
        MarkedEarlier(trace, base, id, a, k, bases, ids, notice, deliver);
      }
      return cur, trace;
    }
    var noticed := notice(a, k);
    var marked := false;
    if noticed {
      var outcome := deliver(a, k);
      if outcome != FailedBeforeMark {
        marked := true;
      }
    }
    var v := Visit(a, base, k, id, noticed, marked);
    Record(seen, cur, trace, v, bases, ids, notice, deliver);
    cur' := if marked then cur[base := cur[base] + {id}] else cur;
    trace' := trace + [v];
    CoverageAppend(seen, trace, v);
  }

  /** An id marked by some visit so far was marked before alert `a` reaches match `k`. */
  lemma MarkedEarlier(trace: seq<Visit>, base: string, id: string, a: nat, k: nat,
                      bases: seq<string>, ids: seq<string>, notice: (nat, nat) -> bool, deliver: (nat, nat) -> Delivery)
    requires Orderly(trace, bases, ids, notice, deliver) && Precedes(trace, k, a)
    requires id in MarkedIds(trace, base)
    ensures MarkedBefore(trace, base, id, a, k)
  {
    var v :| v in trace && v.marked && v.base == base && v.id == id;
    var i :| 0 <= i < |trace| && trace[i] == v;
    if i < |trace| - 1 {
      assert Before(trace[i], trace[|trace| - 1]);
    }
  }

  /** Appending a visit keeps every mark and every visit already made. */
  lemma CoverageAppend(seen: map<string, set<string>>, trace: seq<Visit>, v: Visit)
    ensures KeepsCoverage(seen, trace, trace + [v])
  {
    var t := trace + [v];
    forall base, id, a, k | Covered(seen, trace, base, id, a, k)
      ensures Covered(seen, t, base, id, a, k)
    {
      if MarkedBefore(trace, base, id, a, k) {
        var i :| 0 <= i < |trace| && trace[i].marked && trace[i].base == base && trace[i].id == id
          && (trace[i].pos < k || (trace[i].pos == k && trace[i].alert < a));
        assert t[i] == trace[i];
      } else if Visited(trace, a, k) {
        var i :| 0 <= i < |trace| && trace[i].alert == a && trace[i].pos == k;
        assert t[i] == trace[i];
      }
    }
  }

  /** Appending the visit of alert `v.alert` to match `v.pos`, whose id is not yet seen, keeps the bookkeeping. */
  lemma Record(seen: map<string, set<string>>, cur: map<string, set<string>>, trace: seq<Visit>, v: Visit,
               bases: seq<string>, ids: seq<string>, notice: (nat, nat) -> bool, deliver: (nat, nat) -> Delivery)
    requires Bookkeeping(seen, cur, trace) && Orderly(trace, bases, ids, notice, deliver)
    requires Faithful(v, bases, ids, notice, deliver) && Precedes(trace, v.pos, v.alert)
    requires v.base in cur && v.id !in cur[v.base]
    ensures Bookkeeping(seen, if v.marked then cur[v.base := cur[v.base] + {v.id}] else cur, trace + [v])
    ensures Orderly(trace + [v], bases, ids, notice, deliver) && Precedes(trace + [v], v.pos, v.alert + 1)
    ensures Visited(trace + [v], v.alert, v.pos)
  {
    RecordSeen(seen, cur, trace, v);
    RecordOrder(trace, v, bases, ids, notice, deliver);
  }

  lemma RecordSeen(seen: map<string, set<string>>, cur: map<string, set<string>>, trace: seq<Visit>, v: Visit)
    requires Bookkeeping(seen, cur, trace)
    requires v.base in cur && v.id !in cur[v.base]
    ensures Bookkeeping(seen, if v.marked then cur[v.base := cur[v.base] + {v.id}] else cur, trace + [v])
  {
    forall b ensures MarkedIds(trace + [v], b) == MarkedIds(trace, b) + (if v.marked && v.base == b then {v.id} else {}) {
      MarkedIdsAppend(trace, v, b);
    }
    NeverRecheckedAppend(seen, trace, v);
  }

  lemma MarkedIdsAppend(trace: seq<Visit>, v: Visit, base: string)
    ensures MarkedIds(trace + [v], base) == MarkedIds(trace, base) + (if v.marked && v.base == base then {v.id} else {})
  {
    assert forall w :: w in trace + [v] <==> w in trace || w == v;
  }

  lemma NeverRecheckedAppend(seen: map<string, set<string>>, trace: seq<Visit>, v: Visit)
    requires NeverRechecked(trace, seen)
    requires v.base in seen && v.id !in seen[v.base] + MarkedIds(trace, v.base)
    ensures NeverRechecked(trace + [v], seen)
  {
    var t := trace + [v];
    assert t[|trace|] == v;
    forall j | 0 <= j < |trace| && trace[j].marked && trace[j].base == v.base ensures trace[j].id != v.id {
      assert trace[j] in trace;
    }
  }

  lemma RecordOrder(trace: seq<Visit>, v: Visit,
                    bases: seq<string>, ids: seq<string>, notice: (nat, nat) -> bool, deliver: (nat, nat) -> Delivery)
    requires Orderly(trace, bases, ids, notice, deliver)
    requires Faithful(v, bases, ids, notice, deliver) && Precedes(trace, v.pos, v.alert)
    ensures Orderly(trace + [v], bases, ids, notice, deliver) && Precedes(trace + [v], v.pos, v.alert + 1)
    ensures Visited(trace + [v], v.alert, v.pos)
  {
    var t := trace + [v];
    assert t[|trace|] == v;
  }
}
