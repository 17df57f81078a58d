/**
 * The Over/Under alert rule: a chain of guards over one enriched match
 * that fires when the latest over/under line is strictly above the
 * configured threshold during live play.
 */
module OverUnder {
  import opened Wrappers
  import opened Json

  const Name: string := "OU3"
  const DefaultThreshold: real := 3.0
  /** First half, halftime, second half. */
  const ValidStatusIds: set<int> := {2, 3, 4}

  /** The alert payload; `timestamp` is None where the entry has none or holds null, as Python's `get` gives None for both. */
  datatype Payload = Payload(kind: string, line: real, value: real, threshold: real, timestamp: Option<Value>)

  /** What `check` does: no alert, an alert, or an exception escaping it. */
  datatype Verdict = Quiet | Fire(payload: Payload) | Raises

  /** A timestamp as `max` compares it: numbers with numbers, text with text, nothing else. */
  datatype Key = Number(x: real) | Text(t: string) | Unordered

  function KeyOf(v: Value): Key {
    match v
    case Int(i) => Number(i as real)
    case Num(r) => Number(r)
    case Bool(b) => Number(if b then 1.0 else 0.0)
    case Str(s) => Text(s)
    case _ => Unordered
  }

  /** `e.get("timestamp")`: None for an absent key and for a null value alike. */
  function PayloadTimestamp(e: Object): (t: Option<Value>)
    ensures t.None? <==> Get(e, "timestamp").None? || Get(e, "timestamp") == Some(Null)
    ensures t.Some? ==> Get(e, "timestamp") == t
  {
    match Get(e, "timestamp")
    case Some(Null) => None
    case other => other
  }

  /** `e.get("timestamp", 0)` as a comparison key. */
  function TimestampKey(e: Object): Key {
    KeyOf(GetOr(e, "timestamp", Int(0)))
  }

  /** Code-point lexicographic order on strings. */
  predicate TextBelow(a: string, b: string)
    decreases |a|
  {
    if |a| == 0 then |b| > 0
    else if |b| == 0 then false
    else if a[0] != b[0] then a[0] < b[0]
    else TextBelow(a[1..], b[1..])
  }

  predicate Comparable(a: Key, b: Key) {
    (a.Number? && b.Number?) || (a.Text? && b.Text?)
  }

  /** `a > b` for two comparable keys. */
  predicate Above(a: Key, b: Key)
    requires Comparable(a, b)
  {
    if a.Number? then a.x > b.x else TextBelow(b.t, a.t)
  }

  /** The outcome of `max(values, key=...)`. */
  datatype Pick = Picked(entry: Object) | NotAnObject | NotComparable

  /**
   * The scan `max` performs from the current best entry over the rest:
   * a later entry replaces the best only when its key is strictly above.
   */
  function LatestFrom(best: Object, rest: seq<Value>): (p: Pick)
    ensures p.Picked? ==> p.entry == best || Obj(p.entry) in rest
    decreases |rest|
  {
    if |rest| == 0 then Picked(best)
    else match rest[0]
      case Obj(next) =>
        if !Comparable(TimestampKey(next), TimestampKey(best)) then NotComparable
        else if Above(TimestampKey(next), TimestampKey(best)) then LatestFrom(next, rest[1..])
        else LatestFrom(best, rest[1..])
      case _ => NotAnObject
  }

  function Latest(entries: seq<Value>): (p: Pick)
    requires |entries| > 0
    ensures p.Picked? ==> Obj(p.entry) in entries
  {
    match entries[0]
    case Obj(first) => LatestFrom(first, entries[1..])
    case _ => NotAnObject
  }

  /** Where the latest over/under entry comes from. */
  datatype Lookup = Found(entry: Object) | Missing | Broken

  /**
   * `odds.over_under` and the latest entry in it. A missing, non-object or
   * empty map, or an entry that is not an object, is Missing (the rule
   * returns None); `odds` that is not an object, or timestamps `max` cannot
   * compare, raise out of the rule and are Broken.
   */
  function LatestEntry(m: Object): (l: Lookup)
    ensures GetOr(m, "odds", Obj([])).Obj? && !GetOr(GetOr(m, "odds", Obj([])).fields, "over_under", Obj([])).Obj? ==> l == Missing
    ensures !GetOr(m, "odds", Obj([])).Obj? ==> l == Broken
    ensures GetOr(m, "odds", Obj([])).Obj? && GetOr(GetOr(m, "odds", Obj([])).fields, "over_under", Obj([])) == Obj([]) ==> l == Missing
    ensures l.Found? ==>
      && GetOr(m, "odds", Obj([])).Obj?
      && var ou := GetOr(GetOr(m, "odds", Obj([])).fields, "over_under", Obj([]));
      && ou.Obj? && |ou.fields| > 0
      && Obj(l.entry) in Values(ou.fields)
  {
    match GetOr(m, "odds", Obj([]))
    case Obj(odds) =>
      (match GetOr(odds, "over_under", Obj([]))
       case Obj(ou) =>
         if |ou| == 0 then Missing
         else (match Latest(Values(ou))
           case Picked(e) => Found(e)
           case NotAnObject => Missing
           case NotComparable => Broken)
       case _ => Missing)
    case _ => Broken
  }

  /** `int(match.get("status_id", 0))`, None where it raises. */
  function StatusOf(m: Object, parseInt: string -> Option<int>): Option<int> {
    IntOf(GetOr(m, "status_id", Int(0)), parseInt)
  }

  /** `float(entry.get(key, 0))`, None where it raises. */
  function NumberField(e: Object, key: string, parseReal: string -> Option<real>): Option<real> {
    FloatOf(GetOr(e, key, Int(0)), parseReal)
  }

  predicate Live(m: Object, parseInt: string -> Option<int>) {
    StatusOf(m, parseInt).Some? && StatusOf(m, parseInt).value in ValidStatusIds
  }

  /** `OverUnderAlert.check`. */
  function Check(threshold: real, m: Object, parseInt: string -> Option<int>, parseReal: string -> Option<real>): (v: Verdict)
    ensures !Live(m, parseInt) ==> v == Quiet
    ensures LatestEntry(m).Missing? ==> v == Quiet
    ensures v.Raises? <==> Live(m, parseInt) && LatestEntry(m).Broken?
    ensures v.Fire? ==>
      && Live(m, parseInt)
      && LatestEntry(m).Found?
      && var e := LatestEntry(m).entry;
      && NumberField(e, "line", parseReal) == Some(v.payload.line)
      && v.payload.line > threshold
      && v.payload == Payload(Name, v.payload.line, NumberField(e, "over", parseReal).GetOr(0.0), threshold, PayloadTimestamp(e))
    ensures Live(m, parseInt) && LatestEntry(m).Found? ==>
      var line := NumberField(LatestEntry(m).entry, "line", parseReal);
      (v.Fire? <==> line.Some? && line.value > threshold)
  {
    match StatusOf(m, parseInt)
    case None => Quiet
    case Some(status) =>
      if status !in ValidStatusIds then Quiet
      else match LatestEntry(m)
        case Missing => Quiet
        case Broken => Raises
        case Found(e) =>
          match NumberField(e, "line", parseReal)
          case None => Quiet
          case Some(line) =>
            if line <= threshold then Quiet
            else Fire(Payload(Name, line, NumberField(e, "over", parseReal).GetOr(0.0), threshold, PayloadTimestamp(e)))
  }

  /** `safe_check`: an exception out of `check` becomes no alert. */
  function SafeCheck(threshold: real, m: Object, parseInt: string -> Option<int>, parseReal: string -> Option<real>): (r: Option<Payload>)
    ensures r.Some? <==> Check(threshold, m, parseInt, parseReal).Fire?
    ensures r.Some? ==> r.value.line > threshold && r.value.threshold == threshold
    ensures r.Some? ==> r.value == Check(threshold, m, parseInt, parseReal).payload
  {
    match Check(threshold, m, parseInt, parseReal)
    case Fire(p) => Some(p)
    case _ => None
  }

  /** A line exactly at the threshold does not fire. */
  lemma AtThresholdIsQuiet(threshold: real, m: Object, parseInt: string -> Option<int>, parseReal: string -> Option<real>)
    requires LatestEntry(m).Found?
    requires NumberField(LatestEntry(m).entry, "line", parseReal) == Some(threshold)
    ensures Check(threshold, m, parseInt, parseReal) == Quiet
  {
  }

  /** Lowering the threshold keeps an alert firing, with the same line and entry. */
  lemma LowerThresholdStillFires(t: real, t': real, m: Object, parseInt: string -> Option<int>, parseReal: string -> Option<real>)
    requires t' <= t
    requires Check(t, m, parseInt, parseReal).Fire?
    ensures Check(t', m, parseInt, parseReal).Fire?
    ensures Check(t', m, parseInt, parseReal).payload == Check(t, m, parseInt, parseReal).payload.(threshold := t')
  {
  }

  /** A line above the default threshold of 3.0 is what the rule built with no argument fires on. */
  lemma DefaultThresholdFires(m: Object, parseInt: string -> Option<int>, parseReal: string -> Option<real>)
    ensures Check(DefaultThreshold, m, parseInt, parseReal).Fire? ==>
      Check(DefaultThreshold, m, parseInt, parseReal).payload.line > 3.0
      && Check(DefaultThreshold, m, parseInt, parseReal).payload.threshold == 3.0
  {
  }

  /** `TextBelow` never holds both ways round, so no string is below itself. */
  lemma {:induction false} TextBelowAsymmetric(a: string, b: string)
    ensures TextBelow(a, b) ==> !TextBelow(b, a)
    decreases |a|
  {
    if |a| > 0 && |b| > 0 && a[0] == b[0] {
      TextBelowAsymmetric(a[1..], b[1..]);
    }
  }

  lemma {:induction false} TextBelowTransitive(a: string, b: string, c: string)
    requires TextBelow(a, b) && TextBelow(b, c)
    ensures TextBelow(a, c)
    decreases |a|
  {
    if |a| > 0 && a[0] == b[0] && b[0] == c[0] {
      TextBelowTransitive(a[1..], b[1..], c[1..]);
    }
  }

  /** Any two different strings are ordered one way or the other. */
  lemma {:induction false} TextBelowTotal(a: string, b: string)
    ensures a == b || TextBelow(a, b) || TextBelow(b, a)
    decreases |a|
  {
    if |a| > 0 && |b| > 0 && a[0] == b[0] {
      TextBelowTotal(a[1..], b[1..]);
      assert a == [a[0]] + a[1..] && b == [b[0]] + b[1..];
    }
  }

  /** `Above` is asymmetric on comparable keys, and so irreflexive. */
  lemma KeysAsymmetric(a: Key, b: Key)
    requires Comparable(a, b)
    ensures Above(a, b) ==> !Above(b, a)
  {
    if a.Text? {
      TextBelowAsymmetric(b.t, a.t);
    }
  }

  /** A key at most `y` is below every key above `y`. */
  lemma KeysOrdered(x: Key, y: Key, z: Key)
    requires Comparable(x, y) && Comparable(z, y)
    requires !Above(x, y) && Above(z, y)
    ensures Comparable(z, x) && Above(z, x)
  {
    if x.Text? {
      TextBelowTotal(x.t, y.t);
      if x.t != y.t {
        TextBelowTransitive(x.t, y.t, z.t);
      }
    }
  }

  /** The keys `max` compares, in order; a non-object has none. */
  function Keys(entries: seq<Value>): (ks: seq<Key>)
    ensures |ks| == |entries|
  {
    seq(|entries|, j requires 0 <= j < |entries| =>
      if entries[j].Obj? then TimestampKey(entries[j].fields) else Unordered)
  }

  /** All keys are of the kind of the first: all numbers or all text. */
  predicate OneKind(ks: seq<Key>) {
    forall j :: 0 <= j < |ks| ==> Comparable(ks[j], ks[0])
  }

  /** Every entry is an object, and `max` can compare any two of their timestamps. */
  predicate Uniform(entries: seq<Value>) {
    (forall j :: 0 <= j < |entries| ==> entries[j].Obj?) && OneKind(Keys(entries))
  }

  /** Position `i` holds a largest key, and every earlier position a strictly smaller one. */
  predicate FirstMaximal(ks: seq<Key>, i: int) {
    && 0 <= i < |ks|
    && (forall j :: 0 <= j < |ks| ==> Comparable(ks[j], ks[i]) && !Above(ks[j], ks[i]))
    && (forall j :: 0 <= j < i ==> Comparable(ks[i], ks[j]) && Above(ks[i], ks[j]))
  }

  /** The scan of `max` on the keys alone: the index it ends on. */
  function ScanIndex(ks: seq<Key>, b: nat, n: nat): (i: nat)
    requires OneKind(ks) && b < n <= |ks|
    ensures i < |ks|
    decreases |ks| - n
  {
    if n == |ks| then b
    else if Above(ks[n], ks[b]) then ScanIndex(ks, n, n + 1)
    else ScanIndex(ks, b, n + 1)
  }

  lemma {:induction false} ScanIndexFirstMaximal(ks: seq<Key>, b: nat, n: nat)
    requires OneKind(ks) && b < n <= |ks|
    requires forall j :: 0 <= j < n ==> Comparable(ks[j], ks[b]) && !Above(ks[j], ks[b])
    requires forall j :: 0 <= j < b ==> Comparable(ks[b], ks[j]) && Above(ks[b], ks[j])
    ensures FirstMaximal(ks, ScanIndex(ks, b, n))
    decreases |ks| - n
  {
    if n < |ks| {
      if Above(ks[n], ks[b]) {
        forall j | 0 <= j < n
          ensures Comparable(ks[n], ks[j]) && Above(ks[n], ks[j])
        {
          KeysOrdered(ks[j], ks[b], ks[n]);
        }
        forall j | 0 <= j < n + 1
          ensures Comparable(ks[j], ks[n]) && !Above(ks[j], ks[n])
        {
          KeysAsymmetric(ks[n], ks[j]);
        }
        ScanIndexFirstMaximal(ks, n, n + 1);
      } else {
        ScanIndexFirstMaximal(ks, b, n + 1);
      }
    }
  }

  lemma KeyOfEntry(all: seq<Value>, k: nat)
    requires Uniform(all) && k < |all|
    ensures all[k].Obj? && TimestampKey(all[k].fields) == Keys(all)[k]
  {
  }

  /** One step of the scan between two comparable timestamps. */
  lemma ScanStep(best: Object, next: Object, rest: seq<Value>)
    requires |rest| > 0 && rest[0] == Obj(next)
    requires Comparable(TimestampKey(next), TimestampKey(best))
    ensures LatestFrom(best, rest) ==
      if Above(TimestampKey(next), TimestampKey(best)) then LatestFrom(next, rest[1..]) else LatestFrom(best, rest[1..])
  {
  }

  /** The same step, at positions `b` (the best so far) and `n` of the entries. */
  lemma ScanStepAt(all: seq<Value>, b: nat, n: nat)
    requires Uniform(all) && b < n < |all|
    ensures LatestFrom(all[b].fields, all[n..]) ==
      if Above(Keys(all)[n], Keys(all)[b]) then LatestFrom(all[n].fields, all[n + 1..]) else LatestFrom(all[b].fields, all[n + 1..])
  {
    KeyOfEntry(all, b);
    KeyOfEntry(all, n);
    assert all[n..][1..] == all[n + 1..];
    ScanStep(all[b].fields, all[n].fields, all[n..]);
  }

  lemma {:induction false} LatestFromScan(all: seq<Value>, b: nat, n: nat)
    requires Uniform(all) && b < n <= |all|
    ensures LatestFrom(all[b].fields, all[n..]) == Picked(all[ScanIndex(Keys(all), b, n)].fields)
    decreases |all| - n
  {
    var ks := Keys(all);
    if n < |all| {
      ScanStepAt(all, b, n);
      var b' := if Above(ks[n], ks[b]) then n else b;
      assert LatestFrom(all[b].fields, all[n..]) == LatestFrom(all[b'].fields, all[n + 1..]);
      assert ScanIndex(ks, b, n) == ScanIndex(ks, b', n + 1);
      LatestFromScan(all, b', n + 1);
    } else {
      assert all[n..] == [];
    }
  }

  /**
   * When `max` can compare the timestamps (all numbers, a missing one
   * counting as 0, or all text), the entry it picks is the first one
   * carrying the largest timestamp.
   */
  lemma LatestIsFirstMaximal(entries: seq<Value>)
    requires |entries| > 0 && Uniform(entries)
    ensures Latest(entries).Picked?
    ensures exists i :: FirstMaximal(Keys(entries), i) && entries[i] == Obj(Latest(entries).entry)
  {
    var ks := Keys(entries);
    KeysAsymmetric(ks[0], ks[0]);
    LatestFromScan(entries, 0, 1);
    ScanIndexFirstMaximal(ks, 0, 1);
  }
}
