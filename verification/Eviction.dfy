/** The soft eviction that both tables of open-sse/services/oauthAntiBan.js use: keys in insertion
    order, and at most one idle key dropped, the oldest, when a new key makes the table too big. */
module Eviction {
  import opened Basics

  ghost predicate Distinct(order: seq<string>) {
    forall i, j :: 0 <= i < j < |order| ==> order[i] != order[j]
  }

  function Without(order: seq<string>, i: nat): seq<string>
    requires i < |order|
  {
    order[..i] + order[i + 1..]
  }

  /** Where the oldest idle key stands, at or after position i. */
  function FirstIdle(order: seq<string>, idle: set<string>, i: nat): (r: Option<nat>)
    requires i <= |order|
    ensures r.Some? ==> i <= r.value < |order| && order[r.value] in idle
    ensures r.Some? ==> forall j :: i <= j < r.value ==> order[j] !in idle
    ensures r.None? ==> forall j :: i <= j < |order| ==> order[j] !in idle
    decreases |order| - i
  {
    if i == |order| then None else if order[i] in idle then Some(i) else FirstIdle(order, idle, i + 1)
  }

  /** What the soft eviction leaves of the keys: one idle key goes, if there are too many. */
  function Evicted(order: seq<string>, idle: set<string>, limit: int): seq<string> {
    if limit <= 0 || |order| <= limit then order
    else
      match FirstIdle(order, idle, 0)
      case None => order
      case Some(i) => Without(order, i)
  }

  lemma WithoutDistinct(order: seq<string>, i: nat)
    requires Distinct(order) && i < |order|
    ensures Distinct(Without(order, i))
    ensures forall k :: k in Without(order, i) <==> k in order && k != order[i]
  {
    var rest := Without(order, i);
    forall k ensures k in rest <==> k in order && k != order[i] {
      if k in order && k != order[i] {
        var j :| 0 <= j < |order| && order[j] == k;
        assert rest[if j < i then j else j - 1] == k;
      }
    }
  }

  /** Eviction drops no key in use and keeps the table within its limit. A key that has just been
      added, and is idle still, survives exactly when there was room or an older key is idle. */
  lemma AddThenEvict(order: seq<string>, idle: set<string>, limit: int, key: string)
    requires Distinct(order) && key !in order && (limit > 0 ==> |order| <= limit)
    ensures var r := Evicted(order + [key], idle + {key}, limit);
            && Distinct(r)
            && (limit > 0 ==> |r| <= limit)
            && (forall k :: k in order && k !in idle && k != key ==> k in r)
            && (forall k :: k in r ==> k in order || k == key)
            && (key in r <==> limit <= 0 || |order| < limit || exists k :: k in order && k in idle)
            && (key !in r ==> r == order)
  {
    var o := order + [key];
    assert o[|order|] == key;
    assert forall k :: k in o <==> k in order || k == key;
    match FirstIdle(o, idle + {key}, 0)
    case None =>
    case Some(i) =>
      WithoutDistinct(o, i);
      if i < |order| {
        assert o[i] == order[i];
      } else {
        forall k | k in order ensures k !in idle {
          var j :| 0 <= j < |order| && order[j] == k;
          assert o[j] == k;
        }
      }
  }
}
