/** The per-build holder of OpenTelemetry attributes.

    It keeps a map of attributes and the set of span ids the attributes were
    already applied to. Both fields start out `null` and are created on first use.
    Attribute keys and values are kept abstract. */
module OpenTelemetryAttributesAction {
  import opened Wrappers

  /** The holder's two lazily created fields. */
  datatype AttributesAction<K, V> = AttributesAction(
    attributes: Option<map<K, V>>,
    appliedToSpans: Option<set<string>>)

  /** A freshly constructed holder: neither field exists yet. */
  function New<K, V>(): (r: AttributesAction<K, V>)
    ensures r.attributes.None? && r.appliedToSpans.None?
    ensures Applied(r) == {}
  {
    AttributesAction(None, None)
  }

  /** The span ids recorded so far; an absent set records nothing. */
  function Applied<K, V>(a: AttributesAction<K, V>): set<string> {
    match a.appliedToSpans
    case None => {}
    case Some(ids) => ids
  }

  /** Returns the attribute map, creating an empty one when none exists yet.
      The result is never absent, the holder keeps exactly the map it returned,
      and the recorded span ids are untouched. */
  function GetAttributes<K, V>(a: AttributesAction<K, V>): (r: (AttributesAction<K, V>, map<K, V>))
    ensures r.0.attributes == Some(r.1)
    ensures a.attributes.Some? ==> r.1 == a.attributes.value
    ensures a.attributes.None? ==> r.1 == map[]
    ensures r.0.appliedToSpans == a.appliedToSpans
  {
    match a.attributes
    case Some(m) => (a, m)
    case None => (a.(attributes := Some(map[])), map[])
  }

  /** `getAttributes().put(key, value)`: what a caller does to add an attribute
      through the map the holder hands out. */
  function PutAttribute<K, V>(a: AttributesAction<K, V>, key: K, value: V): (r: AttributesAction<K, V>)
    ensures r.attributes.Some?
    ensures key in r.attributes.value && r.attributes.value[key] == value
    ensures a.attributes.Some? ==> forall k :: k in a.attributes.value ==> k in r.attributes.value
    ensures forall k :: k in r.attributes.value && k != key ==>
      a.attributes.Some? && k in a.attributes.value && r.attributes.value[k] == a.attributes.value[k]
    ensures r.appliedToSpans == a.appliedToSpans
  {
    var (b, m) := GetAttributes(a);
    b.(attributes := Some(m[key := value]))
  }

  /** Records `spanId` and reports whether it was not recorded before. */
  function IsNotYetAppliedToSpan<K, V>(a: AttributesAction<K, V>, spanId: string): (r: (AttributesAction<K, V>, bool))
    ensures r.1 <==> spanId !in Applied(a)
    ensures r.0.appliedToSpans.Some?
    ensures spanId in Applied(r.0)
    ensures forall id :: id != spanId ==> (id in Applied(r.0) <==> id in Applied(a))
    ensures r.0.attributes == a.attributes
  {
    var ids := if a.appliedToSpans.Some? then a.appliedToSpans.value else {};
    (a.(appliedToSpans := Some(ids + {spanId})), spanId !in ids)
  }

  /** The recorded ids after the calls, and what each call returned. */
  function ApplyAll<K, V>(a: AttributesAction<K, V>, spanIds: seq<string>): (AttributesAction<K, V>, seq<bool>)
    decreases |spanIds|
  {
    if spanIds == [] then (a, [])
    else
      var (b, first) := IsNotYetAppliedToSpan(a, spanIds[0]);
      var (c, rest) := ApplyAll(b, spanIds[1..]);
      (c, [first] + rest)
  }

  /** On a fresh holder the first lookup hands out an empty map and the first
      call with any span id reports it as not yet applied. */
  lemma FreshHolder<K, V>(spanId: string)
    ensures GetAttributes(New<K, V>()).1 == map[]
    ensures GetAttributes(New<K, V>()).0.attributes == Some(map[])
    ensures IsNotYetAppliedToSpan(New<K, V>(), spanId).1
    ensures Applied(IsNotYetAppliedToSpan(New<K, V>(), spanId).0) == {spanId}
  {
  }

  /** An immediate second call with the same id reports false, and records
      nothing new. */
  lemma SecondCallReportsApplied<K, V>(a: AttributesAction<K, V>, spanId: string)
    ensures var (b, _) := IsNotYetAppliedToSpan(a, spanId);
      && !IsNotYetAppliedToSpan(b, spanId).1
      && Applied(IsNotYetAppliedToSpan(b, spanId).0) == Applied(b)
  {
  }

  /** The attribute map survives any interleaving of lookups and puts: once
      created, `GetAttributes` keeps returning the same map, and a put through it
      is seen by the next lookup. */
  lemma AttributesPersist<K, V>(a: AttributesAction<K, V>, key: K, value: V)
    ensures var (b, m) := GetAttributes(a);
      GetAttributes(b).1 == m
    ensures var b := PutAttribute(a, key, value);
      key in GetAttributes(b).1 && GetAttributes(b).1[key] == value
  {
  }

  /** Over a sequence of calls, a call reports true exactly for the first
      occurrence of an id that was not recorded beforehand; afterwards the recorded
      ids are the old ones plus every id seen, and the attributes are untouched. */
  lemma {:induction false} ApplyAllReportsFirstOccurrences<K, V>(a: AttributesAction<K, V>, spanIds: seq<string>)
    ensures |ApplyAll(a, spanIds).1| == |spanIds|
    ensures forall i :: 0 <= i < |spanIds| ==>
      (ApplyAll(a, spanIds).1[i] <==> spanIds[i] !in Applied(a) && spanIds[i] !in spanIds[..i])
    ensures Applied(ApplyAll(a, spanIds).0) == Applied(a) + set id | id in spanIds
    ensures ApplyAll(a, spanIds).0.attributes == a.attributes
    decreases |spanIds|
  {
    if spanIds != [] {
      var (b, first) := IsNotYetAppliedToSpan(a, spanIds[0]);
      var tail := spanIds[1..];
      ApplyAllReportsFirstOccurrences(b, tail);
      var (c, rest) := ApplyAll(b, tail);
      assert ApplyAll(a, spanIds) == (c, [first] + rest);
      forall i | 0 <= i < |spanIds|
        ensures ([first] + rest)[i] <==> spanIds[i] !in Applied(a) && spanIds[i] !in spanIds[..i]
      {
        if i > 0 {
          assert spanIds[i] == tail[i - 1];
          assert spanIds[..i] == [spanIds[0]] + tail[..i - 1];
        }
      }
      assert (set id | id in spanIds) == {spanIds[0]} + set id | id in tail by {
        assert spanIds == [spanIds[0]] + tail;
      }
    }
  }
}
