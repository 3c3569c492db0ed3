/** The request side of the WLO search client (src/lib/wloApi.ts): the search
    criteria and query parameters searchWLO sends, and the registry of debug
    listeners. The HTTP calls themselves are not part of this model. */
module WloApi {
  import opened JsValue

  // ------------------------------------------------------------ criteria

  /** One element of the `criteria` array in the request body. */
  datatype Criterion = Criterion(property: string, values: seq<string>)

  const TitleProperty: string := "cclom:title"
  const SearchWordProperty: string := "ngsearchword"

  /** `values[i]` is truthy: present and not the empty string. */
  predicate ValueAt(values: seq<string>, i: nat) {
    i < |values| && values[i] != ""
  }

  /** `propertyMapping[p] || p` */
  function MapProperty(p: string): (r: string)
    ensures p == "ccm:taxonid" ==> r == "virtual:taxonid"
    ensures p != "ccm:taxonid" ==> r == p
  {
    if p == "ccm:taxonid" then "virtual:taxonid"
    else if p == "ccm:oeh_lrt_aggregated" then "ccm:oeh_lrt_aggregated"
    else if p == "ccm:educationalcontext" then "ccm:educationalcontext"
    else p
  }

  /** The search-word criterion placed first (lines 36-41). */
  function TitleCriterion(properties: seq<string>, values: seq<string>): (r: seq<Criterion>)
    ensures |r| <= 1
    ensures |r| == 1 <==> TitleProperty in properties && ValueAt(values, 0)
    ensures |r| == 1 ==> r[0] == Criterion(SearchWordProperty, [values[0]])
  {
    if TitleProperty in properties && ValueAt(values, 0) then [Criterion(SearchWordProperty, [values[0]])] else []
  }

  /** Index i contributes a criterion of its own. */
  predicate Qualifies(properties: seq<string>, values: seq<string>, i: nat)
    requires i < |properties|
  {
    properties[i] != TitleProperty && ValueAt(values, i)
  }

  function CriterionAt(properties: seq<string>, values: seq<string>, i: nat): Criterion
    requires i < |properties| && i < |values|
  {
    Criterion(MapProperty(properties[i]), [values[i]])
  }

  /** The criteria the loop over the first n properties adds. */
  function RestCriteria(properties: seq<string>, values: seq<string>, n: nat): seq<Criterion>
    requires n <= |properties|
  {
    if n == 0 then []
    else RestCriteria(properties, values, n - 1)
         + (if Qualifies(properties, values, n - 1) then [CriterionAt(properties, values, n - 1)] else [])
  }

  /** The qualifying indices below n, in increasing order. */
  function QualifyingIndices(properties: seq<string>, values: seq<string>, n: nat): (r: seq<nat>)
    requires n <= |properties|
    ensures forall k :: 0 <= k < |r| ==> r[k] < n
  {
    if n == 0 then []
    else QualifyingIndices(properties, values, n - 1)
         + (if Qualifies(properties, values, n - 1) then [n - 1] else [])
  }

  /** The whole criteria array. */
  function Criteria(properties: seq<string>, values: seq<string>): seq<Criterion> {
    TitleCriterion(properties, values) + RestCriteria(properties, values, |properties|)
  }

  /** The two statements of searchWLO that fill `criteria`. */
  method BuildCriteria(properties: seq<string>, values: seq<string>) returns (criteria: seq<Criterion>)
    ensures criteria == Criteria(properties, values)
  {
    criteria := [];
    if TitleProperty in properties && ValueAt(values, 0) {
      criteria := criteria + [Criterion(SearchWordProperty, [values[0]])];
    }
    var i := 0;
    while i < |properties|
      invariant 0 <= i <= |properties|
      invariant criteria == TitleCriterion(properties, values) + RestCriteria(properties, values, i)
    {
      if properties[i] != TitleProperty && ValueAt(values, i) {
        criteria := criteria + [Criterion(MapProperty(properties[i]), [values[i]])];
      }
      i := i + 1;
    }
  }

  /** The qualifying indices are exactly the non-title indices with a truthy
      value, each once and in increasing order, and index k of them yields
      criterion k of the loop. */
  lemma {:induction false} RestCriteriaByIndex(properties: seq<string>, values: seq<string>, n: nat)
    requires n <= |properties|
    ensures var ix := QualifyingIndices(properties, values, n);
      && (forall i :: 0 <= i < n ==> (i in ix <==> Qualifies(properties, values, i)))
      && (forall a, b :: 0 <= a < b < |ix| ==> ix[a] < ix[b])
      && |RestCriteria(properties, values, n)| == |ix|
      && (forall k :: 0 <= k < |ix| ==>
            ix[k] < |values| && RestCriteria(properties, values, n)[k] == CriterionAt(properties, values, ix[k]))
  {
    if n > 0 {
      RestCriteriaByIndex(properties, values, n - 1);
    }
  }

  /** The search-word criterion comes first, carries `values[0]`, and the
      title's own index contributes nothing else, whatever its position. */
  lemma TitleComesFirst(properties: seq<string>, values: seq<string>, i: nat)
    requires i < |properties| && properties[i] == TitleProperty && ValueAt(values, 0)
    ensures Criteria(properties, values)[0] == Criterion(SearchWordProperty, [values[0]])
    ensures i !in QualifyingIndices(properties, values, |properties|)
  {
    assert TitleProperty in properties;
    RestCriteriaByIndex(properties, values, |properties|);
  }

  // ------------------------------------------------------- query parameters

  /** The URL query of the search request; a parameter left undefined takes
      its default (maxItems 5, skipCount 0, propertyFilter "-all-"). */
  function SearchQuery(maxItems: Option<real>, skipCount: Option<real>, propertyFilter: Option<string>): (r: seq<(string, string)>)
    ensures |r| == 4 && r[0] == ("contentType", "FILES")
    ensures r[1].0 == "maxItems" && r[2].0 == "skipCount" && r[3].0 == "propertyFilter"
    ensures propertyFilter.Some? ==> r[3].1 == propertyFilter.value
    ensures maxItems.Some? ==> r[1].1 == NumberText(maxItems.value)
    ensures skipCount.Some? ==> r[2].1 == NumberText(skipCount.value)
  {
    [("contentType", "FILES"),
     ("maxItems", NumberText(if maxItems.Some? then maxItems.value else 5.0)),
     ("skipCount", NumberText(if skipCount.Some? then skipCount.value else 0.0)),
     ("propertyFilter", if propertyFilter.Some? then propertyFilter.value else "-all-")]
  }

  lemma SearchQueryDefaults()
    ensures SearchQuery(None, None, None)
      == [("contentType", "FILES"), ("maxItems", "5"), ("skipCount", "0"), ("propertyFilter", "-all-")]
  {
    assert IntText(5) == "5";
    assert IntText(0) == "0";
  }

  // ---------------------------------------------------------- debug listeners

  /** A listener is known by its identity; registering the same function
      twice registers it twice. */
  type Listener = nat

  /** The array without the first occurrence of x (`indexOf` + `splice`). */
  function RemoveFirst(s: seq<Listener>, x: Listener): seq<Listener> {
    if |s| == 0 then []
    else if s[0] == x then s[1..]
    else [s[0]] + RemoveFirst(s[1..], x)
  }

  /** Removing takes out exactly one occurrence of x, or nothing when there is none. */
  lemma {:induction false} RemoveFirstFacts(s: seq<Listener>, x: Listener)
    ensures x !in s ==> RemoveFirst(s, x) == s
    ensures x in s ==> multiset(RemoveFirst(s, x)) == multiset(s) - multiset{x}
    ensures x in s ==> |RemoveFirst(s, x)| == |s| - 1
  {
    if |s| > 0 {
      RemoveFirstFacts(s[1..], x);
      assert s == [s[0]] + s[1..];
      if s[0] != x && x in s {
        assert x in s[1..];
      }
    }
  }

  /** RemoveFirst agrees with splicing at the first index of x. */
  lemma {:induction false} RemoveFirstAt(s: seq<Listener>, x: Listener, i: nat)
    requires i < |s| && s[i] == x && x !in s[..i]
    ensures RemoveFirst(s, x) == s[..i] + s[i + 1..]
  {
    if i > 0 {
      assert s[0] in s[..i];
      assert s[1..][..i - 1] == s[1..i];
      assert s[1..i] == s[..i][1..];
      RemoveFirstAt(s[1..], x, i - 1);
      assert s[..i] == [s[0]] + s[1..][..i - 1];
      assert s[1..][i..] == s[i + 1..];
    }
  }

  /** Subscribing and then unsubscribing a new listener restores the registry. */
  lemma {:induction false} SubscribeUnsubscribe(s: seq<Listener>, x: Listener)
    requires x !in s
    ensures RemoveFirst(s + [x], x) == s
  {
    if |s| > 0 {
      assert (s + [x])[1..] == s[1..] + [x];
      assert x !in s[1..];
      SubscribeUnsubscribe(s[1..], x);
      assert s == [s[0]] + s[1..];
    }
  }

  /** The module-level `debugListeners` array. */
  class DebugListeners {
    var listeners: seq<Listener>

    constructor()
      ensures listeners == []
    {
      listeners := [];
    }

    /** onDebugInfo */
    method OnDebugInfo(l: Listener)
      modifies this
      ensures listeners == old(listeners) + [l]
    {
      listeners := listeners + [l];
    }

    /** The function onDebugInfo returns. */
    method Unsubscribe(l: Listener)
      modifies this
      ensures listeners == RemoveFirst(old(listeners), l)
    {
      var index := 0;
      while index < |listeners| && listeners[index] != l
        invariant 0 <= index <= |listeners|
        invariant l !in listeners[..index]
      {
        assert listeners[..index + 1] == listeners[..index] + [listeners[index]];
        index := index + 1;
      }
      if index < |listeners| {
        RemoveFirstAt(listeners, l, index);
        listeners := listeners[..index] + listeners[index + 1..];
      } else {
        assert listeners[..index] == listeners;
        RemoveFirstFacts(listeners, l);
      }
    }

    /** emitDebugInfo: the calls made, each listener once per registration,
        in registration order. */
    method Emit(info: string) returns (calls: seq<(Listener, string)>)
      ensures |calls| == |listeners|
      ensures forall i :: 0 <= i < |calls| ==> calls[i] == (listeners[i], info)
    {
      calls := [];
      var i := 0;
      while i < |listeners|
        invariant 0 <= i <= |listeners|
        invariant |calls| == i
        invariant forall k :: 0 <= k < i ==> calls[k] == (listeners[k], info)
      {
        calls := calls + [(listeners[i], info)];
        i := i + 1;
      }
    }
  }
}
