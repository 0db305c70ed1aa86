/**
 * Splitting the temperature-lab model parameters into the ones a regression
 * optimises and the ones it keeps fixed.
 *
 * The name -> value dictionary is an ordered sequence of (name, value) pairs
 * with distinct names, in the dictionary's iteration (insertion) order.
 */
module Parameters {

  /** Names of a dictionary's entries, in iteration order. */
  function Names<V>(entries: seq<(string, V)>): (names: seq<string>)
    ensures |names| == |entries|
    ensures forall i :: 0 <= i < |entries| ==> names[i] == entries[i].0
  {
    seq(|entries|, i requires 0 <= i < |entries| => entries[i].0)
  }

  /** A dictionary never holds one name twice. */
  predicate DistinctNames<V>(entries: seq<(string, V)>) {
    forall i, j :: 0 <= i < j < |entries| ==> entries[i].0 != entries[j].0
  }

  /** The two outputs: the list of values to optimise and the dictionary of fixed ones. */
  datatype Separated<V> = Separated(optParams: seq<V>, defaults: seq<(string, V)>)

  /**
   * Every entry whose name is listed in `optNames` contributes its value to
   * `optParams`; every other entry goes, unchanged, to `defaults`.
   */
  function Separate<V>(entries: seq<(string, V)>, optNames: seq<string>): (r: Separated<V>)
    requires DistinctNames(entries)
    ensures |r.optParams| + |r.defaults| == |entries|
    ensures DistinctNames(r.defaults)
    ensures forall i :: 0 <= i < |r.defaults| ==> r.defaults[i] in entries && r.defaults[i].0 !in optNames
    ensures forall i :: 0 <= i < |entries| && entries[i].0 !in optNames ==> entries[i] in r.defaults
  {
    if |entries| == 0 then Separated([], [])
    else
      var rest := Separate(entries[1..], optNames);
      if entries[0].0 in optNames then Separated([entries[0].1] + rest.optParams, rest.defaults)
      else Separated(rest.optParams, [entries[0]] + rest.defaults)
  }

  /**
   * The inverse: walking the original name order, take the next optimised value
   * for a listed name and the next fixed entry otherwise.
   */
  function Merge<V>(names: seq<string>, optNames: seq<string>, s: Separated<V>): seq<(string, V)>
  {
    if |names| == 0 then []
    else if names[0] in optNames then
      if |s.optParams| == 0 then []
      else [(names[0], s.optParams[0])] + Merge(names[1..], optNames, Separated(s.optParams[1..], s.defaults))
    else
      if |s.defaults| == 0 then []
      else [s.defaults[0]] + Merge(names[1..], optNames, Separated(s.optParams, s.defaults[1..]))
  }

  /** The names of a non-empty dictionary: its first name, then the names of the rest. */
  lemma NamesTail<V>(entries: seq<(string, V)>)
    requires 0 < |entries|
    ensures Names(entries) == [entries[0].0] + Names(entries[1..])
  {
  }

  /** A listed first entry is rebuilt from the head of `optParams`. */
  lemma MergeListedHead<V>(entries: seq<(string, V)>, optNames: seq<string>)
    requires DistinctNames(entries) && 0 < |entries| && entries[0].0 in optNames
    ensures Merge(Names(entries), optNames, Separate(entries, optNames))
         == [entries[0]] + Merge(Names(entries[1..]), optNames, Separate(entries[1..], optNames))
  {
    NamesTail(entries);
    var s := Separate(entries, optNames);
    assert Separated(s.optParams[1..], s.defaults) == Separate(entries[1..], optNames);
  }

  /** An unlisted first entry is rebuilt from the head of `defaults`. */
  lemma MergeFixedHead<V>(entries: seq<(string, V)>, optNames: seq<string>)
    requires DistinctNames(entries) && 0 < |entries| && entries[0].0 !in optNames
    ensures Merge(Names(entries), optNames, Separate(entries, optNames))
         == [entries[0]] + Merge(Names(entries[1..]), optNames, Separate(entries[1..], optNames))
  {
    NamesTail(entries);
    var s := Separate(entries, optNames);
    assert Separated(s.optParams, s.defaults[1..]) == Separate(entries[1..], optNames);
  }

  /** Nothing is lost or reordered: merging the two outputs back along the names rebuilds the dictionary. */
  lemma {:induction false} SeparateRoundTrip<V>(entries: seq<(string, V)>, optNames: seq<string>)
    requires DistinctNames(entries)
    ensures Merge(Names(entries), optNames, Separate(entries, optNames)) == entries
  {
    if |entries| > 0 {
      SeparateRoundTrip(entries[1..], optNames);
      if entries[0].0 in optNames {
        MergeListedHead(entries, optNames);
      } else {
        MergeFixedHead(entries, optNames);
      }
      assert entries == [entries[0]] + entries[1..];
    }
  }

  /** Each optimised value is, in order, the value of a listed entry: `optParams[i]` comes from an entry at index `j >= i`. */
  lemma {:induction false} OptParamsFromListedEntries<V>(entries: seq<(string, V)>, optNames: seq<string>, i: nat)
    requires DistinctNames(entries)
    requires i < |Separate(entries, optNames).optParams|
    ensures exists j :: i <= j < |entries| && entries[j].0 in optNames
                     && entries[j].1 == Separate(entries, optNames).optParams[i]
  {
    var rest := Separate(entries[1..], optNames);
    if entries[0].0 in optNames && i == 0 {
      assert entries[0].1 == Separate(entries, optNames).optParams[0];
    } else {
      var i' := if entries[0].0 in optNames then i - 1 else i;
      assert Separate(entries, optNames).optParams[i] == rest.optParams[i'];
      OptParamsFromListedEntries(entries[1..], optNames, i');
      var j :| i' <= j < |entries[1..]| && entries[1..][j].0 in optNames && entries[1..][j].1 == rest.optParams[i'];
      assert entries[j + 1] == entries[1..][j];
    }
  }

  /** The result depends only on which of the dictionary's names are listed. */
  lemma {:induction false} SeparateDependsOnMembership<V>(entries: seq<(string, V)>, optNames1: seq<string>, optNames2: seq<string>)
    requires DistinctNames(entries)
    requires forall n :: n in Names(entries) ==> (n in optNames1 <==> n in optNames2)
    ensures Separate(entries, optNames1) == Separate(entries, optNames2)
  {
    if |entries| > 0 {
      assert entries[0].0 == Names(entries)[0];
      forall n | n in Names(entries[1..])
        ensures n in optNames1 <==> n in optNames2
      {
        var i :| 0 <= i < |entries[1..]| && Names(entries[1..])[i] == n;
        assert Names(entries)[i + 1] == n;
      }
      SeparateDependsOnMembership(entries[1..], optNames1, optNames2);
    }
  }

  /** The order of the optimisation list does not matter. */
  lemma SeparateIgnoresListOrder<V>(entries: seq<(string, V)>, optNames1: seq<string>, optNames2: seq<string>)
    requires DistinctNames(entries)
    requires multiset(optNames1) == multiset(optNames2)
    ensures Separate(entries, optNames1) == Separate(entries, optNames2)
  {
    forall n | n in Names(entries)
      ensures n in optNames1 <==> n in optNames2
    {
      assert n in optNames1 <==> n in multiset(optNames1);
      assert n in optNames2 <==> n in multiset(optNames2);
    }
    SeparateDependsOnMembership(entries, optNames1, optNames2);
  }

  /** Listed names the dictionary does not hold contribute nothing. */
  lemma SeparateIgnoresAbsentNames<V>(entries: seq<(string, V)>, optNames: seq<string>, absent: seq<string>)
    requires DistinctNames(entries)
    requires forall n :: n in absent ==> n !in Names(entries)
    ensures Separate(entries, optNames + absent) == Separate(entries, optNames)
  {
    SeparateDependsOnMembership(entries, optNames + absent, optNames);
  }

  /** A dictionary's name -> value map. */
  function ToMap<V>(entries: seq<(string, V)>): (m: map<string, V>)
    ensures m.Keys == set i | 0 <= i < |entries| :: entries[i].0
  {
    if |entries| == 0 then map[]
    else ToMap(entries[1..])[entries[0].0 := entries[0].1]
  }

  /** As a map, `defaults` is the input map with every listed name removed. */
  lemma {:induction false} DefaultsAsMap<V>(entries: seq<(string, V)>, optNames: seq<string>)
    requires DistinctNames(entries)
    ensures ToMap(Separate(entries, optNames).defaults) == ToMap(entries) - (set n | n in optNames)
  {
    if |entries| > 0 {
      DefaultsAsMap(entries[1..], optNames);
    }
  }
}
