/**
 * Predefined map scales: `global_scales` and `project_scales` of
 * atlasprint/core.py (filters/core.py carries the same two functions).
 * A scale list is written `"1:1000000,1:500000,..."`: entries are split on
 * `,`, each entry on `:`, entries without exactly two parts are skipped and
 * the part after `:` is read as a number.
 */
module Scales {
  import opened Wrappers
  import opened Text

  /** The entries of the scale list QGIS ships with. */
  const DefaultEntries: seq<string> :=
    ["1:1000000", "1:500000", "1:250000", "1:100000", "1:50000", "1:25000",
     "1:10000", "1:5000", "1:2500", "1:1000", "1:500"]

  /**
   * The default of the `Map/scales` setting, used when it is unset:
   * `"1:1000000,1:500000,...,1:500"`.
   */
  const DefaultScales: string := Join(DefaultEntries, ",")

  /**
   * The scales read from a list of entries, in order, or None when the
   * number after a `:` does not parse (where Python's `float()` raises).
   */
  function ScaleValues(entries: seq<string>): Option<seq<int>>
    decreases |entries|
  {
    if |entries| == 0 then Some([])
    else
      match ScaleValues(entries[..|entries| - 1])
      case None => None
      case Some(xs) =>
        var item := Split(entries[|entries| - 1], ":");
        if |item| != 2 then Some(xs)
        else
          match ParseInt(item[1])
          case None => None
          case Some(v) => Some(xs + [v])
  }

  /** The loop shared by both readers: append the value of every two-part entry. */
  method ParseScaleEntries(entries: seq<string>) returns (r: Option<seq<int>>)
    ensures r == ScaleValues(entries)
  {
    var scales: seq<int> := [];
    for i := 0 to |entries|
      invariant ScaleValues(entries[..i]) == Some(scales)
    {
      assert entries[..i + 1][..i] == entries[..i];
      var item := Split(entries[i], ":");
      if |item| != 2 {
        continue;
      }
      var value := ParseInt(item[1]);
      if value.None? {
        assert ScaleValues(entries[..i + 1]) == None;
        assert entries[..i + 1] + entries[i + 1..] == entries;
        ScaleValuesNonePersists(entries[..i + 1], entries[i + 1..]);
        return None;
      }
      scales := scales + [value.value];
    }
    assert entries[..|entries|] == entries;
    return Some(scales);
  }

  /** `global_scales`: the `Map/scales` setting, or the QGIS default when it is unset. */
  method GlobalScales(setting: Option<string>) returns (r: Option<seq<int>>)
    ensures r == ScaleValues(Split(setting.GetOr(DefaultScales), ","))
    ensures setting.None? ==> r == Some(DefaultList)
  {
    if setting.None? {
      DefaultScalesValues();
    }
    var data := Split(setting.GetOr(DefaultScales), ",");
    r := ParseScaleEntries(data);
  }

  /** `project_scales`: nothing when the project does not use its own scales. */
  method ProjectScales(useProjectScales: bool, scalesList: seq<string>) returns (r: Option<seq<int>>)
    ensures !useProjectScales ==> r == Some([])
    ensures useProjectScales ==> r == ScaleValues(scalesList)
  {
    if !useProjectScales {
      return Some([]);
    }
    r := ParseScaleEntries(scalesList);
  }

  /** Once a number fails to parse, no later entry brings the list back. */
  lemma {:induction false} ScaleValuesNonePersists(a: seq<string>, b: seq<string>)
    requires ScaleValues(a) == None
    ensures ScaleValues(a + b) == None
    decreases |b|
  {
    if |b| > 0 {
      var ab := a + b;
      assert ab[..|ab| - 1] == a + b[..|b| - 1];
      ScaleValuesNonePersists(a, b[..|b| - 1]);
    } else {
      assert a + b == a;
    }
  }

  /** The scales of `a + b` are those of `a` followed by those of `b`: order is kept. */
  lemma {:induction false} ScaleValuesAppend(a: seq<string>, b: seq<string>)
    requires ScaleValues(a).Some? && ScaleValues(b).Some?
    ensures ScaleValues(a + b) == Some(ScaleValues(a).value + ScaleValues(b).value)
    decreases |b|
  {
    if |b| == 0 {
      assert a + b == a;
      assert ScaleValues(b).value == [];
      assert ScaleValues(a).value + [] == ScaleValues(a).value;
    } else {
      var ab := a + b;
      var b' := b[..|b| - 1];
      assert ab[..|ab| - 1] == a + b';
      assert ab[|ab| - 1] == b[|b| - 1];
      ScaleValuesInit(b);
      ScaleValuesAppend(a, b');
      var xs := ScaleValues(a).value + ScaleValues(b').value;
      assert ScaleValues(a + b') == Some(xs);
      var item := Split(b[|b| - 1], ":");
      if |item| == 2 {
        assert ParseInt(item[1]).Some?;
        assert ScaleValues(b).value == ScaleValues(b').value + [ParseInt(item[1]).value];
        var v := ParseInt(item[1]).value;
        assert ScaleValues(ab) == Some(xs + [v]);
        assert xs + [v] == ScaleValues(a).value + (ScaleValues(b').value + [v]);
      } else {
        assert ScaleValues(ab) == Some(xs);
      }
    }
  }

  /** A list that parses has a prefix without its last entry that parses too. */
  lemma ScaleValuesInit(entries: seq<string>)
    requires |entries| > 0 && ScaleValues(entries).Some?
    ensures ScaleValues(entries[..|entries| - 1]).Some?
  {
  }

  /** There are never more scales than entries. */
  lemma {:induction false} ScaleValuesBound(entries: seq<string>)
    requires ScaleValues(entries).Some?
    ensures |ScaleValues(entries).value| <= |entries|
    decreases |entries|
  {
    if |entries| > 0 {
      var init := entries[..|entries| - 1];
      ScaleValuesInit(entries);
      ScaleValuesBound(init);
    }
  }

  /** An entry without exactly one `:` is skipped wherever it stands. */
  lemma ScaleValuesSkip(a: seq<string>, e: string, b: seq<string>)
    requires |Split(e, ":")| != 2
    ensures ScaleValues(a + [e] + b) == ScaleValues(a + b)
  {
    var ae := a + [e];
    assert ae[..|ae| - 1] == a;
    assert ScaleValues(ae) == ScaleValues(a);
    if ScaleValues(a).None? {
      ScaleValuesNonePersists(a, b);
      ScaleValuesNonePersists(ae, b);
    } else if ScaleValues(b).None? {
      ScaleValuesSuffixNone(a, b);
      ScaleValuesSuffixNone(ae, b);
    } else {
      ScaleValuesAppend(a, b);
      ScaleValuesAppend(ae, b);
    }
  }

  /** A bad number in `b` also spoils `a + b`. */
  lemma {:induction false} ScaleValuesSuffixNone(a: seq<string>, b: seq<string>)
    requires ScaleValues(b) == None
    ensures ScaleValues(a + b) == None
    decreases |b|
  {
    var ab := a + b;
    var b' := b[..|b| - 1];
    assert ab[..|ab| - 1] == a + b';
    assert ab[|ab| - 1] == b[|b| - 1];
    if ScaleValues(b') == None {
      ScaleValuesSuffixNone(a, b');
    } else if ScaleValues(a).None? {
      ScaleValuesNonePersists(a, b');
    } else {
      ScaleValuesAppend(a, b');
    }
  }

  // ---------------------------------------------------------------------
  // The default list

  /** The entries `"1:<n>"` for a list of scales. */
  function EntriesFor(ns: seq<nat>): (r: seq<string>)
    ensures |r| == |ns|
  {
    seq(|ns|, i requires 0 <= i < |ns| => "1:" + NatToDecimal(ns[i]))
  }

  /** `"1:<n>"` splits into `"1"` and the digits of `n`, which read back as `n`. */
  lemma EntryValue(n: nat)
    ensures Split("1:" + NatToDecimal(n), ":") == ["1", NatToDecimal(n)]
    ensures ParseInt(NatToDecimal(n)) == Some(n)
  {
    var d := NatToDecimal(n);
    assert "1:" + d == "1" + [':'] + d;
    SplitAtChar("1", ':', d);
    AbsentWithoutHead("1", ":");
    SplitAbsent("1", ":");
    AbsentWithoutHead(d, ":");
    SplitAbsent(d, ":");
    DecimalRoundTrip(n);
  }

  /** Every well-formed entry contributes its scale, in order. */
  lemma {:induction false} ScaleValuesOfEntries(ns: seq<nat>)
    ensures ScaleValues(EntriesFor(ns)) == Some(ns)
    decreases |ns|
  {
    if |ns| > 0 {
      var init := ns[..|ns| - 1];
      assert EntriesFor(ns)[..|ns| - 1] == EntriesFor(init);
      ScaleValuesOfEntries(init);
      EntryValue(ns[|ns| - 1]);
      assert init + [ns[|ns| - 1]] == ns;
    }
  }

  /** The default scales, largest first. */
  const DefaultList: seq<nat> := [1000000, 500000, 250000, 100000, 50000, 25000, 10000, 5000, 2500, 1000, 500]

  /** The first four default entries are those of the four largest scales. */
  lemma LargeDefaultEntries()
    ensures forall i :: 0 <= i < 4 ==> EntriesFor(DefaultList)[i] == DefaultEntries[i]
  {
    var e := EntriesFor(DefaultList);
    assert e[0] == "1:1000000";
    assert e[1] == "1:500000";
    assert e[2] == "1:250000";
    assert e[3] == "1:100000";
  }

  /** The next four default entries. */
  lemma MiddleDefaultEntries()
    ensures forall i :: 4 <= i < 8 ==> EntriesFor(DefaultList)[i] == DefaultEntries[i]
  {
    var e := EntriesFor(DefaultList);
    assert e[4] == "1:50000";
    assert e[5] == "1:25000";
    assert e[6] == "1:10000";
    assert e[7] == "1:5000";
  }

  /** The last three default entries. */
  lemma SmallDefaultEntries()
    ensures forall i :: 8 <= i < 11 ==> EntriesFor(DefaultList)[i] == DefaultEntries[i]
  {
    var e := EntriesFor(DefaultList);
    assert e[8] == "1:2500";
    assert e[9] == "1:1000";
    assert e[10] == "1:500";
  }

  /** The default entries are the `"1:<n>"` entries of the default scales. */
  lemma DefaultEntriesFor()
    ensures EntriesFor(DefaultList) == DefaultEntries
  {
    LargeDefaultEntries();
    MiddleDefaultEntries();
    SmallDefaultEntries();
  }

  /** The scales of the default setting, largest first (the unit test's expectation). */
  lemma DefaultScalesValues()
    ensures ScaleValues(Split(DefaultScales, ",")) ==
      Some([1000000, 500000, 250000, 100000, 50000, 25000, 10000, 5000, 2500, 1000, 500])
  {
    var entries := EntriesFor(DefaultList);
    forall i | 0 <= i < |entries| ensures forall k :: 0 <= k < |entries[i]| ==> entries[i][k] != ',' {
      assert entries[i] == "1:" + NatToDecimal(DefaultList[i]);
    }
    DefaultEntriesFor();
    SplitJoinedPieces(entries, ',');
    ScaleValuesOfEntries(DefaultList);
  }
}
