/** `parse_selection` (downloader.py:112-124): the answer to "Enter numbers
    or ranges to download (e.g. 1,2,5-7)" becomes the sorted list of distinct
    playlist positions it names within 1..total. */
module Selection {
  import opened Wrappers
  import opened PyText

  /** `set(range(a, b + 1))`: the integers from a to b inclusive. */
  function Range(a: int, b: int): (r: set<int>)
    ensures forall i :: i in r <==> a <= i <= b
    decreases b - a
  {
    if a > b then {} else {a} + Range(a + 1, b)
  }

  /** The indices one stripped token adds to the set: a token with a dash
      must split into exactly two parts that `int()` accepts and adds that
      inclusive range; a token without a dash must pass `isdigit()` and adds
      its value; anything else raised or was skipped and adds nothing. */
  function TokenIndices(part: string): set<int> {
    if '-' in part then
      var pieces := Split(part, '-');
      if |pieces| == 2 && ParseInt(pieces[0]).Some? && ParseInt(pieces[1]).Some?
      then Range(ParseInt(pieces[0]).value, ParseInt(pieces[1]).value)
      else {}
    else if IsDigitString(part) then {DigitsValue(part)}
    else {}
  }

  /** Unfolding helper: a token with a dash adds the range between its two
      ends when it has exactly two that `int()` accepts, and nothing
      otherwise. The fact about digit ranges is DigitsRangeToken. */
  lemma RangeToken(part: string)
    requires '-' in part
    ensures var pieces := Split(part, '-');
      var ok := |pieces| == 2 && ParseInt(pieces[0]).Some? && ParseInt(pieces[1]).Some?;
      && (ok ==> TokenIndices(part) == Range(ParseInt(pieces[0]).value, ParseInt(pieces[1]).value))
      && (!ok ==> TokenIndices(part) == {})
  {
  }

  /** The indices collected from the given comma-separated parts. */
  function PartsIndices(parts: seq<string>): set<int> {
    if parts == [] then {}
    else PartsIndices(parts[..|parts| - 1]) + TokenIndices(Strip(parts[|parts| - 1]))
  }

  /** The set `indices` holds once every part of the selection is read. */
  function SelectionSet(selection: string): set<int> {
    PartsIndices(Split(selection, ','))
  }

  /** The members of `s` that lie in 1..n, in increasing order. */
  function Ascending(s: set<int>, n: int): seq<int>
    decreases n
  {
    if n <= 0 then [] else Ascending(s, n - 1) + (if n in s then [n] else [])
  }

  /** The list `parse_selection(selection, total)` returns. */
  function ParsedSelection(selection: string, total: nat): seq<int> {
    Ascending(SelectionSet(selection), total)
  }

  predicate StrictlyIncreasing(xs: seq<int>) {
    forall j, k :: 0 <= j < k < |xs| ==> xs[j] < xs[k]
  }

  predicate Within(xs: seq<int>, total: int) {
    forall k :: 0 <= k < |xs| ==> 1 <= xs[k] <= total
  }

  /** `Ascending(s, n)` is strictly increasing and holds exactly the members
      of `s` between 1 and n. */
  lemma {:induction false} AscendingSorted(s: set<int>, n: int)
    ensures StrictlyIncreasing(Ascending(s, n)) && Within(Ascending(s, n), n)
    ensures forall x :: x in Ascending(s, n) <==> x in s && 1 <= x <= n
    decreases n
  {
    if n > 0 {
      AscendingSorted(s, n - 1);
      var prev := Ascending(s, n - 1);
      if n in s {
        assert Ascending(s, n) == prev + [n];
        SnocIncreasing(prev, n);
      } else {
        assert Ascending(s, n) == prev;
      }
    }
  }

  /** Appending a number above every element keeps a list strictly
      increasing. */
  lemma SnocIncreasing(xs: seq<int>, x: int)
    requires StrictlyIncreasing(xs) && forall k :: 0 <= k < |xs| ==> xs[k] < x
    ensures StrictlyIncreasing(xs + [x])
  {
    var ys := xs + [x];
    forall j, k | 0 <= j < k < |ys|
      ensures ys[j] < ys[k]
    {
      if k < |xs| {
        assert ys[j] == xs[j] && ys[k] == xs[k];
      } else {
        assert ys[j] == xs[j];
      }
    }
  }

  /** Nothing is listed from the empty set. */
  lemma {:induction false} AscendingEmpty(n: int)
    ensures Ascending({}, n) == []
    decreases n
  {
    if n > 0 {
      AscendingEmpty(n - 1);
    }
  }

  /** Elements above m do not matter to the listing up to m; members of `s`
      between m and n would. */
  lemma {:induction false} AscendingAbove(s: set<int>, m: int, n: int)
    requires m <= n
    requires forall x :: m < x <= n ==> x !in s
    ensures Ascending(s, n) == Ascending(s, m)
    decreases n - m
  {
    if m < n {
      AscendingAbove(s, m, n - 1);
    }
  }

  lemma PartsIndicesStep(parts: seq<string>, k: int)
    requires 0 <= k < |parts|
    ensures PartsIndices(parts[..k + 1]) == PartsIndices(parts[..k]) + TokenIndices(Strip(parts[k]))
  {
    assert parts[..k + 1][..k] == parts[..k];
  }

  /** The body of the loop in `parse_selection`: one stripped part is read
      as a range or a single number, or skipped when `int()` raises or it
      is neither. */
  method AddToken(indices: set<int>, part: string) returns (r: set<int>)
    ensures r == indices + TokenIndices(part)
  {
    r := indices;
    if '-' in part {
      var pieces := Split(part, '-');
      RangeToken(part);
      if |pieces| == 2 {
        var start := ParseInt(pieces[0]);
        var end := ParseInt(pieces[1]);
        if start.Some? && end.Some? {
          r := r + Range(start.value, end.value);
        }
      }
    } else if IsDigitString(part) {
      r := r + {DigitsValue(part)};
    }
  }

  /** `parse_selection` itself: the loop over the comma-separated parts fills
      the set `indices`, whose members in 1..total are then returned in
      increasing order. */
  method ParseSelection(selection: string, total: nat) returns (r: seq<int>)
    ensures r == ParsedSelection(selection, total)
    ensures StrictlyIncreasing(r) && Within(r, total)
    ensures forall i :: i in r <==> i in SelectionSet(selection) && 1 <= i <= total
  {
    var parts := Split(selection, ',');
    var indices: set<int> := {};
    for k := 0 to |parts|
      invariant indices == PartsIndices(parts[..k])
    {
      indices := AddToken(indices, Strip(parts[k]));
      PartsIndicesStep(parts, k);
    }
    assert parts[..|parts|] == parts;
    assert indices == SelectionSet(selection);
    r := Ascending(indices, total);
    AscendingSorted(indices, total);
  }

  // ---------------------------------------------------------------------
  // Properties
  // ---------------------------------------------------------------------

  /** An empty selection string selects nothing. */
  lemma EmptySelection(total: nat)
    ensures ParsedSelection("", total) == []
  {
    assert Split("", ',') == [""];
    assert Strip("") == "";
    assert TokenIndices("") == {};
    assert PartsIndices([""]) == {};
    AscendingEmpty(total);
  }

  /** Splitting `a-b` at the dash, neither part holding a dash. */
  lemma DashSplit(a: string, b: string)
    requires '-' !in a && '-' !in b
    ensures Split(a + "-" + b, '-') == [a, b]
  {
    assert Join([a, b], '-') == a + "-" + b by {
      assert [a, b][1..] == [b];
    }
    SplitJoin([a, b], '-');
  }

  /** A lone dash names no range: `int('')` raises. */
  lemma LoneDash()
    ensures TokenIndices("-") == {}
  {
    assert "-" == "" + "-" + "";
    DashSplit("", "");
    assert ParseInt("") == None;
  }

  /** A range whose ends `int()` rejects names nothing. */
  lemma NonNumericRange()
    ensures TokenIndices("a-b") == {}
  {
    assert "a-b" == "a" + "-" + "b";
    DashSplit("a", "b");
    ParseIntRejects("a");
    RangeToken("a-b");
  }

  /** A token with two dashes names nothing: unpacking three values into
      two names raises. */
  lemma TwoDashes()
    ensures TokenIndices("1-2-3") == {}
  {
    assert "1-2-3" == "1" + "-" + "2-3";
    SplitPrefix("1", "-2-3", '-');
    assert "-2-3" == "" + "-" + ("2-3");
    SplitPrefix("", "-2-3", '-');
    assert "-2-3"[1..] == "2-3";
    assert "2-3" == "2" + "-" + "3";
    DashSplit("2", "3");
    assert |Split("1-2-3", '-')| == 3;
  }

  /** A reversed range names nothing. */
  lemma ReversedRange()
    ensures TokenIndices("5-2") == {}
  {
    assert "5-2" == "5" + "-" + "2";
    DashSplit("5", "2");
    ParseIntOfDigits("5");
    ParseIntOfDigits("2");
  }

  /** A single token must be plain digits: a sign is not accepted there. */
  lemma SignedSingle()
    ensures TokenIndices("+5") == {}
  {
    assert "+5"[0] == '+';
  }

  /** The example of the prompt: `1,3-4,10` against a five-entry playlist. */
  lemma ExampleSelection()
    ensures ParsedSelection("1,3-4,10", 5) == [1, 3, 4]
  {
    ExampleSet();
    ExampleAscending();
  }

  lemma ExampleAscending()
    ensures Ascending({1, 3, 4, 10}, 5) == [1, 3, 4]
  {
    var s: set<int> := {1, 3, 4, 10};
    assert Ascending(s, 0) == [];
    assert Ascending(s, 1) == [1];
    assert 2 !in s;
    assert Ascending(s, 2) == [1];
    assert Ascending(s, 3) == [1, 3];
    assert Ascending(s, 4) == [1, 3, 4];
    assert 5 !in s;
  }

  lemma ExampleSet()
    ensures SelectionSet("1,3-4,10") == {1, 3, 4, 10}
  {
    ExampleSplit();
    ExampleParts();
  }

  lemma ExampleSplit()
    ensures Split("1,3-4,10", ',') == ["1", "3-4", "10"]
  {
    var parts := ["1", "3-4", "10"];
    assert Join(parts, ',') == "1,3-4,10" by {
      assert parts[1..] == ["3-4", "10"];
      assert ["3-4", "10"][1..] == ["10"];
    }
    SplitJoin(parts, ',');
  }

  lemma ExampleParts()
    ensures PartsIndices(["1", "3-4", "10"]) == {1, 3, 4, 10}
  {
    PartsOfThree("1", "3-4", "10");
    ExampleTokens();
  }

  lemma PartsOfThree(a: string, b: string, c: string)
    ensures PartsIndices([a, b, c]) == TokenIndices(Strip(a)) + TokenIndices(Strip(b)) + TokenIndices(Strip(c))
  {
    var parts := [a, b, c];
    assert parts[..0] == [];
    PartsIndicesStep(parts, 0);
    PartsIndicesStep(parts, 1);
    PartsIndicesStep(parts, 2);
    assert parts[..3] == parts;
  }

  lemma ExampleTokens()
    ensures TokenIndices(Strip("1")) == {1}
    ensures TokenIndices(Strip("3-4")) == {3, 4}
    ensures TokenIndices(Strip("10")) == {10}
  {
    ExampleSingle("1", 1);
    ExampleSingle("10", 10);
    ExampleRange();
  }

  lemma ExampleSingle(d: string, n: nat)
    requires n < 100 && d == NatToString(n)
    ensures TokenIndices(Strip(d)) == {n}
  {
    DigitsToken(d);
    NatToStringValue(n);
  }

  lemma ExampleRange()
    ensures TokenIndices(Strip("3-4")) == {3, 4}
  {
    assert NatToString(3) + "-" + NatToString(4) == "3-4" by {
      assert NatToString(3) == "3" && NatToString(4) == "4";
    }
    assert Range(3, 4) == {3, 4};
    NatRangeToken(3, 4);
  }

  lemma NatRangeToken(a: nat, b: nat)
    ensures TokenIndices(Strip(NatToString(a) + "-" + NatToString(b))) == Range(a, b)
  {
    DigitsRangeToken(NatToString(a), NatToString(b));
    NatToStringValue(a);
    NatToStringValue(b);
  }

  /** A part made of digits names the number they denote. */
  lemma DigitsToken(d: string)
    requires IsDigitString(d)
    ensures TokenIndices(Strip(d)) == {DigitsValue(d)}
  {
    DigitsStrip(d);
    SingleToken(d);
  }

  /** Unfolding helper: a token without a dash is read by `isdigit()`
      alone. The fact about digit tokens is DigitsToken. */
  lemma SingleToken(part: string)
    requires '-' !in part
    ensures TokenIndices(part) == if IsDigitString(part) then {DigitsValue(part)} else {}
  {
  }

  /** Two digit strings around a dash name the range between them. */
  lemma DigitsRangeToken(a: string, b: string)
    requires IsDigitString(a) && IsDigitString(b)
    ensures TokenIndices(Strip(a + "-" + b)) == Range(DigitsValue(a), DigitsValue(b))
  {
    var t := a + "-" + b;
    DashedDigits(a, b);
    assert TokenIndices(t) == Range(DigitsValue(a), DigitsValue(b)) by {
      DashSplit(a, b);
      ParseIntOfDigits(a);
      ParseIntOfDigits(b);
      RangeToken(t);
    }
  }

  lemma DashedDigits(a: string, b: string)
    requires IsDigitString(a) && IsDigitString(b)
    ensures '-' !in a && '-' !in b
    ensures var t := a + "-" + b; Strip(t) == t && '-' in t
  {
    DigitsStrip(a);
    DigitsStrip(b);
    var t := a + "-" + b;
    assert t[|a|] == '-';
    assert Strip(t) == t by {
      assert t[0] == a[0] && t[|t| - 1] == b[|b| - 1];
      assert IsDigit(a[0]) && IsDigit(b[|b| - 1]);
    }
  }

  // ---------------------------------------------------------------------
  // Round trip with the `playlist_items` string built at line 629
  // ---------------------------------------------------------------------

  /** `[str(i) for i in xs]`. */
  function Decimals(xs: seq<int>): (r: seq<string>)
    ensures |r| == |xs|
    ensures forall k :: 0 <= k < |xs| ==> r[k] == IntToString(xs[k])
  {
    if xs == [] then [] else Decimals(xs[..|xs| - 1]) + [IntToString(xs[|xs| - 1])]
  }

  /** `",".join(str(i) for i in xs)`: the `playlist_items` option. */
  function ItemsString(xs: seq<int>): string {
    Join(Decimals(xs), ',')
  }

  /** The `playlist_items` string built from a selection parses back to that
      selection: `parse_selection` inverts `",".join(map(str, ...))` on every
      list it can return. */
  lemma ItemsStringRoundTrip(xs: seq<int>, total: nat)
    requires StrictlyIncreasing(xs) && Within(xs, total)
    ensures ParsedSelection(ItemsString(xs), total) == xs
  {
    if xs == [] {
      EmptySelection(total);
    } else {
      var strs := Decimals(xs);
      forall k | 0 <= k < |strs| ensures ',' !in strs[k] {
        assert strs[k] == NatToString(xs[k]);
      }
      SplitJoin(strs, ',');
      DecimalsIndices(xs);
    }
    AscendingOfSorted(xs, total);
  }

  /** The decimal form of a positive number, read back as a token, names
      that number alone. */
  lemma DecimalToken(x: int)
    requires x >= 1
    ensures TokenIndices(Strip(IntToString(x))) == {x}
  {
    DigitsToken(NatToString(x));
    NatToStringValue(x);
  }

  /** Reading back the decimal forms of positive numbers collects exactly
      those numbers. */
  lemma {:induction false} DecimalsIndices(xs: seq<int>)
    requires forall k :: 0 <= k < |xs| ==> xs[k] >= 1
    ensures PartsIndices(Decimals(xs)) == Elements(xs)
  {
    if xs != [] {
      var init := xs[..|xs| - 1];
      var x := xs[|xs| - 1];
      assert xs == init + [x];
      DecimalsIndices(init);
      DecimalsSnoc(init, x);
      DecimalStep(Decimals(init), x);
      ElementsSnoc(init, x);
    }
  }

  lemma DecimalsSnoc(xs: seq<int>, x: int)
    ensures Decimals(xs + [x]) == Decimals(xs) + [IntToString(x)]
  {
    assert (xs + [x])[..|xs|] == xs;
  }

  lemma DecimalStep(parts: seq<string>, x: int)
    requires x >= 1
    ensures PartsIndices(parts + [IntToString(x)]) == PartsIndices(parts) + {x}
  {
    PartsIndicesSnoc(parts, IntToString(x));
    DecimalToken(x);
  }

  lemma PartsIndicesSnoc(parts: seq<string>, p: string)
    ensures PartsIndices(parts + [p]) == PartsIndices(parts) + TokenIndices(Strip(p))
  {
    assert (parts + [p])[..|parts|] == parts;
  }

  /** The set of elements of a list. */
  function Elements(xs: seq<int>): (r: set<int>)
    ensures forall x :: x in r <==> x in xs
  {
    set k | 0 <= k < |xs| :: xs[k]
  }

  lemma ElementsSnoc(xs: seq<int>, x: int)
    ensures Elements(xs + [x]) == Elements(xs) + {x}
  {
  }

  /** A strictly increasing list within 1..n is the ascending listing of its
      own elements. */
  lemma {:induction false} AscendingOfSorted(xs: seq<int>, n: int)
    requires StrictlyIncreasing(xs) && Within(xs, n)
    ensures Ascending(Elements(xs), n) == xs
    decreases |xs|
  {
    if xs == [] {
      assert Elements(xs) == {};
      AscendingEmpty(n);
    } else {
      var m := xs[|xs| - 1];
      var init := xs[..|xs| - 1];
      assert xs == init + [m];
      SortedLast(xs);
      AscendingAbove(Elements(xs), m, n);
      AscendingOfSorted(init, m - 1);
      ElementsSnoc(init, m);
      AscendingAgree(Elements(xs), Elements(init), m - 1);
    }
  }

  /** The last element of a strictly increasing list is its largest, and
      every earlier one is smaller. */
  lemma SortedLast(xs: seq<int>)
    requires StrictlyIncreasing(xs) && xs != []
    ensures forall x :: x in xs ==> x <= xs[|xs| - 1]
    ensures var init := xs[..|xs| - 1];
      StrictlyIncreasing(init) && forall k :: 0 <= k < |init| ==> init[k] < xs[|xs| - 1]
  {
    var last := |xs| - 1;
    forall k | 0 <= k < |xs| ensures xs[k] <= xs[last] {
      if k < last {
        assert xs[k] < xs[last];
      }
    }
  }

  /** Two sets that agree on 1..n have the same ascending listing up to n. */
  lemma {:induction false} AscendingAgree(s: set<int>, t: set<int>, n: int)
    requires forall x :: 1 <= x <= n ==> (x in s <==> x in t)
    ensures Ascending(s, n) == Ascending(t, n)
    decreases n
  {
    if n > 0 {
      AscendingAgree(s, t, n - 1);
    }
  }
}
