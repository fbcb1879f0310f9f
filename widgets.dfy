/**
 * The zoom combo box (modules/widgets.py): the steps 25 %, 50 %, ..., 250 %
 * with the extra factors of a shared module-level list merged in before the
 * first step they are smaller than, and `reset` selecting 100 %.
 *
 * Factors are exact reals: `s * 0.01` is taken as s/100 (for the steps used
 * here the float product is the nearest double to s/100, and 100 * 0.01 is
 * exactly 1.0).
 */
module Widgets {
  import opened Text

  /** `MIN_SIZE_FACTOR`, `MAX_SIZE_FACTOR + SIZE_INCREMENT` and `SIZE_INCREMENT`, as percentages. */
  const MinPercent := 25
  const EndPercent := 275
  const StepPercent := 25

  /** `EXTRA_SIZE_FACTORS` as the module defines it. */
  const DefaultExtras: seq<real> := [0.10, 0.15, 0.6666666, 1.3333333]

  /** A combo box label: `{s:02d}%` for a step, `{xs * 100:.2f}%` for an extra factor. */
  datatype Label = StepLabel(percent: int) | ExtraLabel(factor: real)

  /** A combo box item with its user data. */
  datatype Item = Item(caption: Label, data: real)

  /** The text of a step label; two digits at least. */
  function StepLabelText(percent: nat): (r: string)
    ensures |r| >= 3 && r[|r| - 1] == '%'
  {
    (if percent < 10 then "0" else "") + NatToString(percent) + "%"
  }

  /** A step label reads back as its percentage: two or more digits, then `%`. */
  lemma StepLabelValue(percent: nat)
    ensures var t := StepLabelText(percent);
            var digits := t[..|t| - 1];
            |digits| >= 2 && (forall i :: 0 <= i < |digits| ==> IsDigit(digits[i])) &&
            DecimalValue(digits) == percent
  {
    var t := StepLabelText(percent);
    var n := NatToString(percent);
    var digits := t[..|t| - 1];
    DecimalRoundTrip(percent);
    if percent < 10 {
      assert digits == "0" + n;
      assert n == [DigitChar(percent)];
      assert digits[..1] == "0";
    } else {
      assert digits == n;
      assert n == NatToString(percent / 10) + [DigitChar(percent % 10)];
    }
  }

  function StepItem(s: int): Item
  {
    Item(StepLabel(s), s as real / 100.0)
  }

  function ExtraItem(x: real): Item
  {
    Item(ExtraLabel(x), x)
  }

  function ExtraItems(xs: seq<real>): (r: seq<Item>)
    ensures |r| == |xs| && forall i :: 0 <= i < |xs| ==> r[i] == ExtraItem(xs[i])
  {
    if xs == [] then [] else [ExtraItem(xs[0])] + ExtraItems(xs[1..])
  }

  /** `range(lo, hi, step)` for a positive step. */
  function Range(lo: int, hi: int, step: nat): (r: seq<int>)
    requires step > 0
    ensures forall i :: 0 <= i < |r| ==> r[i] == lo + i * step && r[i] < hi
    ensures lo < hi ==> |r| >= 1
    decreases hi - lo
  {
    if lo >= hi then [] else [lo] + Range(lo + step, hi, step)
  }

  const Steps := Range(MinPercent, EndPercent, StepPercent)

  /** The default steps run 25 %, 50 %, ..., 250 % in ascending order, 100 % among them. */
  lemma StepsShape()
    ensures |Steps| == 10 && Steps[0] == 25 && Steps[9] == 250
    ensures IncreasingSteps(Steps)
    ensures 100 in Steps
  {
    RangeLength(MinPercent, EndPercent, StepPercent, 10);
    assert Steps[3] == 100;
  }

  lemma {:induction false} RangeLength(lo: int, hi: int, step: nat, k: nat)
    requires step > 0 && lo + (k - 1) * step < hi <= lo + k * step
    ensures |Range(lo, hi, step)| == k
    decreases k
  {
    if k > 0 {
      RangeLength(lo + step, hi, step, k - 1);
    }
  }

  /** The inner `while`: how many leading extras lie below `bound` and are popped. */
  function BelowCount(extras: seq<real>, bound: real): (n: nat)
    ensures n <= |extras|
    ensures forall i :: 0 <= i < n ==> extras[i] < bound
    ensures n < |extras| ==> extras[n] >= bound
  {
    if extras != [] && bound > extras[0] then 1 + BelowCount(extras[1..], bound) else 0
  }

  /** The items of the box built for `steps`, and what is left of the extras list afterwards. */
  function Built(steps: seq<int>, extras: seq<real>): (seq<Item>, seq<real>)
  {
    if steps == [] then ([], extras)
    else
      var n := BelowCount(extras, steps[0] as real / 100.0);
      var rest := Built(steps[1..], extras[n..]);
      (ExtraItems(extras[..n]) + [StepItem(steps[0])] + rest.0, rest.1)
  }

  /** The box for the first step and the rest, with the extras below the first step in front. */
  lemma BuiltCons(steps: seq<int>, extras: seq<real>)
    requires steps != []
    ensures var n := BelowCount(extras, steps[0] as real / 100.0);
      && Built(steps, extras).0 == ExtraItems(extras[..n]) + [StepItem(steps[0])] + Built(steps[1..], extras[n..]).0
      && Built(steps, extras).1 == Built(steps[1..], extras[n..]).1
  {
  }

  /** The extras the box took, in order. */
  function ExtrasOf(items: seq<Item>): seq<real>
  {
    if items == [] then []
    else (if items[0].caption.ExtraLabel? then [items[0].data] else []) + ExtrasOf(items[1..])
  }

  /** The steps the box shows, in order. */
  function StepsOf(items: seq<Item>): seq<int>
  {
    if items == [] then []
    else (if items[0].caption.StepLabel? then [items[0].caption.percent] else []) + StepsOf(items[1..])
  }

  lemma OfAppend(a: seq<Item>, b: seq<Item>)
    ensures ExtrasOf(a + b) == ExtrasOf(a) + ExtrasOf(b)
    ensures StepsOf(a + b) == StepsOf(a) + StepsOf(b)
  {
    ExtrasOfAppend(a, b);
    StepsOfAppend(a, b);
  }

  lemma {:induction false} ExtrasOfAppend(a: seq<Item>, b: seq<Item>)
    ensures ExtrasOf(a + b) == ExtrasOf(a) + ExtrasOf(b)
  {
    if a == [] {
      assert a + b == b;
    } else {
      var ab := a + b;
      assert ab[0] == a[0];
      assert ab[1..] == a[1..] + b;
      ExtrasOfAppend(a[1..], b);
      var h: seq<real> := if a[0].caption.ExtraLabel? then [a[0].data] else [];
      assert ExtrasOf(ab) == h + ExtrasOf(ab[1..]);
      assert ExtrasOf(a) == h + ExtrasOf(a[1..]);
      assert h + (ExtrasOf(a[1..]) + ExtrasOf(b)) == (h + ExtrasOf(a[1..])) + ExtrasOf(b);
    }
  }

  lemma {:induction false} StepsOfAppend(a: seq<Item>, b: seq<Item>)
    ensures StepsOf(a + b) == StepsOf(a) + StepsOf(b)
  {
    if a == [] {
      assert a + b == b;
    } else {
      var ab := a + b;
      assert ab[0] == a[0];
      assert ab[1..] == a[1..] + b;
      StepsOfAppend(a[1..], b);
      var h: seq<int> := if a[0].caption.StepLabel? then [a[0].caption.percent] else [];
      assert StepsOf(ab) == h + StepsOf(ab[1..]);
      assert StepsOf(a) == h + StepsOf(a[1..]);
      assert h + (StepsOf(a[1..]) + StepsOf(b)) == (h + StepsOf(a[1..])) + StepsOf(b);
    }
  }

  lemma {:induction false} ExtraItemsOf(xs: seq<real>)
    ensures ExtrasOf(ExtraItems(xs)) == xs && StepsOf(ExtraItems(xs)) == []
  {
    if xs != [] {
      ExtraItemsOf(xs[1..]);
      assert ExtraItems(xs)[1..] == ExtraItems(xs[1..]);
    }
  }

  /** The extras and steps of one step's items followed by later items. */
  lemma OfStep(popped: seq<real>, s: int, items: seq<Item>)
    ensures ExtrasOf(ExtraItems(popped) + [StepItem(s)] + items) == popped + ExtrasOf(items)
    ensures StepsOf(ExtraItems(popped) + [StepItem(s)] + items) == [s] + StepsOf(items)
  {
    var one := [StepItem(s)];
    assert one[1..] == [];
    assert ExtrasOf(one) == [] + ExtrasOf(one[1..]);
    assert StepsOf(one) == [s] + StepsOf(one[1..]);
    ExtraItemsOf(popped);
    var ex := ExtraItems(popped);
    OfAppend(ex, one);
    assert ExtrasOf(ex + one) == popped;
    assert StepsOf(ex + one) == [s];
    OfAppend(ex + one, items);
  }

  /**
   * Every step appears once, in order, and the extras are consumed from the
   * front of the shared list: the ones taken, followed by the ones left, are
   * the list as it was, so each extra is added at most once.
   */
  lemma {:induction false} BuiltPartition(steps: seq<int>, extras: seq<real>)
    ensures StepsOf(Built(steps, extras).0) == steps
    ensures ExtrasOf(Built(steps, extras).0) + Built(steps, extras).1 == extras
  {
    if steps != [] {
      var n := BelowCount(extras, steps[0] as real / 100.0);
      BuiltPartition(steps[1..], extras[n..]);
      PartitionStep(steps, extras);
    }
  }

  /** The partition for the first step follows from the partition for the rest. */
  lemma PartitionStep(steps: seq<int>, extras: seq<real>)
    requires steps != []
    requires var n := BelowCount(extras, steps[0] as real / 100.0);
      && StepsOf(Built(steps[1..], extras[n..]).0) == steps[1..]
      && ExtrasOf(Built(steps[1..], extras[n..]).0) + Built(steps[1..], extras[n..]).1 == extras[n..]
    ensures StepsOf(Built(steps, extras).0) == steps
    ensures ExtrasOf(Built(steps, extras).0) + Built(steps, extras).1 == extras
  {
    var n := BelowCount(extras, steps[0] as real / 100.0);
    var popped, rest := extras[..n], extras[n..];
    assert popped + rest == extras;
    assert [steps[0]] + steps[1..] == steps;
    var items, left := Built(steps[1..], rest).0, Built(steps[1..], rest).1;
    PartitionJoin(popped, steps[0], items, left, rest, steps[1..]);
    BuiltCons(steps, extras);
  }

  /** Steps and extras of one step's items followed by later items whose partition is known. */
  lemma PartitionJoin(popped: seq<real>, s: int, items: seq<Item>, left: seq<real>, rest: seq<real>, later: seq<int>)
    requires StepsOf(items) == later && ExtrasOf(items) + left == rest
    ensures StepsOf(ExtraItems(popped) + [StepItem(s)] + items) == [s] + later
    ensures ExtrasOf(ExtraItems(popped) + [StepItem(s)] + items) + left == popped + rest
  {
    OfStep(popped, s, items);
    assert popped + ExtrasOf(items) + left == popped + (ExtrasOf(items) + left);
  }

  /** A box built from an empty (already consumed) extras list shows only the steps. */
  lemma NoExtrasOnlySteps(steps: seq<int>)
    ensures ExtrasOf(Built(steps, []).0) == [] && Built(steps, []).1 == []
  {
    BuiltPartition(steps, []);
  }

  /** The data of the items, in order. */
  function Data(items: seq<Item>): (r: seq<real>)
    ensures |r| == |items| && forall i :: 0 <= i < |items| ==> r[i] == items[i].data
  {
    if items == [] then [] else [items[0].data] + Data(items[1..])
  }

  predicate Increasing(xs: seq<real>)
  {
    forall i, j :: 0 <= i < j < |xs| ==> xs[i] < xs[j]
  }

  predicate IncreasingSteps(steps: seq<int>)
  {
    forall i, j :: 0 <= i < j < |steps| ==> steps[i] < steps[j]
  }

  /** Ascending steps and extras above `lo`, no extra equal to a step's factor. */
  predicate Separated(steps: seq<int>, extras: seq<real>, lo: real)
  {
    && IncreasingSteps(steps) && Increasing(extras)
    && (forall j :: 0 <= j < |steps| ==> steps[j] as real / 100.0 > lo)
    && (forall i :: 0 <= i < |extras| ==> extras[i] > lo)
    && (forall i, j :: 0 <= i < |extras| && 0 <= j < |steps| ==> extras[i] != steps[j] as real / 100.0)
  }

  /** Item data strictly increasing and all above `lo`. */
  predicate RisingAbove(items: seq<Item>, lo: real)
  {
    Increasing(Data(items)) && forall i :: 0 <= i < |items| ==> items[i].data > lo
  }

  /**
   * With ascending steps and ascending extras that never equal a step's
   * factor, the item data is strictly increasing, and above any bound below
   * all steps and extras.
   */
  lemma {:induction false} BuiltIncreasing(steps: seq<int>, extras: seq<real>, lo: real)
    requires Separated(steps, extras, lo)
    ensures RisingAbove(Built(steps, extras).0, lo)
    decreases |steps|
  {
    if steps != [] {
      var b := steps[0] as real / 100.0;
      var n := BelowCount(extras, b);
      SeparatedTail(steps, extras, lo, b, n);
      BuiltIncreasing(steps[1..], extras[n..], b);
      RisingStep(steps, extras, lo, b, n);
    }
  }

  /** What is left after the first step is separated above the first step's factor. */
  lemma SeparatedTail(steps: seq<int>, extras: seq<real>, lo: real, b: real, n: nat)
    requires Separated(steps, extras, lo) && steps != []
    requires b == steps[0] as real / 100.0 && n == BelowCount(extras, b)
    ensures Separated(steps[1..], extras[n..], b)
  {
    NoExtraAtStep(steps, extras, lo);
    RestAbove(extras, b);
    TailAbove(steps);
    CrossTail(steps, extras, n);
  }

  /** No extra sits exactly at the first step's factor. */
  lemma NoExtraAtStep(steps: seq<int>, extras: seq<real>, lo: real)
    requires Separated(steps, extras, lo) && steps != []
    ensures forall i :: 0 <= i < |extras| ==> lo < extras[i] && extras[i] != steps[0] as real / 100.0
  {
  }

  /** Dropping leading steps and extras keeps them apart. */
  lemma CrossTail(steps: seq<int>, extras: seq<real>, n: nat)
    requires steps != [] && n <= |extras|
    requires forall i, j :: 0 <= i < |extras| && 0 <= j < |steps| ==> extras[i] != steps[j] as real / 100.0
    ensures forall i, j :: 0 <= i < |extras| - n && 0 <= j < |steps| - 1 ==>
              extras[n..][i] != steps[1..][j] as real / 100.0
  {
    forall i, j | 0 <= i < |extras| - n && 0 <= j < |steps| - 1
      ensures extras[n..][i] != steps[1..][j] as real / 100.0
    {
      assert extras[n..][i] == extras[n + i] && steps[1..][j] == steps[j + 1];
    }
  }

  /** The first step's box rises above `lo` when the box for the rest rises above the first step's factor. */
  lemma RisingStep(steps: seq<int>, extras: seq<real>, lo: real, b: real, n: nat)
    requires Separated(steps, extras, lo) && steps != []
    requires b == steps[0] as real / 100.0 && n == BelowCount(extras, b)
    requires RisingAbove(Built(steps[1..], extras[n..]).0, b)
    ensures RisingAbove(Built(steps, extras).0, lo)
  {
    StepBetween(steps, extras, lo, b, n);
    RisingAfterStep(steps, extras, lo, b, n);
  }

  /** The same step, from the facts about the first step's factor alone. */
  lemma RisingAfterStep(steps: seq<int>, extras: seq<real>, lo: real, b: real, n: nat)
    requires steps != []
    requires b == steps[0] as real / 100.0 && n == BelowCount(extras, b)
    requires lo < b && Increasing(extras[..n])
    requires forall i :: 0 <= i < n ==> lo < extras[..n][i] < b
    requires RisingAbove(Built(steps[1..], extras[n..]).0, b)
    ensures RisingAbove(Built(steps, extras).0, lo)
  {
    var items := Built(steps[1..], extras[n..]).0;
    BuiltCons(steps, extras);
    assert Built(steps, extras).0 == ExtraItems(extras[..n]) + [StepItem(steps[0])] + items;
    RisingJoin(extras[..n], steps[0], items, lo);
  }

  /** The first step's factor lies above `lo`, and the extras it takes ascend between the two. */
  lemma StepBetween(steps: seq<int>, extras: seq<real>, lo: real, b: real, n: nat)
    requires Separated(steps, extras, lo) && steps != []
    requires b == steps[0] as real / 100.0 && n == BelowCount(extras, b)
    ensures lo < b && Increasing(extras[..n])
    ensures forall i :: 0 <= i < n ==> lo < extras[..n][i] < b
  {
    PoppedBetween(extras, b, lo);
  }

  /** One step's extras, rising between `lo` and the step, the step, then later items rising above it. */
  lemma RisingJoin(popped: seq<real>, s: int, items: seq<Item>, lo: real)
    requires Increasing(popped) && RisingAbove(items, s as real / 100.0)
    requires forall i :: 0 <= i < |popped| ==> lo < popped[i] < s as real / 100.0
    requires lo < s as real / 100.0
    ensures RisingAbove(ExtraItems(popped) + [StepItem(s)] + items, lo)
  {
    IncreasingStep(popped, s, items, lo);
  }

  /** The ascending extras below a bound ascend between `lo` and the bound. */
  lemma PoppedBetween(extras: seq<real>, b: real, lo: real)
    requires Increasing(extras)
    requires forall i :: 0 <= i < |extras| ==> lo < extras[i]
    ensures var n := BelowCount(extras, b);
      Increasing(extras[..n]) && forall i :: 0 <= i < n ==> lo < extras[..n][i] < b
  {
    var n := BelowCount(extras, b);
    var popped := extras[..n];
    assert Increasing(popped) by {
      forall i, j | 0 <= i < j < |popped| ensures popped[i] < popped[j] {
        assert popped[i] == extras[i] && popped[j] == extras[j];
      }
    }
  }

  /** The ascending extras from a bound on, none equal to it, ascend above it. */
  lemma RestAbove(extras: seq<real>, b: real)
    requires Increasing(extras)
    requires forall i :: 0 <= i < |extras| ==> extras[i] != b
    ensures var n := BelowCount(extras, b);
      Increasing(extras[n..]) && forall i :: 0 <= i < |extras| - n ==> extras[n..][i] > b
  {
    var n := BelowCount(extras, b);
    var rest := extras[n..];
    forall i | 0 <= i < |rest| ensures rest[i] > b {
      assert rest[i] == extras[n + i];
      if i > 0 {
        assert extras[n] < extras[n + i];
      }
    }
    assert Increasing(rest) by {
      forall i, j | 0 <= i < j < |rest| ensures rest[i] < rest[j] {
        assert rest[i] == extras[n + i] && rest[j] == extras[n + j];
      }
    }
  }

  /** The steps after the first ascend and lie above the first step's factor. */
  lemma TailAbove(steps: seq<int>)
    requires IncreasingSteps(steps) && steps != []
    ensures IncreasingSteps(steps[1..])
    ensures forall j :: 0 <= j < |steps| - 1 ==> steps[1..][j] as real / 100.0 > steps[0] as real / 100.0
  {
    var tail := steps[1..];
    forall j | 0 <= j < |tail| ensures tail[j] as real / 100.0 > steps[0] as real / 100.0 {
      assert tail[j] == steps[j + 1] && steps[0] < steps[j + 1];
    }
    assert IncreasingSteps(tail) by {
      forall i, j | 0 <= i < j < |tail| ensures tail[i] < tail[j] {
        assert tail[i] == steps[i + 1] && tail[j] == steps[j + 1];
      }
    }
  }

  /** The data of one step's items followed by later items: the extras, the step's factor, the later data. */
  lemma DataOfStep(popped: seq<real>, s: int, items: seq<Item>)
    ensures var all := ExtraItems(popped) + [StepItem(s)] + items;
      var k := |popped|;
      |all| == k + 1 + |items| &&
      forall i :: 0 <= i < |all| ==>
        (i < k ==> all[i].data == popped[i]) && (i == k ==> all[i].data == s as real / 100.0) &&
        (i > k ==> all[i].data == items[i - k - 1].data)
  {
  }

  /**
   * One step's extras, the step and the later items, in this order, increase
   * when each part does and the step separates them.
   */
  lemma IncreasingStep(popped: seq<real>, s: int, items: seq<Item>, lo: real)
    requires Increasing(popped) && Increasing(Data(items))
    requires forall i :: 0 <= i < |popped| ==> lo < popped[i] < s as real / 100.0
    requires lo < s as real / 100.0
    requires forall i :: 0 <= i < |items| ==> items[i].data > s as real / 100.0
    ensures Increasing(Data(ExtraItems(popped) + [StepItem(s)] + items))
    ensures forall i :: 0 <= i < |ExtraItems(popped) + [StepItem(s)] + items| ==>
              (ExtraItems(popped) + [StepItem(s)] + items)[i].data > lo
  {
    var b := s as real / 100.0;
    var all := ExtraItems(popped) + [StepItem(s)] + items;
    var d := Data(all);
    var k := |popped|;
    DataOfStep(popped, s, items);
    forall i, j | 0 <= i < j < |all| ensures d[i] < d[j] {
      if j < k {
        assert d[i] == popped[i] && d[j] == popped[j];
      } else if i > k {
        assert Data(items)[i - k - 1] < Data(items)[j - k - 1];
      } else if i < k {
        assert d[i] == popped[i] < b <= d[j];
      } else {
        assert d[i] == b < items[j - k - 1].data == d[j];
      }
    }
  }

  /** Every item is a step's item or an extra's item, from the steps and the extras the box was given. */
  lemma {:induction false} BuiltMembers(steps: seq<int>, extras: seq<real>)
    ensures forall i :: 0 <= i < |Built(steps, extras).0| ==>
              var it := Built(steps, extras).0[i];
              (it.caption.StepLabel? && it == StepItem(it.caption.percent) && it.caption.percent in steps) ||
              (it.caption.ExtraLabel? && it == ExtraItem(it.data) && it.data in extras)
    ensures forall s :: s in steps ==> StepItem(s) in Built(steps, extras).0
  {
    if steps != [] {
      var n := BelowCount(extras, steps[0] as real / 100.0);
      var popped, rest := extras[..n], extras[n..];
      BuiltMembers(steps[1..], rest);
      var items := Built(steps[1..], rest).0;
      var all := ExtraItems(popped) + [StepItem(steps[0])] + items;
      assert Built(steps, extras).0 == all;
      forall i | 0 <= i < |all|
        ensures (all[i].caption.StepLabel? && all[i] == StepItem(all[i].caption.percent) && all[i].caption.percent in steps) ||
                (all[i].caption.ExtraLabel? && all[i] == ExtraItem(all[i].data) && all[i].data in extras)
      {
        if i < |popped| {
          assert all[i] == ExtraItem(popped[i]) && popped[i] in extras;
        } else if i > |popped| {
          assert all[i] == items[i - |popped| - 1];
        }
      }
      forall s | s in steps ensures StepItem(s) in all {
        if s != steps[0] {
          assert s in steps[1..];
          assert StepItem(s) in items;
        } else {
          assert all[|popped|] == StepItem(s);
        }
      }
    }
  }

  /** An extra factor that is not below the last step is never added and stays in the list. */
  lemma {:induction false} LargeExtrasStay(steps: seq<int>, extras: seq<real>, x: real)
    requires x in extras
    requires forall j :: 0 <= j < |steps| ==> x >= steps[j] as real / 100.0
    ensures x !in ExtrasOf(Built(steps, extras).0)
    ensures x in Built(steps, extras).1
    decreases |steps|
  {
    if steps != [] {
      var b := steps[0] as real / 100.0;
      var n := BelowCount(extras, b);
      var tail := steps[1..];
      forall j | 0 <= j < |tail| ensures x >= tail[j] as real / 100.0 {
        assert tail[j] == steps[j + 1];
      }
      NotBelowStays(extras, b, x);
      LargeExtrasStay(tail, extras[n..], x);
      StaysAfterStep(steps, extras, x);
    }
  }

  /** An extra the first step does not pop, and the later steps leave alone, stays. */
  lemma StaysAfterStep(steps: seq<int>, extras: seq<real>, x: real)
    requires steps != []
    requires var n := BelowCount(extras, steps[0] as real / 100.0);
      && x !in extras[..n]
      && x !in ExtrasOf(Built(steps[1..], extras[n..]).0)
      && x in Built(steps[1..], extras[n..]).1
    ensures x !in ExtrasOf(Built(steps, extras).0)
    ensures x in Built(steps, extras).1
  {
    var n := BelowCount(extras, steps[0] as real / 100.0);
    BuiltCons(steps, extras);
    OfStep(extras[..n], steps[0], Built(steps[1..], extras[n..]).0);
  }

  /** An extra not below the bound is not popped: it is in what is left. */
  lemma NotBelowStays(extras: seq<real>, b: real, x: real)
    requires x in extras && x >= b
    ensures var n := BelowCount(extras, b);
      x !in extras[..n] && x in extras[n..]
  {
    var n := BelowCount(extras, b);
    var popped, rest := extras[..n], extras[n..];
    assert x !in popped by {
      forall i | 0 <= i < |popped| ensures popped[i] != x {
        assert popped[i] == extras[i] < b;
      }
    }
    assert extras == popped + rest;
  }

  /** Extras that all lie below the last step's factor are all taken: nothing is left in the list. */
  lemma {:induction false} ExtrasConsumed(steps: seq<int>, extras: seq<real>)
    requires steps != []
    requires forall i :: 0 <= i < |extras| ==> extras[i] < steps[|steps| - 1] as real / 100.0
    ensures Built(steps, extras).1 == []
    decreases |steps|
  {
    var n := BelowCount(extras, steps[0] as real / 100.0);
    var rest := extras[n..];
    assert steps[0..] == steps;
    BuiltNext(steps, 0, extras, extras[..n], rest);
    if |steps| == 1 {
      assert n == |extras|;
      assert steps[1..] == [];
    } else {
      assert steps[1..][|steps[1..]| - 1] == steps[|steps| - 1];
      forall i | 0 <= i < |rest| ensures rest[i] < steps[1..][|steps[1..]| - 1] as real / 100.0 {
        assert rest[i] == extras[n + i];
      }
      ExtrasConsumed(steps[1..], rest);
    }
  }

  /** The default extras ascend, lie above 0 and miss every step's factor. */
  lemma DefaultsSeparated()
    ensures Separated(Steps, DefaultExtras, 0.0)
    ensures Steps != [] && forall i :: 0 <= i < |DefaultExtras| ==> DefaultExtras[i] < Steps[|Steps| - 1] as real / 100.0
  {
    StepsShape();
    var d := DefaultExtras;
    assert |d| == 4 && d[0] == 0.10 && d[1] == 0.15 && d[2] == 0.6666666 && d[3] == 1.3333333;
    assert Increasing(d);
    forall j | 0 <= j < |Steps| ensures Steps[j] as real / 100.0 > 0.0 && Steps[j] == 25 + 25 * j {
    }
    forall i, j | 0 <= i < |d| && 0 <= j < |Steps| ensures d[i] != Steps[j] as real / 100.0 {
      assert Steps[j] == 25 + 25 * j;
    }
  }

  /**
   * The first box built from the module's default extras: its data rise
   * strictly (0.10, 0.15, 0.25, 0.5, 0.6666666, 0.75, 1.0, ...), it takes
   * every default extra, and a second box therefore shows only the steps.
   */
  lemma DefaultBoxes()
    ensures Increasing(Data(Built(Steps, DefaultExtras).0))
    ensures ExtrasOf(Built(Steps, DefaultExtras).0) == DefaultExtras
    ensures Built(Steps, DefaultExtras).1 == []
    ensures ExtrasOf(Built(Steps, Built(Steps, DefaultExtras).1).0) == []
  {
    DefaultsSeparated();
    SeparatedBoxes(Steps, DefaultExtras);
  }

  /**
   * Separated steps and positive extras that all lie below the last step:
   * the first box rises strictly and takes every extra, the second has none.
   */
  lemma SeparatedBoxes(steps: seq<int>, extras: seq<real>)
    requires Separated(steps, extras, 0.0) && steps != []
    requires forall i :: 0 <= i < |extras| ==> extras[i] < steps[|steps| - 1] as real / 100.0
    ensures Increasing(Data(Built(steps, extras).0))
    ensures ExtrasOf(Built(steps, extras).0) == extras
    ensures Built(steps, extras).1 == []
    ensures ExtrasOf(Built(steps, Built(steps, extras).1).0) == []
  {
    BuiltIncreasing(steps, extras, 0.0);
    ExtrasConsumed(steps, extras);
    BuiltPartition(steps, extras);
    assert ExtrasOf(Built(steps, extras).0) + [] == ExtrasOf(Built(steps, extras).0);
    NoExtrasOnlySteps(steps);
  }

  /** `findData(value)`: the first item whose data equals `value`, or -1. */
  function FindData(items: seq<Item>, value: real): (i: int)
    ensures -1 <= i < |items|
    ensures i >= 0 ==> items[i].data == value && forall j :: 0 <= j < i ==> items[j].data != value
    ensures i == -1 ==> forall j :: 0 <= j < |items| ==> items[j].data != value
  {
    if items == [] then -1
    else if items[0].data == value then 0
    else
      var j := FindData(items[1..], value);
      if j < 0 then -1 else j + 1
  }

  /** One step of `Built` over the steps from `i` on, unfolded. */
  lemma BuiltNext(steps: seq<int>, i: nat, before: seq<real>, popped: seq<real>, after: seq<real>)
    requires i < |steps|
    requires popped == before[..BelowCount(before, steps[i] as real / 100.0)]
    requires after == before[BelowCount(before, steps[i] as real / 100.0)..]
    ensures Built(steps[i..], before) ==
            (ExtraItems(popped) + [StepItem(steps[i])] + Built(steps[i + 1..], after).0, Built(steps[i + 1..], after).1)
  {
    assert steps[i..][0] == steps[i] && steps[i..][1..] == steps[i + 1..];
  }

  /**
   * `reset` lands on the 100 % step whenever 100 is one of the steps and no
   * extra factor is exactly 1.0.
   */
  lemma ResetSelectsHundred(steps: seq<int>, extras: seq<real>)
    requires 100 in steps
    requires 1.0 !in extras
    ensures var items := Built(steps, extras).0;
            0 <= FindData(items, 1.0) && items[FindData(items, 1.0)] == StepItem(100)
  {
    var items := Built(steps, extras).0;
    BuiltMembers(steps, extras);
    assert StepItem(100) in items;
    var k :| 0 <= k < |items| && items[k] == StepItem(100);
    assert items[k].data == 1.0;
    var i := FindData(items, 1.0);
    assert i >= 0;
    assert items[i].data == 1.0;
    if items[i].caption.StepLabel? {
      assert items[i] == StepItem(items[i].caption.percent);
      assert items[i].caption.percent == 100;
    }
  }

  /** The module-level `EXTRA_SIZE_FACTORS` list, shared by every box. */
  class ExtraFactors {
    var factors: seq<real>

    constructor (factors: seq<real>)
      ensures this.factors == factors
    {
      this.factors := factors;
    }
  }

  class ViewerSizeBox {
    var items: seq<Item>
    var currentIndex: int

    /** `__init__`: pops the extras it uses from the shared list. */
    constructor (extras: ExtraFactors)
      modifies extras
      ensures items == Built(Steps, old(extras.factors)).0
      ensures extras.factors == Built(Steps, old(extras.factors)).1
      ensures currentIndex == if items == [] then -1 else 0
    {
      var list := AddSteps(extras, Steps);
      items := list;
      currentIndex := if list == [] then -1 else 0;
    }

    /** `reset`: select the item whose data is 1.0. */
    method Reset()
      modifies this
      ensures currentIndex == FindData(items, 1.0) && items == old(items)
    {
      currentIndex := FindData(items, 1.0);
    }
  }

  /** The `for` loop of `__init__`: each step's smaller extras, then the step. */
  method AddSteps(extras: ExtraFactors, steps: seq<int>) returns (list: seq<Item>)
    modifies extras
    ensures list == Built(steps, old(extras.factors)).0
    ensures extras.factors == Built(steps, old(extras.factors)).1
  {
    list := [];
    var i := 0;
    while i < |steps|
      invariant 0 <= i <= |steps|
      invariant list + Built(steps[i..], extras.factors).0 == Built(steps, old(extras.factors)).0
      invariant Built(steps[i..], extras.factors).1 == Built(steps, old(extras.factors)).1
    {
      var s := steps[i];
      ghost var before := extras.factors;
      var popped := PopExtrasBelow(extras, s as real / 100.0);
      BuiltNext(steps, i, before, popped, extras.factors);
      var head := ExtraItems(popped) + [StepItem(s)];
      assert (list + head) + Built(steps[i + 1..], extras.factors).0 == list + (head + Built(steps[i + 1..], extras.factors).0);
      list := list + head;
      i := i + 1;
    }
    assert steps[i..] == [];
  }

  /** The inner `while` of `__init__`: pop the leading extras below `bound` from the shared list. */
  method PopExtrasBelow(extras: ExtraFactors, bound: real) returns (popped: seq<real>)
    modifies extras
    ensures popped == old(extras.factors)[..BelowCount(old(extras.factors), bound)]
    ensures extras.factors == old(extras.factors)[BelowCount(old(extras.factors), bound)..]
  {
    popped := [];
    var rest := extras.factors;
    ghost var whole := rest;
    ghost var n := BelowCount(whole, bound);
    while rest != [] && bound > rest[0]
      invariant popped + rest == whole
      invariant |popped| + BelowCount(rest, bound) == n
      decreases |rest|
    {
      assert BelowCount(rest, bound) == 1 + BelowCount(rest[1..], bound);
      assert rest == [rest[0]] + rest[1..];
      assert (popped + [rest[0]]) + rest[1..] == popped + ([rest[0]] + rest[1..]);
      popped := popped + [rest[0]];
      rest := rest[1..];
    }
    assert |popped| == n;
    assert popped == whole[..n] && rest == whole[n..];
    extras.factors := rest;
  }
}
