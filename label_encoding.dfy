/**
  scikit-learn's LabelEncoder as the training script uses it: `fit` keeps the
  sorted distinct values of a column as `classes`, `transform` maps a value to
  its index in `classes` and fails on a value it has not seen, and
  `inverse_transform` maps an index back to its value.
 */
module LabelEncoding {
  import opened Wrappers
  import opened Strings

  /** A fitted encoder is its `classes_` array. */
  datatype Encoder = Encoder(classes: seq<string>)

  /** `classes` as `fit` leaves it: strictly increasing, so without duplicates. */
  predicate Fitted(e: Encoder) {
    StrictlySorted(e.classes)
  }

  /** Adds one value to a strictly sorted sequence of distinct values. */
  function Insert(sorted: seq<string>, x: string): (r: seq<string>)
    requires StrictlySorted(sorted)
    ensures StrictlySorted(r)
    ensures forall y {:trigger y in r} :: y in r <==> y in sorted || y == x
    decreases |sorted|
  {
    if |sorted| == 0 then [x]
    else if x == sorted[0] then sorted
    else if Less(x, sorted[0]) then
      assert forall j :: 0 < j < |sorted| ==> Less(sorted[0], sorted[j]);
      LessTransitivity(x, sorted[0], sorted);
      [x] + sorted
    else
      var rest := Insert(sorted[1..], x);
      LessTotal(x, sorted[0]);
      assert forall y :: y in rest ==> Less(sorted[0], y) by {
        forall y | y in rest ensures Less(sorted[0], y) {
          if y != x {
            var j :| 0 <= j < |sorted[1..]| && sorted[1..][j] == y;
            assert sorted[j + 1] == y;
          }
        }
      }
      [sorted[0]] + rest
  }

  /** Helper for Insert: a value below the head is below every element. */
  lemma LessTransitivity(x: string, head: string, sorted: seq<string>)
    requires |sorted| > 0 && head == sorted[0] && StrictlySorted(sorted) && Less(x, head)
    ensures forall j :: 0 <= j < |sorted| ==> Less(x, sorted[j])
  {
    forall j | 0 < j < |sorted| ensures Less(x, sorted[j]) {
      LessTransitive(x, sorted[0], sorted[j]);
    }
  }

  /**
    LabelEncoder.fit: the classes are the sorted distinct values of the column.
   */
  function Fit(column: seq<string>): (e: Encoder)
    ensures Fitted(e)
    ensures forall v {:trigger v in e.classes} :: v in e.classes <==> v in column
  {
    if |column| == 0 then Encoder([])
    else Encoder(Insert(Fit(column[..|column| - 1]).classes, column[|column| - 1]))
  }

  /** The position of a value in a sequence, if it occurs. */
  function IndexOf(xs: seq<string>, v: string): (r: Option<nat>)
    ensures r.Some? <==> v in xs
    ensures r.Some? ==> r.value < |xs| && xs[r.value] == v
  {
    if |xs| == 0 then None
    else if xs[0] == v then Some(0)
    else match IndexOf(xs[1..], v)
      case None => None
      case Some(i) => Some(i + 1)
  }

  /**
    LabelEncoder.transform on one value: its code, or None where scikit-learn
    raises "y contains previously unseen labels".
   */
  function Transform(e: Encoder, v: string): (code: Option<nat>)
    ensures code.Some? <==> v in e.classes
    ensures code.Some? ==> code.value < |e.classes| && e.classes[code.value] == v
  {
    IndexOf(e.classes, v)
  }

  /** LabelEncoder.inverse_transform on one code; None for a code out of range. */
  function InverseTransform(e: Encoder, code: nat): (v: Option<string>)
    ensures v.Some? <==> code < |e.classes|
    ensures v.Some? ==> v.value == e.classes[code]
  {
    if code < |e.classes| then Some(e.classes[code]) else None
  }

  /** LabelEncoder.fit_transform: the fitted encoder and the code of every row. */
  function FitTransform(column: seq<string>): (r: (Encoder, seq<nat>))
    ensures r.0 == Fit(column) && |r.1| == |column|
    ensures forall i {:trigger r.1[i]} :: 0 <= i < |column| ==> Transform(r.0, column[i]) == Some(r.1[i])
  {
    var e := Fit(column);
    (e, seq(|column|, i requires 0 <= i < |column| => Transform(e, column[i]).value))
  }

  /** Decoding an encoded value gives the value back. */
  lemma DecodeEncode(e: Encoder, v: string)
    requires v in e.classes
    ensures Transform(e, v).Some? && InverseTransform(e, Transform(e, v).value) == Some(v)
  {
  }

  /** On a fitted encoder, encoding a decoded code gives the code back. */
  lemma EncodeDecode(e: Encoder, code: nat)
    requires Fitted(e) && code < |e.classes|
    ensures Transform(e, e.classes[code]) == Some(code)
  {
    StrictlySortedDistinct(e.classes, Transform(e, e.classes[code]).value, code);
  }

  /**
    Every row of the fitted column gets a code below the number of classes, and
    decoding the code gives the row's value back.
   */
  lemma FitTransformCodes(column: seq<string>, i: nat)
    requires i < |column|
    ensures var (e, codes) := FitTransform(column);
      codes[i] < |e.classes| && e.classes[codes[i]] == column[i]
  {
  }

  /** Two rows get the same code exactly when they hold the same value. */
  lemma {:induction false} FitTransformInjective(column: seq<string>, i: nat, j: nat)
    requires i < |column| && j < |column|
    ensures var codes := FitTransform(column).1;
      codes[i] == codes[j] <==> column[i] == column[j]
  {
    var (e, codes) := FitTransform(column);
    assert Transform(e, column[i]) == Some(codes[i]);
    assert Transform(e, column[j]) == Some(codes[j]);
    if column[i] == column[j] {
      assert codes[i] == codes[j];
    }
  }

  /** Codes follow the string order of the values they encode. */
  lemma {:induction false} FitTransformOrdered(column: seq<string>, i: nat, j: nat)
    requires i < |column| && j < |column|
    ensures var codes := FitTransform(column).1;
      codes[i] < codes[j] <==> Less(column[i], column[j])
  {
    var (e, codes) := FitTransform(column);
    assert Transform(e, column[i]) == Some(codes[i]);
    assert Transform(e, column[j]) == Some(codes[j]);
    if codes[i] < codes[j] {
      assert Less(e.classes[codes[i]], e.classes[codes[j]]);
    }
    if Less(column[i], column[j]) {
      if codes[j] < codes[i] {
        assert Less(e.classes[codes[j]], e.classes[codes[i]]);
        LessAsymmetric(column[i], column[j]);
      } else if codes[i] == codes[j] {
        LessIrreflexive(column[i]);
      }
    }
  }

  /**
    The classes are THE sorted distinct values of the column: any strictly
    increasing sequence holding exactly the column's values equals them.
   */
  lemma {:induction false} SortedDistinctIsUnique(xs: seq<string>, ys: seq<string>)
    requires StrictlySorted(xs) && StrictlySorted(ys)
    requires forall v :: v in xs <==> v in ys
    ensures xs == ys
    decreases |xs|
  {
    if |xs| > 0 {
      assert xs[0] in ys;
    }
    if |ys| > 0 {
      assert ys[0] in xs;
    }
    if |xs| > 0 && |ys| > 0 {
      HeadIsLeast(xs, ys[0]);
      HeadIsLeast(ys, xs[0]);
      if xs[0] != ys[0] {
        LessAsymmetric(xs[0], ys[0]);
      }
      assert xs == [xs[0]] + xs[1..] && ys == [ys[0]] + ys[1..];
      forall v ensures v in xs[1..] <==> v in ys[1..] {
        if v in xs[1..] {
          var j :| 0 <= j < |xs[1..]| && xs[1..][j] == v;
          assert Less(xs[0], xs[j + 1]);
          LessIrreflexive(v);
          assert v in ys && v != ys[0];
          var k :| 0 <= k < |ys| && ys[k] == v;
          assert ys[1..][k - 1] == v;
        }
        if v in ys[1..] {
          var j :| 0 <= j < |ys[1..]| && ys[1..][j] == v;
          assert Less(ys[0], ys[j + 1]);
          LessIrreflexive(v);
          assert v in xs && v != xs[0];
          var k :| 0 <= k < |xs| && xs[k] == v;
          assert xs[1..][k - 1] == v;
        }
      }
      SortedDistinctIsUnique(xs[1..], ys[1..]);
    }
  }

  /** Helper: the head of a strictly sorted sequence is at or below each member. */
  lemma HeadIsLeast(xs: seq<string>, v: string)
    requires StrictlySorted(xs) && |xs| > 0 && v in xs
    ensures v == xs[0] || Less(xs[0], v)
  {
  }

  /** A column seen at fit time never fails to encode. */
  lemma FitCoversColumn(column: seq<string>, v: string)
    requires v in column
    ensures Transform(Fit(column), v).Some?
  {
  }

  /**
    A gender encoder: four values, coded 0..3 in string order,
    with "Prefer not to say" the last.
   */
  lemma GenderExample()
    ensures Fit(["Male", "Female", "Prefer not to say", "Other", "Female"]).classes
      == ["Female", "Male", "Other", "Prefer not to say"]
    ensures Transform(Fit(["Male", "Female", "Prefer not to say", "Other", "Female"]), "Prefer not to say") == Some(3)
  {
    var column := ["Male", "Female", "Prefer not to say", "Other", "Female"];
    var sorted := ["Female", "Male", "Other", "Prefer not to say"];
    assert Less("Female", "Male");
    assert Less("Male", "Other");
    assert Less("Other", "Prefer not to say");
    LessTransitive("Female", "Male", "Other");
    LessTransitive("Female", "Other", "Prefer not to say");
    LessTransitive("Male", "Other", "Prefer not to say");
    assert StrictlySorted(sorted);
    SortedDistinctIsUnique(Fit(column).classes, sorted);
  }
}
