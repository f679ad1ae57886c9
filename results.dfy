/** The prediction list under the input panel: a row per prediction whose percentage
    does not show as "0.00", coloured by the prediction's rank in the full list. */
module ResultPanel {
  import Numerals

  /** One ranked class from the prediction service. `hundredths` is the confidence
      as a percentage rounded to two decimals, counted in hundredths of a percent:
      exactly the digits that `(confidence * 100).toFixed(2)` shows. */
  datatype Prediction = Prediction(className: string, hundredths: nat, classId: string)

  /** A visible result button: the prediction it shows and the position that
      prediction has in the full list. Its caption, colour and the class it looks
      up follow from these two. */
  datatype ResultRow = ResultRow(index: nat, prediction: Prediction) {
    /** `{pred.class}: {confidencePercentage}%` */
    function Caption(): string {
      prediction.className + ": " + PercentText(prediction) + "%"
    }

    function Background(): string {
      Color(index)
    }

    /** The class id the button's click handler asks about. */
    function ClassId(): string {
      prediction.classId
    }
  }

  const Palette: seq<string> := ["bg-green-200", "bg-blue-200", "bg-yellow-200", "bg-purple-200", "bg-red-200"]
  const FallbackColor := "bg-gray-100"
  const ZeroPercent := "0.00"

  /** `colors[index] || "bg-gray-100"`. */
  function Color(index: nat): (c: string)
    ensures index < |Palette| ==> c == Palette[index]
    ensures index >= |Palette| ==> c == FallbackColor
  {
    if index < |Palette| && Palette[index] != "" then Palette[index] else FallbackColor
  }

  function PercentText(p: Prediction): string {
    Numerals.PercentText(p.hundredths)
  }

  /** The source skips a prediction whose two-decimal percentage text is "0.00". */
  predicate Hidden(p: Prediction) {
    PercentText(p) == ZeroPercent
  }

  /** The caption names the class, then ": ", then a two-decimal percentage that
      reads back as the prediction's hundredths, then "%". */
  lemma CaptionShowsPercent(row: ResultRow)
    ensures var p := row.prediction;
            var c := row.Caption();
            var n := |p.className|;
            n + 7 <= |c| && c[..n] == p.className && c[n..n + 2] == ": " && c[|c| - 1] == '%' &&
            Numerals.PercentShaped(c[n + 2..|c| - 1]) &&
            Numerals.ParsePercent(c[n + 2..|c| - 1]) == p.hundredths
  {
    var p := row.prediction;
    var c := row.Caption();
    var n := |p.className|;
    assert c[n + 2..|c| - 1] == PercentText(p);
    Numerals.ParsePercentText(p.hundredths);
  }

  /** A prediction is hidden exactly when its rounded percentage is zero. */
  lemma HiddenIffZero(p: Prediction)
    ensures Hidden(p) <==> p.hundredths == 0
  {
    Numerals.PercentTextZero(p.hundredths);
  }

  /** The rows for `preds`, whose first element has rank `offset` in the full list,
      skipping those that `hidden` holds of, in increasing order of rank. */
  function RowsFrom(preds: seq<Prediction>, offset: nat, hidden: Prediction -> bool): (rows: seq<ResultRow>)
    ensures |rows| <= |preds|
    ensures forall j :: 0 <= j < |rows| ==> offset <= rows[j].index < offset + |preds|
    ensures forall j, k :: 0 <= j < k < |rows| ==> rows[j].index < rows[k].index
    decreases |preds|
  {
    if preds == [] then []
    else
      (if hidden(preds[0]) then [] else [ResultRow(offset, preds[0])]) + RowsFrom(preds[1..], offset + 1, hidden)
  }

  /** Row `j` comes from the prediction at position `i`, which is not hidden. */
  lemma {:induction false} RowsFromSound(preds: seq<Prediction>, offset: nat, hidden: Prediction -> bool, j: nat)
    returns (i: nat)
    requires j < |RowsFrom(preds, offset, hidden)|
    ensures i < |preds| && !hidden(preds[i])
    ensures RowsFrom(preds, offset, hidden)[j] == ResultRow(offset + i, preds[i])
    decreases |preds|
  {
    var head := if hidden(preds[0]) then [] else [ResultRow(offset, preds[0])];
    var tail := RowsFrom(preds[1..], offset + 1, hidden);
    assert RowsFrom(preds, offset, hidden) == head + tail;
    if j < |head| {
      i := 0;
    } else {
      var k := RowsFromSound(preds[1..], offset + 1, hidden, j - |head|);
      i := k + 1;
      assert preds[1..][k] == preds[i];
    }
  }

  /** The prediction at position `i`, if not hidden, has a row. */
  lemma {:induction false} RowsFromComplete(preds: seq<Prediction>, offset: nat, hidden: Prediction -> bool, i: nat)
    returns (j: nat)
    requires i < |preds| && !hidden(preds[i])
    ensures j < |RowsFrom(preds, offset, hidden)| && RowsFrom(preds, offset, hidden)[j].index == offset + i
    decreases |preds|
  {
    var head := if hidden(preds[0]) then [] else [ResultRow(offset, preds[0])];
    var tail := RowsFrom(preds[1..], offset + 1, hidden);
    assert RowsFrom(preds, offset, hidden) == head + tail;
    if i == 0 {
      j := 0;
    } else {
      assert preds[1..][i - 1] == preds[i];
      var k := RowsFromComplete(preds[1..], offset + 1, hidden, i - 1);
      j := |head| + k;
    }
  }

  /** `predictions.map(...)`: the visible rows, in list order. */
  function ResultRows(preds: seq<Prediction>): (rows: seq<ResultRow>)
    ensures |rows| <= |preds|
    ensures forall j :: 0 <= j < |rows| ==> rows[j].index < |preds|
    ensures forall j, k :: 0 <= j < k < |rows| ==> rows[j].index < rows[k].index
  {
    RowsFrom(preds, 0, Hidden)
  }

  /** Every row belongs to a prediction that is not hidden, and carries that
      prediction's index in the full list (not its place among the visible rows)
      together with the colour for that index. */
  lemma ResultRowsSound(preds: seq<Prediction>)
    ensures forall j :: 0 <= j < |ResultRows(preds)| ==>
              var row := ResultRows(preds)[j];
              !Hidden(preds[row.index]) && row.prediction == preds[row.index] &&
              row.Background() == Color(row.index) && row.ClassId() == preds[row.index].classId
  {
    forall j | 0 <= j < |ResultRows(preds)|
      ensures var row := ResultRows(preds)[j];
              !Hidden(preds[row.index]) && row.prediction == preds[row.index] &&
              row.Background() == Color(row.index) && row.ClassId() == preds[row.index].classId
    {
      var i := RowsFromSound(preds, 0, Hidden, j);
      assert ResultRows(preds)[j].index == i;
    }
  }

  /** Every prediction that is not hidden has a row. */
  lemma ResultRowsComplete(preds: seq<Prediction>)
    ensures forall i :: 0 <= i < |preds| && !Hidden(preds[i]) ==>
              exists j :: 0 <= j < |ResultRows(preds)| && ResultRows(preds)[j].index == i
  {
    forall i | 0 <= i < |preds| && !Hidden(preds[i])
      ensures exists j :: 0 <= j < |ResultRows(preds)| && ResultRows(preds)[j].index == i
    {
      var j := RowsFromComplete(preds, 0, Hidden, i);
      assert ResultRows(preds)[j].index == i;
    }
  }

  /** A service that returns at most five predictions yields at most five rows, each
      in a distinct colour of the palette. */
  lemma TopFiveColors(preds: seq<Prediction>)
    requires |preds| <= |Palette|
    ensures |ResultRows(preds)| <= |Palette|
    ensures forall j :: 0 <= j < |ResultRows(preds)| ==> ResultRows(preds)[j].Background() in Palette
    ensures forall j, k :: 0 <= j < k < |ResultRows(preds)| ==>
              ResultRows(preds)[j].Background() != ResultRows(preds)[k].Background()
  {
  }

  /** A list with a 92% rose and a 0% lily shows only the rose, captioned
      "Rose: 92.00%", in the first colour. */
  lemma RoseAndLily()
    ensures var rows := ResultRows([Prediction("Rose", 9200, "r1"), Prediction("Lily", 0, "l1")]);
            rows == [ResultRow(0, Prediction("Rose", 9200, "r1"))] &&
            rows[0].Caption() == "Rose: 92.00%" && rows[0].Background() == "bg-green-200" &&
            rows[0].ClassId() == "r1"
  {
  }
}
