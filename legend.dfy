/** The map legend built by legend.onAdd in static/js/logic.js: one coloured swatch and one label per
    grade, appended in grade order to the legend's HTML. The DOM element itself is modelled by the
    concatenation of the fragments assigned to its innerHTML, which starts empty. */
module Legend {
  import opened Text
  import opened Encoder

  /** The grades the legend enumerates, 0 to 5: grade i sits at index i. */
  const DefaultGrades: seq<int> := seq(6, i => i)

  /** One legend line: the swatch colour and the text after the swatch. */
  datatype Entry = Entry(swatch: string, caption: string)

  /** JavaScript truthiness of grades[i + 1]: undefined past the end of the array, and the number 0,
      are falsy; every other number is truthy. */
  predicate NextIsTruthy(grades: seq<int>, i: nat) {
    i + 1 < |grades| && grades[i + 1] != 0
  }

  /** The legend line of grade i: the colour getColor gives to one more than the grade, then the grade
      followed by an en dash and the next grade, or by a plus sign when there is no next grade. */
  function EntryAt(grades: seq<int>, i: nat): (e: Entry)
    requires i < |grades|
    ensures e.swatch in Ladder
    ensures IntToString(grades[i]) <= e.caption
    ensures NextIsTruthy(grades, i) ==> |e.caption| > 4 && e.caption[|e.caption| - 4..] == "<br>"
    ensures !NextIsTruthy(grades, i) ==> e.caption == IntToString(grades[i]) + "+"
  {
    var tail := if NextIsTruthy(grades, i) then "&ndash;" + IntToString(grades[i + 1]) + "<br>" else "+";
    Entry(Color((grades[i] + 1) as real), IntToString(grades[i]) + tail)
  }

  /** The legend lines of all grades, in grade order. */
  function Entries(grades: seq<int>): (es: seq<Entry>)
    ensures |es| == |grades|
  {
    seq(|grades|, i requires 0 <= i < |grades| => EntryAt(grades, i))
  }

  /** The markup one iteration of the loop appends. */
  function EntryHtml(e: Entry): string {
    "<i style=\"background:" + e.swatch + "\"></i> " + e.caption
  }

  /** The markup of the first n legend lines, appended from first to last. */
  function Html(es: seq<Entry>, n: nat): string
    requires n <= |es|
  {
    if n == 0 then "" else Html(es, n - 1) + EntryHtml(es[n - 1])
  }

  /** legend.onAdd: the loop over the grades, each iteration appending the markup of one line to the
      legend's innerHTML. */
  method OnAdd(grades: seq<int>) returns (html: string)
    ensures html == Html(Entries(grades), |grades|)
  {
    html := "";
    var i := 0;
    while i < |grades|
      invariant 0 <= i <= |grades|
      invariant html == Html(Entries(grades), i)
    {
      var tail := if NextIsTruthy(grades, i) then "&ndash;" + IntToString(grades[i + 1]) + "<br>" else "+";
      var swatch := Color((grades[i] + 1) as real);
      var text := IntToString(grades[i]) + tail;
      LoopStep(grades, i, swatch, text);
      html := html + ("<i style=\"background:" + swatch + "\"></i> " + text);
      i := i + 1;
    }
  }

  /** One iteration of OnAdd appends the markup of the legend line of grade i. */
  lemma LoopStep(grades: seq<int>, i: nat, swatch: string, text: string)
    requires i < |grades|
    requires swatch == EntryAt(grades, i).swatch && text == EntryAt(grades, i).caption
    ensures Html(Entries(grades), i + 1)
      == Html(Entries(grades), i) + ("<i style=\"background:" + swatch + "\"></i> " + text)
  {
    assert Entries(grades)[i] == Entry(swatch, text);
  }

  /** The legend line of default grade i. */
  lemma DefaultEntry(i: nat)
    requires i < |DefaultGrades|
    ensures Entries(DefaultGrades)[i].swatch == Ladder[i]
    ensures i < |DefaultGrades| - 1 ==>
      Entries(DefaultGrades)[i].caption == IntToString(i) + "&ndash;" + IntToString(i + 1) + "<br>"
    ensures i == |DefaultGrades| - 1 ==> Entries(DefaultGrades)[i].caption == IntToString(i) + "+"
  {
    assert DefaultGrades[i] == i;
    assert NextIsTruthy(DefaultGrades, i) <==> i < |DefaultGrades| - 1;
    var e := EntryAt(DefaultGrades, i);
    assert Entries(DefaultGrades)[i] == e;
    ColorOfBucket((i + 1) as real);
    assert Bucket((i + 1) as real) == i by {
      BucketsPartition((i + 1) as real, i);
    }
  }

  /** The legend has six lines in grade order 0..5, whose swatches run through the colour ladder from
      lightest to darkest. */
  lemma DefaultSwatches()
    ensures |Entries(DefaultGrades)| == |Ladder|
    ensures forall i :: 0 <= i < |Ladder| ==> Entries(DefaultGrades)[i].swatch == Ladder[i]
  {
  }

  /** The default grades are the list [0, 1, 2, 3, 4, 5]. */
  lemma DefaultGradesList()
    ensures DefaultGrades == [0, 1, 2, 3, 4, 5]
  {
  }

  /** The captions of the default legend, line by line. */
  const DefaultCaptions: seq<string> :=
    ["0&ndash;1<br>", "1&ndash;2<br>", "2&ndash;3<br>", "3&ndash;4<br>", "4&ndash;5<br>", "5+"]

  /** Each default caption is the text the loop concatenates for its grade. */
  lemma DefaultCaptionTexts()
    ensures DefaultCaptions[0] == IntToString(0) + "&ndash;" + IntToString(1) + "<br>"
    ensures DefaultCaptions[1] == IntToString(1) + "&ndash;" + IntToString(2) + "<br>"
    ensures DefaultCaptions[2] == IntToString(2) + "&ndash;" + IntToString(3) + "<br>"
    ensures DefaultCaptions[3] == IntToString(3) + "&ndash;" + IntToString(4) + "<br>"
    ensures DefaultCaptions[4] == IntToString(4) + "&ndash;" + IntToString(5) + "<br>"
    ensures DefaultCaptions[5] == IntToString(5) + "+"
  {
    SmallIntTexts();
  }

  /** The default captions in the shape of the loop's concatenation, for any index. */
  lemma DefaultCaptionForm()
    ensures forall i :: 0 <= i < |DefaultCaptions| - 1 ==>
      DefaultCaptions[i] == IntToString(i) + "&ndash;" + IntToString(i + 1) + "<br>"
    ensures DefaultCaptions[|DefaultCaptions| - 1] == IntToString(|DefaultCaptions| - 1) + "+"
  {
    DefaultCaptionTexts();
  }

  /** Lines 0 to 4 of the legend read "0&ndash;1<br>" to "4&ndash;5<br>", and the last line reads
      "5+" because grades[6] is undefined. */
  lemma DefaultCaptionLines()
    ensures |Entries(DefaultGrades)| == |DefaultCaptions|
    ensures forall i :: 0 <= i < |DefaultGrades| ==> Entries(DefaultGrades)[i].caption == DefaultCaptions[i]
  {
    DefaultCaptionForm();
    forall i | 0 <= i < |DefaultGrades| ensures Entries(DefaultGrades)[i].caption == DefaultCaptions[i] {
      DefaultEntry(i);
    }
  }

  /** The legend swatch of grade g is the colour getColor gives every magnitude in (g, g + 1]: the
      ladder's thresholds are integers and its tests strict. */
  lemma SwatchMatchesInterval(grades: seq<int>, i: nat, m: real)
    requires i < |grades|
    requires (grades[i] as real) < m <= (grades[i] + 1) as real
    ensures Color(m) == Entries(grades)[i].swatch
  {
    ColorConstantBetweenIntegers(grades[i], m);
  }

  /** With the default grades, a magnitude gets the swatch of line i exactly when it lies in bucket
      i: the legend lists every colour a marker can have, each at the place of its interval. In
      particular the first swatch covers every magnitude up to 1 and the last every magnitude above 5. */
  lemma LegendAgreesWithMarkers(m: real, i: nat)
    requires i < |Ladder|
    ensures Color(m) == Entries(DefaultGrades)[i].swatch <==> InBucket(i, m)
  {
  }
}
