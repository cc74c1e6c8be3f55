/**
 * `ParseButtons` of the sending form: the text of the buttons box, a comma-separated
 * list, becomes at most ten trimmed, non-empty button labels.
 */
module Buttons {
  import opened Wrappers
  import opened Text

  const MaxButtons: nat := 10

  /** `string.IsNullOrWhiteSpace`, with `None` standing for a null string. */
  predicate IsNullOrWhiteSpace(raw: Option<string>) {
    raw.None? || AllWhiteSpace(raw.value)
  }

  /** `.Select(x => x.Trim())` */
  function TrimAll(fields: seq<string>): seq<string> {
    seq(|fields|, k requires 0 <= k < |fields| => Trim(fields[k]))
  }

  /** `.Where(x => x.Length > 0)`: the non-empty strings, in their original order. */
  function NonEmpty(ss: seq<string>): (r: seq<string>)
    ensures |r| <= |ss|
    ensures forall k :: 0 <= k < |r| ==> r[k] != [] && r[k] in ss
  {
    if ss == [] then []
    else if ss[0] == [] then NonEmpty(ss[1..])
    else [ss[0]] + NonEmpty(ss[1..])
  }

  /** Every non-empty trimmed comma-separated field of `s`, in input order. */
  function Labels(s: string): seq<string> {
    NonEmpty(TrimAll(Split(s, ',')))
  }

  /** Each label is a non-empty, trimmed piece of text holding no comma. */
  lemma LabelsShape(s: string)
    ensures forall k :: 0 <= k < |Labels(s)| ==>
              Labels(s)[k] != [] && IsTrimmed(Labels(s)[k]) && ',' !in Labels(s)[k]
  {
    var fields := Split(s, ',');
    var labels := Labels(s);
    forall k | 0 <= k < |labels|
      ensures IsTrimmed(labels[k]) && ',' !in labels[k]
    {
      var j :| 0 <= j < |fields| && TrimAll(fields)[j] == labels[k];
      if ',' in labels[k] {
        TrimChars(fields[j], ',');
      }
    }
  }

  /**
   * `ParseButtons(raw)`: nothing for a null or blank text, otherwise the first ten
   * labels. At most ten come out, and each is non-empty, trimmed and free of commas.
   */
  function ParseButtons(raw: Option<string>): (buttons: seq<string>)
    ensures |buttons| <= MaxButtons
    ensures forall k :: 0 <= k < |buttons| ==>
              buttons[k] != [] && IsTrimmed(buttons[k]) && ',' !in buttons[k]
  {
    if IsNullOrWhiteSpace(raw) then []
    else
      LabelsShape(raw.value);
      Take(Labels(raw.value), MaxButtons)
  }

  lemma {:induction false} NonEmptyOfBlanks(ss: seq<string>)
    requires forall k :: 0 <= k < |ss| ==> ss[k] == []
    ensures NonEmpty(ss) == []
  {
    if ss != [] {
      NonEmptyOfBlanks(ss[1..]);
    }
  }

  lemma {:induction false} NonEmptyKeepsAll(ss: seq<string>)
    requires forall k :: 0 <= k < |ss| ==> ss[k] != []
    ensures NonEmpty(ss) == ss
  {
    if ss != [] {
      NonEmptyKeepsAll(ss[1..]);
      assert ss == [ss[0]] + ss[1..];
    }
  }

  lemma {:induction false} NonEmptyAppend(a: seq<string>, b: seq<string>)
    ensures NonEmpty(a + b) == NonEmpty(a) + NonEmpty(b)
  {
    if a == [] {
      assert a + b == b;
    } else {
      assert (a + b)[0] == a[0] && (a + b)[1..] == a[1..] + b;
      NonEmptyAppend(a[1..], b);
    }
  }

  /** A blank text has no labels, so the `IsNullOrWhiteSpace` test only short-cuts the pipeline. */
  lemma BlankHasNoLabels(s: string)
    requires AllWhiteSpace(s)
    ensures Labels(s) == []
  {
    var fields := Split(s, ',');
    forall k | 0 <= k < |fields| ensures Trim(fields[k]) == [] {
      forall i | 0 <= i < |fields[k]| ensures IsWhiteSpace(fields[k][i]) {
        SplitChars(s, ',', k, fields[k][i]);
      }
    }
    NonEmptyOfBlanks(TrimAll(fields));
  }

  /** For any non-null text, the result is the first ten labels, blank text included. */
  lemma ParseButtonsIsFirstLabels(s: string)
    ensures ParseButtons(Some(s)) == Take(Labels(s), MaxButtons)
  {
    if AllWhiteSpace(s) {
      BlankHasNoLabels(s);
    }
  }

  /**
   * Joining up to ten non-empty, trimmed, comma-free labels with commas and parsing
   * the text gives the same labels back, in the same order.
   */
  lemma ParseJoinedButtons(labels: seq<string>)
    requires |labels| <= MaxButtons
    requires forall k :: 0 <= k < |labels| ==> labels[k] != [] && IsTrimmed(labels[k]) && ',' !in labels[k]
    ensures ParseButtons(Some(Join(labels, ","))) == labels
  {
    var s := Join(labels, ",");
    ParseButtonsIsFirstLabels(s);
    LabelsOfJoin(labels);
    assert Take(labels, MaxButtons) == labels;
  }

  lemma LabelsOfJoin(labels: seq<string>)
    requires forall k :: 0 <= k < |labels| ==> labels[k] != [] && IsTrimmed(labels[k]) && ',' !in labels[k]
    ensures Labels(Join(labels, ",")) == labels
  {
    if labels == [] {
      assert Split("", ',') == [""];
      assert TrimAll([""]) == [""];
    } else {
      assert "," == [','];
      SplitJoin(labels, ',');
      TrimAllTrimmed(labels);
      NonEmptyKeepsAll(labels);
    }
  }

  lemma TrimAllTrimmed(ss: seq<string>)
    requires forall k :: 0 <= k < |ss| ==> IsTrimmed(ss[k])
    ensures TrimAll(ss) == ss
  {
    forall k | 0 <= k < |ss| ensures Trim(ss[k]) == ss[k] {
      TrimTrimmed(ss[k]);
    }
  }

  /**
   * Once the text before a comma holds ten labels, whatever follows that comma is
   * ignored: the buttons are the first ten labels in input order.
   */
  lemma FieldsAfterTenthIgnored(s: string, t: string)
    requires |Labels(s)| >= MaxButtons
    ensures ParseButtons(Some(s + "," + t)) == ParseButtons(Some(s))
  {
    LabelsAtComma(s, t);
    ParseButtonsIsFirstLabels(s);
    ParseButtonsIsFirstLabels(s + "," + t);
    assert (Labels(s) + Labels(t))[..MaxButtons] == Labels(s)[..MaxButtons];
  }

  /** The labels on either side of a comma, in order. */
  lemma LabelsAtComma(s: string, t: string)
    ensures Labels(s + "," + t) == Labels(s) + Labels(t)
  {
    assert s + "," + t == s + [','] + t;
    SplitAtSeparator(s, t, ',');
    var a, b := Split(s, ','), Split(t, ',');
    TrimAllAppend(a, b);
    NonEmptyAppend(TrimAll(a), TrimAll(b));
  }

  lemma TrimAllAppend(a: seq<string>, b: seq<string>)
    ensures TrimAll(a + b) == TrimAll(a) + TrimAll(b)
  {
    var l, r := TrimAll(a + b), TrimAll(a) + TrimAll(b);
    assert |l| == |r|;
    forall k | 0 <= k < |l| ensures l[k] == r[k] {
      if k < |a| {
        assert (a + b)[k] == a[k];
      } else {
        assert (a + b)[k] == b[k - |a|];
      }
    }
  }

  /** The input "Да, Нет", shaped like the box's placeholder, gives the two buttons "Да" and "Нет". */
  lemma ParseYesNo()
    ensures ParseButtons(Some("Да, Нет")) == ["Да", "Нет"]
  {
    YesNoLabels();
    ParseButtonsIsFirstLabels("Да, Нет");
    assert Take(["Да", "Нет"], MaxButtons) == ["Да", "Нет"];
  }

  lemma YesNoLabels()
    ensures Labels("Да, Нет") == ["Да", "Нет"]
  {
    YesNoFields();
    YesNoTrimmed();
    NonEmptyKeepsAll(["Да", "Нет"]);
  }

  lemma YesNoTrimmed()
    ensures TrimAll(["Да", " Нет"]) == ["Да", "Нет"]
  {
    assert " Нет" == [' '] + "Нет";
    TrimSpacedPair("Да", "Нет");
  }

  lemma TrimSpacedPair(x: string, y: string)
    requires IsTrimmed(x) && IsTrimmed(y) && y != []
    ensures TrimAll([x, [' '] + y]) == [x, y]
  {
    var fields := [x, [' '] + y];
    var r := TrimAll(fields);
    assert r[0] == Trim(x) == x by { TrimTrimmed(x); }
    assert r[1] == Trim([' '] + y) == y by { TrimOneSpace(y); }
  }

  lemma YesNoFields()
    ensures Split("Да, Нет", ',') == ["Да", " Нет"]
  {
    var fields := ["Да", " Нет"];
    assert Join(fields, [',']) == "Да, Нет";
    SplitJoin(fields, ',');
  }

  lemma TrimOneSpace(s: string)
    requires s != [] && IsTrimmed(s)
    ensures Trim([' '] + s) == s
  {
    var t := [' '] + s;
    assert t[1..] == s;
    assert LeadingWhiteSpace(t) == 1;
    assert TrailingWhiteSpace(s) == 0;
  }
}
