/** Axis and quantity labels: the `Labels` class of prysm/conf.py. A `Labels`
    holds only strings and is never changed by its own methods, so it is a
    value here; the display flag and the unit notation, which the source reads
    from the global configuration at each call, are explicit parameters. */
module Labelling {
  import opened Wrappers
  import opened Text
  import opened Units

  /** The label template, with the source's default arguments. */
  datatype Labels = Labels(
    xyBase: string,
    z: string,
    xyAdditions: seq<string> := ["X", "Y"],
    xyAdditionSide: string := "right",
    additionJoiner: string := " ",
    unitPrefix: string := "[",
    unitSuffix: string := "]",
    unitJoiner: string := " ")

  /** The pupil labels that the library ships as a default. */
  const PupilLabels := Labels("Pupil", "OPD", xyAdditions := ["ξ", "η"])

  /** The qualifier goes before the base for the sides "left" and "l", in any case. */
  predicate AttachesLeft(side: string) {
    Lower(side) in {"left", "l"}
  }

  /** The labels built from the in-plane base: those of "x" and "y". */
  predicate IsPlanar(kind: string) {
    kind == "x" || kind == "y"
  }

  /** Position of the axis qualifier in `xyAdditions`. */
  function AxisIndex(kind: string): nat {
    if kind == "x" then 0 else 1
  }

  /** The label text before the unit: for x and y the axis qualifier attached
      to the base on the configured side, for any other label the z text. */
  function Stem(labels: Labels, kind: string): Result<string> {
    if IsPlanar(kind) then
      var pos := AxisIndex(kind);
      if pos >= |labels.xyAdditions| then Err(IndexOutOfRange(pos))
      else if AttachesLeft(labels.xyAdditionSide) then
        Ok(labels.xyAdditions[pos] + labels.additionJoiner + labels.xyBase)
      else
        Ok(labels.xyBase + labels.additionJoiner + labels.xyAdditions[pos])
    else Ok(labels.z)
  }

  /** The unit a label shows: the in-plane unit for x and y, the z unit otherwise. */
  function LabelUnit(kind: string, xyUnit: Value, zUnit: Value): Value {
    if IsPlanar(kind) then xyUnit else zUnit
  }

  /** The bracketed unit, or nothing when units are hidden. */
  function UnitText(labels: Labels, unitStr: string, showUnits: bool): string {
    if showUnits then labels.unitPrefix + unitStr + labels.unitSuffix else ""
  }

  /** The label the factory produces: the stem, the unit joiner and the unit
      text, failing if the qualifier is missing or the unit cannot be
      rendered (even when the unit is then not shown). */
  function LabelSpec(labels: Labels, kind: string, xyUnit: Value, zUnit: Value,
                     fmt: string, showUnits: bool, render: Renderer): Result<string>
  {
    match Stem(labels, kind)
    case Err(e) => Err(e)
    case Ok(stem) =>
      match FormatUnit(LabelUnit(kind, xyUnit, zUnit), fmt, render)
      case Err(e) => Err(e)
      case Ok(unitStr) => Ok(stem + labels.unitJoiner + UnitText(labels, unitStr, showUnits))
  }

  /** `_label_factory`: assemble the list of label pieces, join them, render
      the unit and append it. */
  method LabelFactory(labels: Labels, kind: string, xyUnit: Value, zUnit: Value,
                      fmt: string, showUnits: bool, render: Renderer)
    returns (r: Result<string>)
    ensures r == LabelSpec(labels, kind, xyUnit, zUnit, fmt, showUnits, render)
  {
    var text: string;
    var unitStr: string;
    if kind == "x" || kind == "y" {
      var pos := if kind == "x" then 0 else 1;
      var basics := [labels.xyBase];
      if pos >= |labels.xyAdditions| {
        return Err(IndexOutOfRange(pos));
      }
      if AttachesLeft(labels.xyAdditionSide) {
        basics := [labels.xyAdditions[pos]] + basics;
      } else {
        basics := basics + [labels.xyAdditions[pos]];
      }
      JoinTwo(labels.additionJoiner, basics[0], basics[1]);
      text := Join(labels.additionJoiner, basics);
      var u := FormatUnit(xyUnit, fmt, render);
      if u.Err? {
        return Err(u.error);
      }
      unitStr := u.value;
    } else {
      text := labels.z;
      var u := FormatUnit(zUnit, fmt, render);
      if u.Err? {
        return Err(u.error);
      }
      unitStr := u.value;
    }
    var unitText := "";
    if showUnits {
      JoinThree(unitText, labels.unitPrefix, unitStr, labels.unitSuffix);
      assert labels.unitPrefix + "" + unitStr + "" + labels.unitSuffix
          == labels.unitPrefix + unitStr + labels.unitSuffix;
      unitText := Join(unitText, [labels.unitPrefix, unitStr, labels.unitSuffix]);
    }
    JoinTwo(labels.unitJoiner, text, unitText);
    text := Join(labels.unitJoiner, [text, unitText]);
    return Ok(text);
  }

  /** The x label. */
  method X(labels: Labels, xyUnit: Value, zUnit: Value, fmt: string, showUnits: bool,
           render: Renderer) returns (r: Result<string>)
    ensures r == LabelSpec(labels, "x", xyUnit, zUnit, fmt, showUnits, render)
  {
    r := LabelFactory(labels, "x", xyUnit, zUnit, fmt, showUnits, render);
  }

  /** The y label. */
  method Y(labels: Labels, xyUnit: Value, zUnit: Value, fmt: string, showUnits: bool,
           render: Renderer) returns (r: Result<string>)
    ensures r == LabelSpec(labels, "y", xyUnit, zUnit, fmt, showUnits, render)
  {
    r := LabelFactory(labels, "y", xyUnit, zUnit, fmt, showUnits, render);
  }

  /** The z label. */
  method Z(labels: Labels, xyUnit: Value, zUnit: Value, fmt: string, showUnits: bool,
           render: Renderer) returns (r: Result<string>)
    ensures r == LabelSpec(labels, "z", xyUnit, zUnit, fmt, showUnits, render)
  {
    r := LabelFactory(labels, "z", xyUnit, zUnit, fmt, showUnits, render);
  }

  /** `generic`: the base and the bracketed in-plane unit, shown whatever
      the display flag says. */
  function Generic(labels: Labels, xyUnit: Value, zUnit: Value, fmt: string,
                   render: Renderer): (r: Result<string>)
    ensures r.Ok? <==> !xyUnit.OtherValue?
  {
    match FormatUnit(xyUnit, fmt, render)
    case Err(e) => Err(e)
    case Ok(unit) =>
      Ok(labels.xyBase + labels.unitJoiner + labels.unitPrefix + unit + labels.unitSuffix)
  }

  /** The side test ignores case: the qualifier goes first exactly when the
      side spells "left" or "l" in any mixture of capitals. */
  lemma AttachesLeftIff(side: string)
    ensures AttachesLeft(side) <==> FoldsTo(side, "left") || FoldsTo(side, "l")
  {
    assert IsLowerCase("left") && IsLowerCase("l");
    LowerEqIff(side, "left");
    LowerEqIff(side, "l");
  }

  /** With units hidden the label is its stem followed by the unit joiner,
      and the unit's rendering does not matter. */
  lemma HiddenUnitsKeepTrailingJoiner(labels: Labels, kind: string, xyUnit: Value,
                                      zUnit: Value, fmt: string, render: Renderer,
                                      render': Renderer)
    ensures var r := LabelSpec(labels, kind, xyUnit, zUnit, fmt, false, render);
      (r.Ok? <==> Stem(labels, kind).Ok? && !LabelUnit(kind, xyUnit, zUnit).OtherValue?) &&
      (r.Ok? ==> r.value == Stem(labels, kind).value + labels.unitJoiner)
    ensures LabelSpec(labels, kind, xyUnit, zUnit, fmt, false, render)
         == LabelSpec(labels, kind, xyUnit, zUnit, fmt, false, render')
  {
  }

  /** With units shown the rendered unit follows the joiner, between the
      prefix and the suffix. */
  lemma ShownUnitsBracketed(labels: Labels, kind: string, xyUnit: Value, zUnit: Value,
                            fmt: string, render: Renderer)
    ensures var r := LabelSpec(labels, kind, xyUnit, zUnit, fmt, true, render);
      r.Ok? ==> r.value == Stem(labels, kind).value + labels.unitJoiner + labels.unitPrefix
                           + FormatUnit(LabelUnit(kind, xyUnit, zUnit), fmt, render).value
                           + labels.unitSuffix
  {
  }

  /** The display flag only decides whether the bracketed unit is appended:
      both settings fail on the same inputs, and otherwise the shown label is
      the hidden one extended by the unit text. */
  lemma ShowUnitsOnlyAppends(labels: Labels, kind: string, xyUnit: Value, zUnit: Value,
                             fmt: string, render: Renderer)
    ensures var shown := LabelSpec(labels, kind, xyUnit, zUnit, fmt, true, render);
      var hidden := LabelSpec(labels, kind, xyUnit, zUnit, fmt, false, render);
      (shown.Ok? <==> hidden.Ok?) &&
      (shown.Err? ==> shown == hidden) &&
      (shown.Ok? ==>
         shown.value == hidden.value + labels.unitPrefix
                        + FormatUnit(LabelUnit(kind, xyUnit, zUnit), fmt, render).value
                        + labels.unitSuffix)
  {
  }

  /** The unit is rendered even when it is not shown, so a value that is
      neither a unit nor a quantity makes every label fail. */
  lemma UnrenderableUnitFails(labels: Labels, kind: string, xyUnit: Value, zUnit: Value,
                              fmt: string, showUnits: bool, render: Renderer)
    requires LabelUnit(kind, xyUnit, zUnit).OtherValue?
    ensures LabelSpec(labels, kind, xyUnit, zUnit, fmt, showUnits, render).Err?
  {
  }

  /** The y label is the x label of a template whose two qualifiers are swapped. */
  lemma YIsXWithQualifiersSwapped(labels: Labels, xyUnit: Value, zUnit: Value, fmt: string,
                                  showUnits: bool, render: Renderer)
    requires |labels.xyAdditions| == 2
    ensures LabelSpec(labels, "y", xyUnit, zUnit, fmt, showUnits, render)
         == LabelSpec(labels.(xyAdditions := [labels.xyAdditions[1], labels.xyAdditions[0]]),
                      "x", xyUnit, zUnit, fmt, showUnits, render)
  {
  }

  /** Any label other than "x" and "y" is the z label, built from the z text
      and the z unit alone. */
  lemma OtherLabelsAreZ(labels: Labels, kind: string, xyUnit: Value, zUnit: Value,
                        fmt: string, showUnits: bool, render: Renderer,
                        xyBase: string, xyAdditions: seq<string>, side: string,
                        joiner: string, xyUnit': Value)
    requires !IsPlanar(kind)
    ensures LabelSpec(labels, kind, xyUnit, zUnit, fmt, showUnits, render)
         == LabelSpec(labels.(xyBase := xyBase, xyAdditions := xyAdditions,
                              xyAdditionSide := side, additionJoiner := joiner),
                      "z", xyUnit', zUnit, fmt, showUnits, render)
  {
  }

  /** The x and y labels do not depend on the z text or the z unit. */
  lemma PlanarLabelsIgnoreZ(labels: Labels, kind: string, xyUnit: Value, zUnit: Value,
                            fmt: string, showUnits: bool, render: Renderer,
                            z: string, zUnit': Value)
    requires IsPlanar(kind)
    ensures LabelSpec(labels, kind, xyUnit, zUnit, fmt, showUnits, render)
         == LabelSpec(labels.(z := z), kind, xyUnit, zUnit', fmt, showUnits, render)
  {
  }

  /** `generic` is the z label of a template whose z text is the base,
      showing the in-plane unit with units always displayed; it ignores the
      qualifiers, their side and joiner, the z text and the z unit. */
  lemma GenericIsShownBaseLabel(labels: Labels, xyUnit: Value, zUnit: Value, fmt: string,
                                render: Renderer, xyAdditions: seq<string>, side: string,
                                joiner: string, z: string, zUnit': Value)
    ensures Generic(labels, xyUnit, zUnit, fmt, render)
         == LabelSpec(labels.(z := labels.xyBase), "z", xyUnit, xyUnit, fmt, true, render)
    ensures Generic(labels, xyUnit, zUnit, fmt, render)
         == Generic(labels.(xyAdditions := xyAdditions, xyAdditionSide := side,
                            additionJoiner := joiner, z := z), xyUnit, zUnit', fmt, render)
  {
    var l := labels.(z := labels.xyBase);
    if !xyUnit.OtherValue? {
      var u := FormatUnit(xyUnit, fmt, render).value;
      assert l.xyBase + l.unitJoiner + (l.unitPrefix + u + l.unitSuffix)
          == l.xyBase + l.unitJoiner + l.unitPrefix + u + l.unitSuffix;
    }
  }

  /** The shipped pupil labels: the x label qualifies the base on the right
      with "ξ" and brackets the unit; with units hidden only the trailing
      joiner remains. */
  lemma PupilXLabel(mm: Unit, nm: Unit, fmt: string, render: Renderer)
    ensures LabelSpec(PupilLabels, "x", UnitValue(mm), UnitValue(nm), fmt, true, render)
         == Ok("Pupil ξ [" + render(mm, fmt) + "]")
    ensures LabelSpec(PupilLabels, "x", UnitValue(mm), UnitValue(nm), fmt, false, render)
         == Ok("Pupil ξ ")
    ensures LabelSpec(PupilLabels, "z", UnitValue(mm), UnitValue(nm), fmt, true, render)
         == Ok("OPD [" + render(nm, fmt) + "]")
  {
    assert !AttachesLeft("right") by {
      AttachesLeftIff("right");
      assert !FoldsTo("right", "l");
      assert !FoldsTo("right", "left");
    }
    assert PupilLabels.xyAdditions[0] == "ξ" && PupilLabels.additionJoiner == " ";
    assert "Pupil" + " " + "ξ" == "Pupil ξ";
    assert Stem(PupilLabels, "x") == Ok("Pupil ξ");
    assert "Pupil ξ" + " " + ("[" + render(mm, fmt) + "]") == "Pupil ξ [" + render(mm, fmt) + "]";
    assert "Pupil ξ" + " " + "" == "Pupil ξ ";
    assert "OPD" + " " + ("[" + render(nm, fmt) + "]") == "OPD [" + render(nm, fmt) + "]";
  }
}
