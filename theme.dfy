// What the score displays share: the text colours they choose between (each
// stands for one Tailwind class of the app, 'text-purple-400',
// 'text-emerald-400', ...) and the text of a score relative to par.
module Theme {
  import opened Js

  datatype TextColour = Purple | Emerald | White | Yellow | Red

  /** Best (0) to worst (4): the order in which the colours read as a score gets worse. */
  function Rank(c: TextColour): nat
  {
    match c
    case Purple => 0
    case Emerald => 1
    case White => 2
    case Yellow => 3
    case Red => 4
  }

  /** A score relative to par as text: "E" for level par, "+d" over par and "-d" under par. */
  function VsParLabel(v: int): string {
    if v == 0 then "E" else if v > 0 then "+" + IntToString(v) else IntToString(v)
  }

  /** Distinct vs-par values get distinct texts; parseInt reads the value back from any text but "E". */
  lemma VsParLabelFaithful(v: int, w: int)
    ensures VsParLabel(v) == "E" <==> v == 0
    ensures v != 0 ==> ParseInt(VsParLabel(v)) == Int(v)
    ensures VsParLabel(v) == VsParLabel(w) ==> v == w
  {
    ParseIntOfIntToString(v);
    ParseIntOfIntToString(w);
    if v != 0 { LabelNumeric(v); }
    if w != 0 { LabelNumeric(w); }
    if v > 0 {
      assert VsParLabel(v) != "E" by { assert VsParLabel(v)[0] == '+'; }
    } else if v < 0 {
      assert VsParLabel(v) != "E" by { assert VsParLabel(v)[0] == '-'; }
    }
    if VsParLabel(v) == VsParLabel(w) && v != 0 && w != 0 {
      assert Int(v) == Int(w);
    }
  }

  lemma LabelNumeric(v: int)
    requires v != 0
    ensures ParseInt(VsParLabel(v)) == Int(v)
  {
    ParseIntOfIntToString(v);
    if v > 0 {
      NatToStringValue(v);
      ParseIntPlus(NatToString(v));
    }
  }
}
