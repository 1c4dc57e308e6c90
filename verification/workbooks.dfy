/** A parsed Excel workbook: the ordered sheet-name -> frame dictionary
    that `pd.read_excel(..., sheet_name=None)` returns. */
module Workbooks {
  import opened Wrappers
  import opened Tables

  datatype Sheet = Sheet(name: string, frame: Frame)

  predicate DistinctNames(sheets: seq<Sheet>) {
    forall i, j :: 0 <= i < j < |sheets| ==> sheets[i].name != sheets[j].name
  }

  /** Sheet names are dictionary keys, hence distinct. */
  type Workbook = w: seq<Sheet> | DistinctNames(w) witness []

  /** `ExcelFile(...).sheet_names`, in workbook order. */
  function SheetNames(w: seq<Sheet>): (names: seq<string>)
    ensures |names| == |w|
    ensures forall i :: 0 <= i < |w| ==> names[i] == w[i].name
  {
    seq(|w|, i requires 0 <= i < |w| => w[i].name)
  }

  /** The position of the sheet called `name`, if there is one. */
  function FindSheet(w: seq<Sheet>, name: string): (r: Option<nat>)
    ensures r.Some? <==> name in SheetNames(w)
    ensures r.Some? ==> r.value < |w| && w[r.value].name == name
  {
    if |w| == 0 then None
    else if w[0].name == name then Some(0)
    else
      match FindSheet(w[1..], name)
      case None =>
        assert SheetNames(w) == [w[0].name] + SheetNames(w[1..]);
        None
      case Some(j) => Some(j + 1)
  }

  /** `book[name] = frame` on a key that is present: the sheet keeps its
      place and name, only its frame changes. */
  function ReplaceSheet(w: Workbook, name: string, frame: Frame): (r: Workbook)
    ensures SheetNames(r) == SheetNames(w)
    ensures forall i :: 0 <= i < |w| && w[i].name != name ==> r[i] == w[i]
    ensures forall i :: 0 <= i < |w| && w[i].name == name ==> r[i].frame == frame
  {
    var r := seq(|w|, i requires 0 <= i < |w| =>
      if w[i].name == name then Sheet(name, frame) else w[i]);
    assert forall i :: 0 <= i < |w| ==> r[i].name == w[i].name;
    r
  }

  /** Putting a sheet's own frame back changes nothing. */
  lemma {:induction false} ReplaceWithOwnFrame(w: Workbook, i: nat)
    requires i < |w|
    ensures ReplaceSheet(w, w[i].name, w[i].frame) == w
  {
    var r := ReplaceSheet(w, w[i].name, w[i].frame);
    forall j | 0 <= j < |w| ensures r[j] == w[j] {
      if w[j].name == w[i].name {
        assert j == i;
      }
    }
  }
}
