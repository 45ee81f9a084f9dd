/** The table QR-code page: the twenty table labels, a selection of them
    that a click toggles, and the ordering URL each code carries. */
module QRCodes {
  import Seqs
  import Text

  /** The labels "1" to "n", in order. */
  function Labels(n: nat): (r: seq<string>)
    ensures |r| == n
    ensures forall i :: 0 <= i < n ==> r[i] == Text.NatToString(i + 1)
  {
    if n == 0 then [] else Labels(n - 1) + [Text.NatToString(n)]
  }

  /** `Array.from({ length: 20 }, (_, i) => (i + 1).toString())`. */
  const TableNumbers: seq<string> := Labels(20)

  /** The labels are "1" to "20" in order, each once. */
  lemma TableNumbersDistinct()
    ensures |TableNumbers| == 20
    ensures forall i :: 0 <= i < 20 ==> TableNumbers[i] == Text.NatToString(i + 1)
    ensures Seqs.NoDuplicates(TableNumbers)
  {
    forall i, j | 0 <= i < j < 20
      ensures TableNumbers[i] != TableNumbers[j]
    {
      if TableNumbers[i] == TableNumbers[j] {
        Text.NatToStringInjective(i + 1, j + 1);
      }
    }
  }

  /** The selection after `toggleTable(t)`: without `t` when it was there,
      with `t` at the end otherwise. */
  function Toggled(selected: seq<string>, t: string): (r: seq<string>)
    ensures t in r <==> t !in selected
    ensures forall x :: x != t ==> (x in r <==> x in selected)
    ensures Seqs.NoDuplicates(selected) ==> Seqs.NoDuplicates(r)
  {
    var keep := (x: string) => x != t;
    if t in selected then
      Seqs.FilterMembership(keep, selected, t);
      assert forall x :: x in Seqs.Filter(keep, selected) <==> x in selected && x != t by {
        forall x {
          Seqs.FilterMembership(keep, selected, x);
        }
      }
      if Seqs.NoDuplicates(selected) then
        Seqs.FilterNoDuplicates(keep, selected);
        Seqs.Filter(keep, selected)
      else Seqs.Filter(keep, selected)
    else selected + [t]
  }

  /** Toggling an unselected label twice restores the selection. */
  lemma ToggleTwiceAbsent(selected: seq<string>, t: string)
    requires t !in selected
    ensures Toggled(Toggled(selected, t), t) == selected
  {
    var keep := (x: string) => x != t;
    Seqs.FilterAppend(keep, selected, [t]);
    Seqs.FilterAll(keep, selected);
    assert Seqs.Filter(keep, [t]) == [];
  }

  /** Toggling a selected label twice moves it to the end. */
  lemma ToggleTwicePresent(selected: seq<string>, t: string)
    requires t in selected
    ensures Toggled(Toggled(selected, t), t) == Seqs.Filter((x: string) => x != t, selected) + [t]
  {
  }

  /** Printing takes the selection, or every table when nothing is selected. */
  function PrintSet(selected: seq<string>): (r: seq<string>)
    ensures r != []
    ensures selected != [] ==> r == selected
    ensures selected == [] ==> r == TableNumbers
  {
    if |selected| > 0 then selected else TableNumbers
  }

  /** The caption of the print button. */
  function PrintCaption(selected: seq<string>): (r: string)
    ensures selected == [] <==> r == "Print All"
  {
    if |selected| > 0 then
      var r := "Print (" + Text.NatToString(|selected|) + ")";
      assert r[6] == '(';
      r
    else "Print All"
  }

  const OrderPath: string := "/order?table="

  /** The URL a table's code carries. */
  function OrderUrl(origin: string, table: string): (r: string)
    ensures Text.StartsWith(r, origin + OrderPath)
    ensures r[|origin + OrderPath|..] == table
  {
    origin + OrderPath + table
  }

  /** Under one origin, different tables get different URLs. */
  lemma OrderUrlInjective(origin: string, a: string, b: string)
    requires OrderUrl(origin, a) == OrderUrl(origin, b)
    ensures a == b
  {
    assert a == OrderUrl(origin, a)[|origin + OrderPath|..];
  }

  class TableSelection {
    var selected: seq<string>

    /** No label is selected twice. */
    predicate Valid()
      reads this
    {
      Seqs.NoDuplicates(selected)
    }

    constructor ()
      ensures selected == [] && Valid()
    {
      selected := [];
    }

    /** `toggleTable`. */
    method Toggle(t: string)
      requires Valid()
      modifies this
      ensures Valid()
      ensures selected == Toggled(old(selected), t)
    {
      if t in selected {
        Seqs.FilterNoDuplicates((x: string) => x != t, selected);
        selected := Seqs.Filter((x: string) => x != t, selected);
      } else {
        selected := selected + [t];
      }
    }

    /** `selectAll`. */
    method SelectAll()
      modifies this
      ensures Valid()
      ensures selected == TableNumbers
    {
      TableNumbersDistinct();
      selected := TableNumbers;
    }

    /** `clearSelection`. */
    method Clear()
      modifies this
      ensures Valid()
      ensures selected == []
    {
      selected := [];
    }

    /** Whether a table's card shows as selected. */
    function IsSelected(t: string): bool
      reads this
    {
      t in selected
    }
  }
}
