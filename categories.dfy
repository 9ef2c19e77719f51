/** The fixed table of project categories and the category selector built from it. */
module Categories {

  /** One entry of the category table: the machine id sent to the API and the label shown. */
  datatype CategoryOption = CategoryOption(id: string, displayText: string)

  /** One `<option>` of the selector: its React key, its value and its visible text. */
  datatype SelectOption = SelectOption(key: string, value: string, text: string)

  /** The category table, in the order the selector offers it. */
  const CategoriesList: seq<CategoryOption> := [
    CategoryOption("ALL", "All"),
    CategoryOption("STATIC", "Static"),
    CategoryOption("RESPONSIVE", "Responsive"),
    CategoryOption("DYNAMIC", "Dynamic"),
    CategoryOption("REACT", "React")
  ]

  /** No two entries of `cats` share an id. */
  predicate DistinctIds(cats: seq<CategoryOption>) {
    forall i, j :: 0 <= i < j < |cats| ==> cats[i].id != cats[j].id
  }

  /** The ids of `cats`, in table order. */
  function Ids(cats: seq<CategoryOption>): (ids: seq<string>)
    ensures |ids| == |cats|
    ensures forall i :: 0 <= i < |cats| ==> ids[i] == cats[i].id
  {
    if cats == [] then [] else [cats[0].id] + Ids(cats[1..])
  }

  /** The ids of the category table. */
  function CategoryIds(): seq<string> {
    Ids(CategoriesList)
  }

  /** The category a freshly created component starts on: the first entry of the table. */
  function DefaultActiveId(): (id: string)
    ensures id == "ALL"
    ensures id in CategoryIds()
  {
    CategoriesList[0].id
  }

  /** The category table has five entries, in the order ALL, STATIC, RESPONSIVE, DYNAMIC, REACT,
      and its ids are pairwise distinct. */
  lemma CategoriesTable()
    ensures |CategoriesList| == 5
    ensures CategoryIds() == ["ALL", "STATIC", "RESPONSIVE", "DYNAMIC", "REACT"]
    ensures DistinctIds(CategoriesList)
  {
  }

  /** The selector's options: one per category, in table order, keyed and valued by the id and
      labelled by the display text. */
  function SelectOptions(cats: seq<CategoryOption>): (opts: seq<SelectOption>)
    ensures |opts| == |cats|
    ensures forall i :: 0 <= i < |cats| ==>
      opts[i].key == cats[i].id && opts[i].value == cats[i].id && opts[i].text == cats[i].displayText
  {
    if cats == [] then []
    else [SelectOption(cats[0].id, cats[0].id, cats[0].displayText)] + SelectOptions(cats[1..])
  }

  /** Reads the category table back from the selector's options. */
  function CategoriesOfOptions(opts: seq<SelectOption>): seq<CategoryOption> {
    if opts == [] then [] else [CategoryOption(opts[0].value, opts[0].text)] + CategoriesOfOptions(opts[1..])
  }

  /** The selector loses nothing of the table: reading its options back gives the table again. */
  lemma {:induction false} OptionsRoundTrip(cats: seq<CategoryOption>)
    ensures CategoriesOfOptions(SelectOptions(cats)) == cats
  {
    if cats != [] {
      OptionsRoundTrip(cats[1..]);
      assert SelectOptions(cats)[1..] == SelectOptions(cats[1..]);
    }
  }

  /** Every value the selector can report to its change handler is the id of a category, and
      every category can be selected. */
  lemma SelectableValues(cats: seq<CategoryOption>, v: string)
    ensures (exists i :: 0 <= i < |SelectOptions(cats)| && SelectOptions(cats)[i].value == v)
            <==> v in Ids(cats)
  {
    var opts := SelectOptions(cats);
    var ids := Ids(cats);
    if v in ids {
      var i :| 0 <= i < |ids| && ids[i] == v;
      assert SelectOptions(cats)[i].value == v && 0 <= i < |SelectOptions(cats)|;
    } else {
      forall i | 0 <= i < |opts| ensures opts[i].value != v {
        assert opts[i].value == ids[i];
      }
    }
  }
}
