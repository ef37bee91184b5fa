/** The front end's static category table and its lookups. */
module CategoryTable {
  import opened Wrappers
  import Decimal
  import Store

  datatype Category = Category(id: int, name: string, description: string, color: string)

  /** `CATEGORIES`. */
  const Categories: seq<Category> := [
    Category(1, "General", "General tasks and miscellaneous items that don't fit other categories", "#3B82F6"),
    Category(2, "Work", "Professional tasks, meetings, deadlines, and work-related projects", "#8B5CF6"),
    Category(3, "Personal", "Personal life tasks, family matters, and daily personal activities", "#10B981"),
    Category(4, "Study", "Learning goals, courses, research, and educational activities", "#F59E0B"),
    Category(5, "Health", "Fitness goals, medical appointments, wellness activities, and self-care", "#EF4444"),
    Category(6, "Finance", "Budget planning, bill payments, investments, and financial goals", "#06B6D4"),
    Category(7, "Travel", "Trip planning, bookings, travel documents, and vacation preparation", "#84CC16"),
    Category(8, "Home", "Household chores, maintenance, decoration, and home improvement projects", "#F97316"),
    Category(9, "Creative", "Art projects, writing, design work, and creative endeavors", "#EC4899"),
    Category(10, "Social", "Social events, networking, community activities, and relationship building", "#6366F1")
  ]

  function Id(c: Category): int {
    c.id
  }

  /** The table holds ten entries numbered 1 to 10 in order, so its ids are
      distinct, and no two entries share a name. */
  lemma TableShape()
    ensures |Categories| == 10
    ensures forall i :: 0 <= i < |Categories| ==> Categories[i].id == i + 1
    ensures forall i, j :: 0 <= i < j < |Categories| ==> Categories[i].name != Categories[j].name
    ensures forall i :: 0 <= i < |Categories| ==> |Categories[i].name| < 9
  {
  }

  lemma EntryHasId(id: int)
    ensures 1 <= id <= 10 ==> Id(Categories[id - 1]) == id
  {
    TableShape();
  }

  /** `getCategoryById(id)`: `CATEGORIES.find` on the id. */
  function GetCategoryById(id: int): (r: Option<Category>)
    ensures r.Some? <==> 1 <= id <= 10
    ensures r.Some? ==> r.value == Categories[id - 1] && r.value.id == id
  {
    TableShape();
    match Store.FirstIndex(Categories, Id, id)
    case None =>
      assert !(1 <= id <= 10) by {
        if 1 <= id <= 10 {
          EntryHasId(id);
          assert false;
        }
      }
      None
    case Some(i) =>
      assert i == id - 1;
      Some(Categories[i])
  }

  /** `getCategoryName(id)`: the entry's name, or `Category ${id}`. */
  function GetCategoryName(id: int): (r: string)
    ensures 1 <= id <= 10 ==> r == Categories[id - 1].name
    ensures !(1 <= id <= 10) ==> r == "Category " + Decimal.IntToString(id)
  {
    match GetCategoryById(id)
    case Some(c) => c.name
    case None => "Category " + Decimal.IntToString(id)
  }

  /** Different ids get different names: no table name looks like a fallback
      name, and fallback names differ because the decimal renderings do. */
  lemma {:induction false} GetCategoryNameInjective(i: int, j: int)
    ensures GetCategoryName(i) == GetCategoryName(j) <==> i == j
  {
    if GetCategoryName(i) == GetCategoryName(j) {
      TableShape();
      var p := "Category ";
      if !(1 <= i <= 10) && !(1 <= j <= 10) {
        var si := Decimal.IntToString(i);
        var sj := Decimal.IntToString(j);
        assert (p + si)[|p|..] == si && (p + sj)[|p|..] == sj;
        Decimal.IntToStringInjective(i, j);
      }
    }
  }
}
