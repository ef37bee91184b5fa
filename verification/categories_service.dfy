/** CategoriesService: the in-memory category list of the API. */
module CategoriesService {
  import opened Wrappers
  import Decimal
  import Store

  /** A stored category; the creation timestamp is not modelled. */
  datatype Category = Category(id: int, name: string, description: Option<string>, color: Option<string>)

  datatype CreateCategory = CreateCategory(name: string, description: Option<string>, color: Option<string>)

  datatype UpdateCategory = UpdateCategory(name: Option<string>, description: Option<string>, color: Option<string>)

  const DefaultColor := "#000000"

  /** The five categories the service starts with. */
  const Seed: seq<Category> := [
    Category(1, "General", Some("General tasks"), Some("#FF6B6B")),
    Category(2, "Work", Some("Work related tasks"), Some("#4ECDC4")),
    Category(3, "Personal", Some("Personal tasks"), Some("#45B7D1")),
    Category(4, "Study", Some("Study and learning tasks"), Some("#96CEB4")),
    Category(5, "Health", Some("Health and fitness tasks"), Some("#FFEAA7"))
  ]

  function Id(c: Category): int {
    c.id
  }

  function NotFound(id: int): string {
    "Category with ID " + Decimal.IntToString(id) + " not found"
  }

  /** `findOne(id)`: the first category with the id. */
  function FindOne(categories: seq<Category>, id: int): (r: Result<Category, string>)
    ensures r.Failure? <==> forall i :: 0 <= i < |categories| ==> categories[i].id != id
    ensures r.Failure? ==> r.error == NotFound(id)
    ensures r.Success? ==> r.value.id == id
    ensures r.Success? ==>
              exists i :: 0 <= i < |categories| && categories[i] == r.value
                && forall j :: 0 <= j < i ==> categories[j].id != id
  {
    match Store.FirstIndex(categories, Id, id)
    case None => Failure(NotFound(id))
    case Some(i) => Success(categories[i])
  }

  /** `color || '#000000'`: a missing or empty colour gets the default. */
  function ColorOrDefault(color: Option<string>): (r: string)
    ensures r != ""
    ensures color.Some? && color.value != "" ==> r == color.value
    ensures color.None? || color.value == "" ==> r == DefaultColor
  {
    if color.Some? && color.value != "" then color.value else DefaultColor
  }

  /** `create(dto)`: appends the new category with id `length + 1`. */
  function Create(categories: seq<Category>, dto: CreateCategory): (r: (seq<Category>, Category))
    ensures r.0 == categories + [r.1]
    ensures r.1.id == |categories| + 1 && r.1.name == dto.name && r.1.description == dto.description
    ensures r.1.color.Some? && r.1.color.value != ""
    ensures r.1.color == Some(DefaultColor) <==> dto.color.None? || dto.color.value in {"", DefaultColor}
    ensures dto.color.Some? && dto.color.value != "" ==> r.1.color == dto.color
  {
    var c := Category(|categories| + 1, dto.name, dto.description, Some(ColorOrDefault(dto.color)));
    (categories + [c], c)
  }

  /** While ids stay within the list's length, a created category is found
      under its id, and removing it restores the list. */
  lemma CreateThenFind(categories: seq<Category>, dto: CreateCategory)
    requires forall i :: 0 <= i < |categories| ==> categories[i].id <= |categories|
    ensures FindOne(Create(categories, dto).0, |categories| + 1) == Success(Create(categories, dto).1)
    ensures Remove(Create(categories, dto).0, |categories| + 1) == Success(categories)
  {
    var (list, c) := Create(categories, dto);
    assert list[|categories|] == c;
    assert forall i :: 0 <= i < |categories| ==> list[i] == categories[i];
    Store.RemoveAtUndoesAppend(categories, c);
  }

  /** The category with `dto`'s keys written over it; no colour default here. */
  function Patched(c: Category, dto: UpdateCategory): (r: Category)
    ensures r.id == c.id
    ensures r.name == dto.name.GetOr(c.name)
    ensures dto.description.Some? ==> r.description == dto.description
    ensures dto.description.None? ==> r.description == c.description
    ensures dto.color.Some? ==> r.color == dto.color
    ensures dto.color.None? ==> r.color == c.color
  {
    Category(c.id, dto.name.GetOr(c.name),
             if dto.description.Some? then dto.description else c.description,
             if dto.color.Some? then dto.color else c.color)
  }

  /** `update(id, dto)`: the first category with the id is replaced by its
      patched copy, which is returned; every other entry stays. */
  function Update(categories: seq<Category>, id: int, dto: UpdateCategory): (r: Result<(seq<Category>, Category), string>)
    ensures r.Failure? <==> forall i :: 0 <= i < |categories| ==> categories[i].id != id
    ensures r.Failure? ==> r.error == NotFound(id)
    ensures r.Success? ==>
              && |r.value.0| == |categories|
              && exists i :: 0 <= i < |categories| && categories[i].id == id
                   && (forall j :: 0 <= j < i ==> categories[j].id != id)
                   && r.value.1 == Patched(categories[i], dto)
                   && r.value.0 == categories[i := r.value.1]
  {
    match Store.FirstIndex(categories, Id, id)
    case None => Failure(NotFound(id))
    case Some(i) =>
      var c := Patched(categories[i], dto);
      Success((categories[i := c], c))
  }

  /** After an update, `findOne` returns the updated category. */
  lemma UpdateThenFind(categories: seq<Category>, id: int, dto: UpdateCategory)
    requires Update(categories, id, dto).Success?
    ensures FindOne(Update(categories, id, dto).value.0, id) == Success(Update(categories, id, dto).value.1)
  {
    var i := Store.FirstIndex(categories, Id, id).value;
    Store.FirstIndexIsFirst(Update(categories, id, dto).value.0, Id, id, i);
  }

  /** `remove(id)`: the first category with the id is deleted. */
  function Remove(categories: seq<Category>, id: int): (r: Result<seq<Category>, string>)
    ensures r.Failure? <==> forall i :: 0 <= i < |categories| ==> categories[i].id != id
    ensures r.Failure? ==> r.error == NotFound(id)
    ensures r.Success? ==>
              && |r.value| == |categories| - 1
              && exists i :: 0 <= i < |categories| && categories[i].id == id
                   && (forall j :: 0 <= j < i ==> categories[j].id != id)
                   && r.value == categories[..i] + categories[i + 1..]
  {
    match Store.FirstIndex(categories, Id, id)
    case None => Failure(NotFound(id))
    case Some(i) => Success(Store.RemoveAt(categories, i))
  }
}
