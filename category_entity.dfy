/**
 * The Category entity: a mutable aggregate with an optional identifier, a
 * name, an optional description, an active flag and a creation time. It is
 * built by its constructor or by the `create` factory, both of which fill
 * in defaults for omitted options, and it is changed in place by
 * `changeName`, `changeDescription`, `activate` and `deactivate`.
 */
module CategoryEntity {
  import opened Wrappers
  import UuidVo

  /** A point in time; the clock reading used for a default is passed in as `now`. */
  type Timestamp = int

  /** The options accepted on construction. None marks an omitted option;
      for `description` it also stands for an explicit null, which the
      entity stores the same way. */
  datatype CategoryProps = CategoryProps(
    categoryId: Option<UuidVo.ValidatedUuid>,
    name: string,
    description: Option<string>,
    isActive: Option<bool>,
    createdAt: Option<Timestamp>)

  /** The options `{ name }` and nothing else. */
  function NameOnly(name: string): CategoryProps {
    CategoryProps(None, name, None, None, None)
  }

  /** The five fields of a category as one value (None is `undefined` for
      the identifier and `null` for the description). */
  datatype CategoryState = CategoryState(
    categoryId: Option<UuidVo.ValidatedUuid>,
    name: string,
    description: Option<string>,
    isActive: bool,
    createdAt: Timestamp)

  /** The plain view returned by `toJSON`: the identifier as its string. */
  datatype CategoryJson = CategoryJson(
    categoryId: Option<string>,
    name: string,
    description: Option<string>,
    isActive: bool,
    createdAt: Timestamp)

  /** The fields a new category starts with: the supplied options, with a
      null description, an active flag, the current time and no identifier
      wherever the caller left the option out. */
  function Initial(props: CategoryProps, now: Timestamp): (s: CategoryState)
    ensures s.categoryId == props.categoryId && s.name == props.name
    ensures s.description == props.description
    ensures s.isActive <==> props.isActive != Some(false)
    ensures props.createdAt.Some? ==> s.createdAt == props.createdAt.value
    ensures props.createdAt.None? ==> s.createdAt == now
  {
    CategoryState(
      props.categoryId,
      props.name,
      props.description,
      props.isActive.GetOr(true),
      props.createdAt.GetOr(now))
  }

  class Category {
    var categoryId: Option<UuidVo.ValidatedUuid>
    var name: string
    var description: Option<string>
    var isActive: bool
    var createdAt: Timestamp

    function State(): CategoryState
      reads this
    {
      CategoryState(categoryId, name, description, isActive, createdAt)
    }

    /** `new Category(props)`. */
    constructor (props: CategoryProps, now: Timestamp)
      ensures State() == Initial(props, now)
    {
      categoryId := props.categoryId;
      name := props.name;
      description := props.description;
      isActive := props.isActive.GetOr(true);
      createdAt := props.createdAt.GetOr(now);
    }

    /** `Category.create(props)`: the same defaults as the constructor; no
        identifier is assigned when none is supplied. */
    static method Create(props: CategoryProps, now: Timestamp) returns (c: Category)
      ensures fresh(c)
      ensures c.State() == Initial(props, now)
    {
      c := new Category(props, now);
    }

    method ChangeName(newName: string)
      modifies this
      ensures name == newName
      ensures State() == old(State()).(name := newName)
    {
      name := newName;
    }

    method ChangeDescription(newDescription: string)
      modifies this
      ensures description == Some(newDescription)
      ensures State() == old(State()).(description := Some(newDescription))
    {
      description := Some(newDescription);
    }

    method Activate()
      modifies this
      ensures isActive
      ensures State() == old(State()).(isActive := true)
    {
      isActive := true;
    }

    method Deactivate()
      modifies this
      ensures !isActive
      ensures State() == old(State()).(isActive := false)
    {
      isActive := false;
    }

    /** `toJSON()`: exactly the five fields with their current values. */
    function ToJSON(): (j: CategoryJson)
      reads this
      ensures j.categoryId.Some? <==> categoryId.Some?
      ensures categoryId.Some? ==> j.categoryId.value == categoryId.value.id
      ensures j.categoryId.Some? ==> UuidVo.ValidUuid(j.categoryId.value)
      ensures j.name == name && j.description == description
      ensures j.isActive == isActive && j.createdAt == createdAt
    {
      CategoryJson(
        if categoryId.Some? then Some(categoryId.value.id) else None,
        name, description, isActive, createdAt)
    }
  }

  // -----------------------------------------------------------------------
  // Properties of construction

  /** `{ name }` alone: no identifier, null description, active, created now. */
  lemma NameOnlyDefaults(name: string, now: Timestamp)
    ensures Initial(NameOnly(name), now) == CategoryState(None, name, None, true, now)
  {
  }

  /** A supplied description, flag and creation time are kept as given. */
  lemma SuppliedValuesKept(name: string, description: string, isActive: bool, createdAt: Timestamp, now: Timestamp)
    ensures Initial(CategoryProps(None, name, Some(description), Some(isActive), Some(createdAt)), now)
         == CategoryState(None, name, Some(description), isActive, createdAt)
  {
  }

  /** A supplied `isActive: false` survives construction. */
  lemma InactiveKept(props: CategoryProps, now: Timestamp)
    requires props.isActive == Some(false)
    ensures !Initial(props, now).isActive
  {
  }

  /** The snapshot of a category created from `{ name }`. */
  lemma ToJSONOfDefault(c: Category, name: string, now: Timestamp)
    requires c.State() == Initial(NameOnly(name), now)
    ensures c.ToJSON() == CategoryJson(None, name, None, true, now)
  {
  }

  /** The snapshot loses nothing: two categories have the same snapshot
      exactly when their fields agree. */
  lemma ToJSONDeterminesState(a: Category, b: Category)
    ensures a.ToJSON() == b.ToJSON() <==> a.State() == b.State()
  {
    if a.ToJSON() == b.ToJSON() && a.categoryId.Some? {
      assert b.categoryId.Some?;
      assert a.categoryId.value.id == b.categoryId.value.id;
    }
  }

  /** A category's identifier, when it has one, is a valid UUID, and so is
      the string its snapshot carries: no path builds an unvalidated one. */
  lemma CategoryIdIsValid(c: Category)
    ensures c.categoryId.Some? ==> UuidVo.ValidUuid(c.categoryId.value.id)
    ensures c.ToJSON().categoryId.Some? ==> UuidVo.ValidUuid(c.ToJSON().categoryId.value)
  {
  }

  // -----------------------------------------------------------------------
  // Clients: what callers can conclude from the contracts above

  /** Calling `activate` twice leaves the same state as calling it once. */
  method ActivateTwice(c: Category)
    modifies c
    ensures c.isActive
    ensures c.State() == old(c.State()).(isActive := true)
  {
    c.Activate();
    c.Activate();
  }

  /** Calling `deactivate` twice leaves the same state as calling it once. */
  method DeactivateTwice(c: Category)
    modifies c
    ensures !c.isActive
    ensures c.State() == old(c.State()).(isActive := false)
  {
    c.Deactivate();
    c.Deactivate();
  }

  /** Create `{ name: "Movie" }`, then rename it to "Music": only the name changes. */
  method CreateThenRename(now: Timestamp) returns (c: Category)
    ensures fresh(c)
    ensures c.State() == CategoryState(None, "Music", None, true, now)
  {
    c := Category.Create(NameOnly("Movie"), now);
    c.ChangeName("Music");
  }
}
