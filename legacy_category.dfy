/**
 * The earlier Category entity: a record built by its constructor from the
 * same options, with the same defaults. No operations are modelled beyond that.
 */
module LegacyCategory {
  import opened Wrappers
  import UuidVo
  import CategoryEntity

  datatype Category = Category(
    categoryId: Option<UuidVo.ValidatedUuid>,
    name: string,
    description: Option<string>,
    isActive: bool,
    createdAt: CategoryEntity.Timestamp)

  /** `new Category(props)`: each supplied option is kept, an omitted
      description is null, an omitted flag is true, an omitted creation
      time is the current time, and no identifier is made up. The earlier
      and the later entity share this defaulting; it is written out here
      for the earlier one, and SameDefaultsAsEntity relates the two. */
  function New(props: CategoryEntity.CategoryProps, now: CategoryEntity.Timestamp): (c: Category)
    ensures c.categoryId == props.categoryId && c.name == props.name
    ensures c.description == props.description
    ensures c.isActive <==> props.isActive != Some(false)
    ensures props.createdAt.Some? ==> c.createdAt == props.createdAt.value
    ensures props.createdAt.None? ==> c.createdAt == now
  {
    Category(
      props.categoryId,
      props.name,
      props.description,
      props.isActive.GetOr(true),
      props.createdAt.GetOr(now))
  }

  lemma NameOnlyDefaults(name: string, now: CategoryEntity.Timestamp)
    ensures var c := New(CategoryEntity.NameOnly(name), now);
      c.categoryId.None? && c.name == name && c.description.None? && c.isActive && c.createdAt == now
  {
  }

  lemma DescriptionKept(name: string, description: string, now: CategoryEntity.Timestamp)
    ensures New(CategoryEntity.CategoryProps(None, name, Some(description), None, None), now)
         == Category(None, name, Some(description), true, now)
  {
  }

  lemma SuppliedValuesKept(name: string, description: string, createdAt: CategoryEntity.Timestamp, now: CategoryEntity.Timestamp)
    ensures New(CategoryEntity.CategoryProps(None, name, Some(description), Some(false), Some(createdAt)), now)
         == Category(None, name, Some(description), false, createdAt)
  {
  }

  /** The later entity starts from the same fields as this one. */
  lemma SameDefaultsAsEntity(props: CategoryEntity.CategoryProps, now: CategoryEntity.Timestamp)
    ensures var c, s := New(props, now), CategoryEntity.Initial(props, now);
      c == Category(s.categoryId, s.name, s.description, s.isActive, s.createdAt)
  {
  }
}
