/** `Utils.getName`: the name under which the POJO unmapper looks a property up. */
module Utils {
  import opened Java
  import opened JavaStrings
  import opened Micronaut

  /**
   * The `name` of the property's `javax.persistence.Column` annotation if it has
   * one with a name, otherwise the property's own name; lower-cased either way.
   */
  function GetName(property: BeanProperty): string {
    var name :=
      match property.column
      case Some(ColumnAnnotation(Some(columnName))) => columnName
      case _ => property.name;
    LowerCase(name)
  }

  /** Which name `getName` picks, and that the result is always lower case. */
  lemma GetNameMeaning(property: BeanProperty)
    ensures IsLowerCase(GetName(property))
    ensures property.column.Some? && property.column.value.name.Some? ==>
            GetName(property) == LowerCase(property.column.value.name.value)
    ensures property.column.None? || property.column.value.name.None? ==>
            GetName(property) == LowerCase(property.name)
    ensures LowerCase(GetName(property)) == GetName(property)
  {
    var name :=
      match property.column
      case Some(ColumnAnnotation(Some(columnName))) => columnName
      case _ => property.name;
    LowerCaseIsLowerCase(name);
    LowerCaseIdempotent(name);
  }

  /**
   * `getName` depends only on the annotation's name and the property's name: two
   * properties that agree on both get the same name, whatever their class and
   * access.
   */
  lemma GetNameDependsOnNames(p: BeanProperty, q: BeanProperty)
    requires p.name == q.name
    requires (p.column.Some? && p.column.value.name.Some?) == (q.column.Some? && q.column.value.name.Some?)
    requires p.column.Some? && p.column.value.name.Some? ==> p.column.value.name == q.column.value.name
    ensures GetName(p) == GetName(q)
  {
  }

  /**
   * The annotation's name wins over the property's own and is lower-cased too: a
   * property `fullName` annotated with the name `USER_NAME` goes by `user_name`.
   */
  lemma AnnotationNameIsLowerCased(property: BeanProperty)
    requires property.name == "fullName" && property.column == Some(ColumnAnnotation(Some("USER_NAME")))
    ensures GetName(property) == "user_name"
  {
    var s := LowerCase("USER_NAME");
    assert s[0] == 'u' && s[1] == 's' && s[2] == 'e' && s[3] == 'r' && s[4] == '_';
    assert s[5] == 'n' && s[6] == 'a' && s[7] == 'm' && s[8] == 'e';
  }
}
