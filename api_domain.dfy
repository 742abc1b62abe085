/** The JPA entities of the api module (api/src/main/kotlin/com/itsz/app/domain/)
    as values. An id of `None` is the `null` id of an entity not yet saved,
    which the persistence layer replaces by a generated one. */
module ApiDomain {

  import opened Wrappers

  /** Author.kt of the api module: same shape as `Course`'s id, a name. */
  datatype Author = Author(id: Option<string>, name: string)

  /** Course.kt: the authors are the `@ManyToMany` list, in list order. */
  datatype Course = Course(
    id: Option<string>,
    title: string,
    description: string,
    creationDate: string,
    duration: int,
    authors: seq<Author>)

  /** The key `save` stores an entity under: its own id, or the generated one. */
  function SaveKey(id: Option<string>, generatedId: string): (k: string)
    ensures id.Some? ==> k == id.value
    ensures id.None? ==> k == generatedId
  {
    if id.Some? then id.value else generatedId
  }
}
