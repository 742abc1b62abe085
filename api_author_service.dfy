/** The author service of the api module
    (api/src/main/kotlin/com/itsz/app/service/AuthorService.kt): the author
    table plus a domain event for every change. */
module ApiAuthorService {

  import opened Wrappers
  import opened Events
  import opened ApiDomain

  class AuthorService {
    /** The author table, keyed by id. */
    var authors: map<string, Author>
    const eventPublisher: DomainEventPublisher

    /** Every stored author carries the key it is stored under. */
    ghost predicate Valid()
      reads this
    {
      forall id :: id in authors ==> authors[id].id == Some(id)
    }

    constructor (publisher: DomainEventPublisher)
      ensures Valid()
      ensures authors == map[] && eventPublisher == publisher
    {
      authors := map[];
      eventPublisher := publisher;
    }

    /** `getAllAuthors`: every stored author, in no particular order. */
    method GetAllAuthors() returns (r: set<Author>)
      ensures forall id :: id in authors ==> authors[id] in r
      ensures forall c :: c in r ==> exists id :: id in authors && authors[id] == c
    {
      r := set id | id in authors :: authors[id];
    }

    /** `getAuthorById`: the author stored under `id`, if any. */
    method GetAuthorById(id: string) returns (r: Option<Author>)
      requires Valid()
      ensures r.Some? <==> id in authors
      ensures r.Some? ==> r.value == authors[id] && r.value.id == Some(id)
    {
      r := if id in authors then Some(authors[id]) else None;
    }

    /** `createAuthor`; `generatedId` is the id the database assigns to a
        author without one, `principal` the authenticated name, `now` the
        clock. */
    method CreateAuthor(author: Author, generatedId: string, principal: Option<string>, now: int)
      returns (saved: Author)
      requires Valid()
      modifies this, eventPublisher
      ensures Valid()
      ensures saved == author.(id := Some(SaveKey(author.id, generatedId)))
      ensures authors == old(authors)[saved.id.value := saved]
      ensures eventPublisher.published == old(eventPublisher.published)
                + [OperationEvent(AUTHOR, CREATED, saved.id, Some(saved.name), principal, now)]
    {
      var key := SaveKey(author.id, generatedId);
      saved := author.(id := Some(key));
      authors := authors[key := saved];
      eventPublisher.Publish(OperationEvent(AUTHOR, CREATED, saved.id, Some(saved.name), principal, now));
    }

    /** `updateAuthor`: replaces an existing author, keeping the path id;
        a missing id is an error that changes nothing. */
    method UpdateAuthor(id: string, author: Author, principal: Option<string>, now: int)
      returns (r: Result<Author>)
      requires Valid()
      modifies this, eventPublisher
      ensures Valid()
      ensures id in old(authors) ==>
        && r == Success(author.(id := Some(id)))
        && authors == old(authors)[id := r.value]
        && eventPublisher.published == old(eventPublisher.published)
             + [OperationEvent(AUTHOR, UPDATED, Some(id), Some(author.name), principal, now)]
      ensures id !in old(authors) ==>
        && r == Failure("Author not found with id: " + id)
        && authors == old(authors)
        && eventPublisher.published == old(eventPublisher.published)
    {
      if id in authors {
        var saved := author.(id := Some(id));
        authors := authors[id := saved];
        eventPublisher.Publish(OperationEvent(AUTHOR, UPDATED, saved.id, Some(saved.name), principal, now));
        r := Success(saved);
      } else {
        r := Failure("Author not found with id: " + id);
      }
    }

    /** `deleteAuthor`: the event names the author as it was before removal. */
    method DeleteAuthor(id: string, principal: Option<string>, now: int) returns (r: Outcome)
      requires Valid()
      modifies this, eventPublisher
      ensures Valid()
      ensures id in old(authors) ==>
        && r == Pass
        && authors == old(authors) - {id}
        && eventPublisher.published == old(eventPublisher.published)
             + [OperationEvent(AUTHOR, DELETED, Some(id), Some(old(authors)[id].name), principal, now)]
      ensures id !in old(authors) ==>
        && r == Fail("Author not found with id: " + id)
        && authors == old(authors)
        && eventPublisher.published == old(eventPublisher.published)
    {
      if id in authors {
        var author := authors[id];
        authors := authors - {id};
        eventPublisher.Publish(OperationEvent(AUTHOR, DELETED, Some(id), Some(author.name), principal, now));
        r := Pass;
      } else {
        r := Fail("Author not found with id: " + id);
      }
    }
  }
}
