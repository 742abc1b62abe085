/** The course service of the api module
    (api/src/main/kotlin/com/itsz/app/service/CourseService.kt): the course
    table plus a domain event for every change. */
module ApiCourseService {

  import opened Wrappers
  import opened Events
  import opened ApiDomain

  class CourseService {
    /** The course table, keyed by id. */
    var courses: map<string, Course>
    const eventPublisher: DomainEventPublisher

    /** Every stored course carries the key it is stored under. */
    ghost predicate Valid()
      reads this
    {
      forall id :: id in courses ==> courses[id].id == Some(id)
    }

    constructor (publisher: DomainEventPublisher)
      ensures Valid()
      ensures courses == map[] && eventPublisher == publisher
    {
      courses := map[];
      eventPublisher := publisher;
    }

    /** `getAllCourses`: every stored course, in no particular order. */
    method GetAllCourses() returns (r: set<Course>)
      ensures forall id :: id in courses ==> courses[id] in r
      ensures forall c :: c in r ==> exists id :: id in courses && courses[id] == c
    {
      r := set id | id in courses :: courses[id];
    }

    /** `getCourseById`: the course stored under `id`, if any. */
    method GetCourseById(id: string) returns (r: Option<Course>)
      requires Valid()
      ensures r.Some? <==> id in courses
      ensures r.Some? ==> r.value == courses[id] && r.value.id == Some(id)
    {
      r := if id in courses then Some(courses[id]) else None;
    }

    /** `createCourse`; `generatedId` is the id the database assigns to a
        course without one, `principal` the authenticated name, `now` the
        clock. */
    method CreateCourse(course: Course, generatedId: string, principal: Option<string>, now: int)
      returns (saved: Course)
      requires Valid()
      modifies this, eventPublisher
      ensures Valid()
      ensures saved == course.(id := Some(SaveKey(course.id, generatedId)))
      ensures courses == old(courses)[saved.id.value := saved]
      ensures eventPublisher.published == old(eventPublisher.published)
                + [OperationEvent(COURSE, CREATED, saved.id, Some(saved.title), principal, now)]
    {
      var key := SaveKey(course.id, generatedId);
      saved := course.(id := Some(key));
      courses := courses[key := saved];
      eventPublisher.Publish(OperationEvent(COURSE, CREATED, saved.id, Some(saved.title), principal, now));
    }

    /** `updateCourse`: replaces an existing course, keeping the path id;
        a missing id is an error that changes nothing. */
    method UpdateCourse(id: string, course: Course, principal: Option<string>, now: int)
      returns (r: Result<Course>)
      requires Valid()
      modifies this, eventPublisher
      ensures Valid()
      ensures id in old(courses) ==>
        && r == Success(course.(id := Some(id)))
        && courses == old(courses)[id := r.value]
        && eventPublisher.published == old(eventPublisher.published)
             + [OperationEvent(COURSE, UPDATED, Some(id), Some(course.title), principal, now)]
      ensures id !in old(courses) ==>
        && r == Failure("Course not found with id: " + id)
        && courses == old(courses)
        && eventPublisher.published == old(eventPublisher.published)
    {
      if id in courses {
        var saved := course.(id := Some(id));
        courses := courses[id := saved];
        eventPublisher.Publish(OperationEvent(COURSE, UPDATED, saved.id, Some(saved.title), principal, now));
        r := Success(saved);
      } else {
        r := Failure("Course not found with id: " + id);
      }
    }

    /** `deleteCourse`: the event names the course as it was before removal. */
    method DeleteCourse(id: string, principal: Option<string>, now: int) returns (r: Outcome)
      requires Valid()
      modifies this, eventPublisher
      ensures Valid()
      ensures id in old(courses) ==>
        && r == Pass
        && courses == old(courses) - {id}
        && eventPublisher.published == old(eventPublisher.published)
             + [OperationEvent(COURSE, DELETED, Some(id), Some(old(courses)[id].title), principal, now)]
      ensures id !in old(courses) ==>
        && r == Fail("Course not found with id: " + id)
        && courses == old(courses)
        && eventPublisher.published == old(eventPublisher.published)
    {
      if id in courses {
        var course := courses[id];
        courses := courses - {id};
        eventPublisher.Publish(OperationEvent(COURSE, DELETED, Some(id), Some(course.title), principal, now));
        r := Pass;
      } else {
        r := Fail("Course not found with id: " + id);
      }
    }
  }
}
