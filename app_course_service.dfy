/** The course service of the `com.itsz.app` application
    (src/main/kotlin/com/itsz/app/service/CourseService.kt): the course table
    with existence-checked updates and deletes and no events. A course's id
    is assigned by the caller, never generated. */
module AppCourseService {

  import opened Wrappers
  import opened AppDomain

  class CourseService {
    /** The course table, keyed by id. */
    var courses: map<string, Course>

    /** Every stored course carries the key it is stored under. */
    ghost predicate Valid()
      reads this
    {
      forall id :: id in courses ==> courses[id].id == id
    }

    constructor ()
      ensures Valid() && courses == map[]
    {
      courses := map[];
    }

    /** `getAllCourses`: every stored course, in no particular order. */
    method GetAllCourses() returns (r: set<Course>)
      ensures forall id :: id in courses ==> courses[id] in r
      ensures forall c :: c in r ==> exists id :: id in courses && courses[id] == c
    {
      r := set id | id in courses :: courses[id];
    }

    /** `getCourseById`: the course stored under `id`, if any. */
    method GetCourseById(id: string) returns (r: Option<Course>)
      requires Valid()
      ensures r.Some? <==> id in courses
      ensures r.Some? ==> r.value == courses[id] && r.value.id == id
    {
      r := if id in courses then Some(courses[id]) else None;
    }

    /** `createCourse`: stored as given, under its own id, replacing any
        course already there. */
    method CreateCourse(course: Course) returns (saved: Course)
      requires Valid()
      modifies this
      ensures Valid()
      ensures saved == course
      ensures courses == old(courses)[course.id := course]
    {
      saved := course;
      courses := courses[course.id := course];
    }

    /** `updateCourse`: replaces an existing course under the path id; a
        missing id is an error that changes nothing. */
    method UpdateCourse(id: string, course: Course) returns (r: Result<Course>)
      requires Valid()
      modifies this
      ensures Valid()
      ensures id in old(courses) ==> r == Success(course.(id := id)) && courses == old(courses)[id := r.value]
      ensures id !in old(courses) ==> r == Failure("Course not found with id: " + id) && courses == old(courses)
    {
      if id in courses {
        var saved := course.(id := id);
        courses := courses[id := saved];
        r := Success(saved);
      } else {
        r := Failure("Course not found with id: " + id);
      }
    }

    /** `deleteCourse`: removes only the given id. */
    method DeleteCourse(id: string) returns (r: Outcome)
      requires Valid()
      modifies this
      ensures Valid()
      ensures id in old(courses) ==> r == Pass && courses == old(courses) - {id}
      ensures id !in old(courses) ==> r == Fail("Course not found with id: " + id) && courses == old(courses)
    {
      if id in courses {
        courses := courses - {id};
        r := Pass;
      } else {
        r := Fail("Course not found with id: " + id);
      }
    }
  }
}
