/** The record shapes of the site's static data and of the contact form.
    Optional properties are `Option` values; every other property is required. */
module Types {
  import opened Common

  datatype Project = Project(
    id: int,
    title: string,
    description: string,
    tech: seq<string>,
    github: Option<string>,
    live: Option<string>,
    image: string,
    featured: bool)

  datatype SkillCategory = Frontend | Backend | Tool | Specialization

  /** `level` is documented as a percentage, 0 to 100. */
  datatype Skill = Skill(name: string, level: int, category: SkillCategory, icon: Option<string>)

  datatype Experience = Experience(
    id: int,
    company: string,
    role: string,
    startDate: string,
    endDate: Option<string>,
    current: bool,
    description: seq<string>,
    tech: seq<string>)

  /** `rating` is documented as 1 to 5. */
  datatype Testimonial = Testimonial(
    id: int,
    name: string,
    role: string,
    company: string,
    content: string,
    avatar: Option<string>,
    rating: int)

  /** The contact form's own data: exactly four strings, no phone. */
  datatype ContactFormData = ContactFormData(name: string, email: string, subject: string, message: string)

  predicate LevelDocumented(s: Skill) {
    0 <= s.level <= 100
  }

  predicate RatingDocumented(t: Testimonial) {
    1 <= t.rating <= 5
  }
}
