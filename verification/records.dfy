/** The documents the registry keeps (the interfaces of functions/utils/metadata.ts). */
module Records {
  import opened Common

  datatype Role = Admin | User | Guest

  datatype Tier = Free | Premium

  datatype Profile = Profile(name: Option<string>, avatar: Option<string>)

  /** A media asset. `kind` is kept as the string the upload form carried: it is never checked against
      'movie' | 'tv' | 'audio' | 'course'. */
  datatype MediaMetadata = MediaMetadata(
    id: string,
    title: string,
    kind: string,
    languages: seq<string>,
    qualities: Option<seq<string>>,
    premium: bool,
    createdAt: int,
    duration: Option<real>,
    thumbnail: Option<string>,
    description: Option<string>)

  datatype UserMetadata = UserMetadata(
    id: string,
    email: string,
    passwordHash: string,
    role: Role,
    subscription: Tier,
    createdAt: int,
    profile: Option<Profile>)

  datatype Lesson = Lesson(id: string, title: string, order: int, mediaId: string, duration: Option<real>)

  datatype CourseMetadata = CourseMetadata(
    id: string,
    title: string,
    description: string,
    premium: bool,
    lessons: seq<Lesson>,
    createdAt: int,
    thumbnail: Option<string>)

  datatype SubscriptionPlan = SubscriptionPlan(id: string, name: string, price: real, features: seq<string>)

  /** A JSON document as the registry stores it; stringify and parse are taken as each other's inverse. */
  datatype Document =
    | MediaDoc(media: MediaMetadata)
    | UserDoc(user: UserMetadata)
    | CourseDoc(course: CourseMetadata)
    | PlanDoc(plan: SubscriptionPlan)
}
