/** The records the client caches: posts, chat messages, and the shapes a
    cached query's data can take. */
module Entities {

  /** The author summary embedded in every post. */
  datatype UserRef = UserRef(userId: string, username: string, fullName: string, avatarUrl: string)

  /** A post as the API returns it; every field of the client's `Post` record. */
  datatype Post = Post(
    id: string,
    userId: string,
    user: UserRef,
    title: string,
    description: string,
    pdfUrl: string,
    thumbnailUrl: string,
    fileSize: int,
    pageCount: int,
    likesCount: int,
    commentsCount: int,
    sharesCount: int,
    isLiked: bool,
    isBookmarked: bool,
    createdAt: string,
    isPublic: bool)

  datatype Role = User | Assistant

  /** One message of a chat thread about a document. */
  datatype ChatMessage = ChatMessage(messageId: string, role: Role, content: string, timestamp: string)

  /** The data held by one cached query.
      Absent stands for every falsy value (no data yet, undefined, null);
      Single is one post object, List an array of posts, Messages an array of
      chat messages, and Other any other truthy value (a comment list, a
      profile object) that the post updater never rewrites. */
  datatype Value =
    | Absent
    | Single(post: Post)
    | List(posts: seq<Post>)
    | Messages(messages: seq<ChatMessage>)
    | Other(payload: string)

  /** JavaScript truthiness of the cached data: only Absent is falsy
      (an empty array is truthy). */
  predicate Truthy(v: Value) {
    !v.Absent?
  }
}
