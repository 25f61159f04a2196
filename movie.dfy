/**
 * A broadcast as the client returns it: a record of the 21 constructor
 * arguments, stored unchanged and without any validation. The fields hold
 * whatever decoded JSON the caller passed; the parameter annotations are
 * kept as a schema so that "conforms to its annotations" can be stated.
 */
module Movies {
  import opened JsonValues

  datatype Movie = Movie(
    id: Json,
    userId: Json,
    title: Json,
    subtitle: Json,
    lastOwnerComment: Json,
    category: Json,
    link: Json,
    isLive: Json,
    isRecorded: Json,
    commentCount: Json,
    largeThumbnail: Json,
    smallThumbnail: Json,
    country: Json,
    duration: Json,
    created: Json,
    isCollabo: Json,
    isProtected: Json,
    maxViewCount: Json,
    currentViewCount: Json,
    totalViewCount: Json,
    hlsUrl: Json)

  /** The constructor's parameters with their annotations, in declaration order. */
  const MovieSchema: seq<(string, PyType)> := [
    ("id", Str), ("user_id", Str), ("title", Str), ("subtitle", OptionalStr),
    ("last_owner_comment", OptionalStr), ("category", OptionalStr), ("link", Str),
    ("is_live", Bool), ("is_recorded", Bool), ("comment_count", Int),
    ("large_thumbnail", Str), ("small_thumbnail", Str), ("country", Str),
    ("duration", Int), ("created", Int), ("is_collabo", Bool), ("is_protected", Bool),
    ("max_view_count", Int), ("current_view_count", Int), ("total_view_count", Int),
    ("hls_url", OptionalStr)
  ]

  /** The fields of a Movie, in the schema's order. */
  function MovieFields(m: Movie): (fs: seq<Json>)
    ensures |fs| == |MovieSchema|
  {
    [m.id, m.userId, m.title, m.subtitle, m.lastOwnerComment, m.category, m.link,
     m.isLive, m.isRecorded, m.commentCount, m.largeThumbnail, m.smallThumbnail, m.country,
     m.duration, m.created, m.isCollabo, m.isProtected, m.maxViewCount, m.currentViewCount,
     m.totalViewCount, m.hlsUrl]
  }

  /** `Movie(*args)`: the constructor, taking its 21 arguments positionally. */
  function FromArguments(args: seq<Json>): (m: Movie)
    requires |args| == |MovieSchema|
    ensures MovieFields(m) == args
  {
    Movie(args[0], args[1], args[2], args[3], args[4], args[5], args[6], args[7], args[8],
          args[9], args[10], args[11], args[12], args[13], args[14], args[15], args[16],
          args[17], args[18], args[19], args[20])
  }

  /** Every field holds a value of its annotated type. */
  predicate MovieConforms(m: Movie)
  {
    forall i :: 0 <= i < |MovieSchema| ==> HasType(MovieFields(m)[i], MovieSchema[i].1)
  }

  /** subtitle, last_owner_comment, category and hls_url are the only `Optional[str]` parameters. */
  lemma OptionalParameters(i: int)
    requires 0 <= i < |MovieSchema|
    ensures MovieSchema[i].1 == OptionalStr <==> MovieSchema[i].0 in {"subtitle", "last_owner_comment", "category", "hls_url"}
  {
  }

  /** Any argument values construct a Movie, which gives each of them back. */
  lemma ConstructionStoresArguments(args: seq<Json>)
    requires |args| == |MovieSchema|
    ensures MovieFields(FromArguments(args)) == args
    ensures forall m :: MovieFields(m) == args ==> m == FromArguments(args)
  {
  }
}
