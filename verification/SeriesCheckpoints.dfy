/**
 Content-series payloads and the two checkpoints derived from them: `_safe_content_series_payload`,
 `_validated_series_checkpoint` and `_persisted_series_checkpoint`.
 */
module SeriesCheckpoints {
  import opened Wrappers
  import opened Text

  /** Parsed JSON; a missing key reads as `Null`, as `dict.get` does. */
  datatype Json =
    | Null | Bool(b: bool) | Num(v: real) | Str(s: string) | Arr(items: seq<Json>) | Obj(fields: map<string, Json>)

  function Get(o: map<string, Json>, key: string): Json {
    if key in o then o[key] else Null
  }

  /** Python's `==` with an integer: booleans are numbers, and 2.0 == 2. */
  predicate EqualsInt(j: Json, n: int): (r: bool)
    ensures r <==> j == Num(n as real) || (n == 1 && j == Bool(true)) || (n == 0 && j == Bool(false))
  {
    match j
    case Num(v) => v == n as real
    case Bool(b) => n == if b then 1 else 0
    case _ => false
  }

  datatype PlanPost = PlanPost(ordinal: int, title: string, angle: string, objective: string)

  datatype Plan = Plan(title: string, summary: string, posts: seq<PlanPost>)

  datatype Post = Post(plan: PlanPost, text: string)

  datatype Parsed = Parsed(title: string, summary: string, posts: seq<Post>, fingerprint: string)

  /**
   What the parsers use from outside: the case and space folding of titles, the acceptance of a text by
   `PostDocument`, and the hash of a plan's canonical JSON.
   */
  datatype Env = Env(fold: string -> string, documentOk: string -> bool, hash: Plan -> string)

  const MAX_TITLE: nat := 255
  const MAX_SUMMARY: nat := 2000
  const MAX_PLAN_TEXT: nat := 1000
  const MAX_TEXT: nat := 4096
  const CHECKPOINT_VERSION: int := 1

  /** What the parsers make of a text field: a string that is nonempty and within the limit once stripped. */
  function Normalized(j: Json, limit: nat): Option<string> {
    if !j.Str? || Strip(j.s) == "" || |Strip(j.s)| > limit then None else Some(Strip(j.s))
  }

  /******* What is acceptable *******/

  predicate TextOk(j: Json, limit: nat) {
    j.Str? && 1 <= |Strip(j.s)| <= limit
  }

  /** The field without its margins. */
  function TextOf(j: Json): (r: string)
    ensures Stripped(r)
  {
    if j.Str? then Strip(j.s) else ""
  }

  /** Everything asked of one post by itself. */
  predicate PostOk(env: Env, j: Json) {
    && j.Obj? && j.fields.Keys == {"title", "angle", "objective", "text"}
    && TextOk(j.fields["title"], 255) && TextOk(j.fields["angle"], 1000)
    && TextOk(j.fields["objective"], 1000) && TextOk(j.fields["text"], 4096)
    && env.documentOk(TextOf(j.fields["text"]))
  }

  function PostOf(j: Json, ordinal: int): Post {
    if !j.Obj? then Post(PlanPost(ordinal, "", "", ""), "")
    else
      Post(PlanPost(ordinal, TextOf(Get(j.fields, "title")), TextOf(Get(j.fields, "angle")),
                    TextOf(Get(j.fields, "objective"))),
           TextOf(Get(j.fields, "text")))
  }

  /** Two posts that the duplicate checks tell apart. */
  predicate Apart(env: Env, a: Post, b: Post) {
    && env.fold(a.plan.title) != env.fold(b.plan.title) && env.fold(a.plan.angle) != env.fold(b.plan.angle)
    && env.fold(a.text) != env.fold(b.text)
  }

  function PostsOf(raw: seq<Json>): (posts: seq<Post>)
    ensures |posts| == |raw| && forall i :: 0 <= i < |raw| ==> posts[i] == PostOf(raw[i], i + 1)
  {
    seq(|raw|, i requires 0 <= i < |raw| => PostOf(raw[i], i + 1))
  }

  ghost predicate PostsOk(env: Env, raw: seq<Json>) {
    && (forall i :: 0 <= i < |raw| ==> PostOk(env, raw[i]))
    && (forall i, j :: 0 <= i < j < |raw| ==> Apart(env, PostsOf(raw)[i], PostsOf(raw)[j]))
  }

  predicate SeriesOk(j: Json) {
    && j.Obj? && j.fields.Keys == {"title", "summary"}
    && TextOk(j.fields["title"], 255) && TextOk(j.fields["summary"], 2000)
  }

  /** `_safe_content_series_payload` accepts the payload. */
  ghost predicate Accepts(env: Env, payload: Json, count: nat) {
    && payload.Obj? && payload.fields.Keys == {"series", "posts"}
    && SeriesOk(payload.fields["series"])
    && payload.fields["posts"].Arr? && |payload.fields["posts"].items| == count
    && PostsOk(env, payload.fields["posts"].items)
  }

  function PlanOf(title: string, summary: string, posts: seq<Post>): Plan {
    Plan(title, summary, seq(|posts|, i requires 0 <= i < |posts| => posts[i].plan))
  }

  /** What an accepted payload is parsed to. */
  function ParsedOf(env: Env, payload: Json): Parsed
    requires payload.Obj? && Get(payload.fields, "series").Obj? && Get(payload.fields, "posts").Arr?
  {
    var series := payload.fields["series"].fields;
    var title, summary := TextOf(Get(series, "title")), TextOf(Get(series, "summary"));
    var posts := PostsOf(payload.fields["posts"].items);
    Parsed(title, summary, posts, env.hash(PlanOf(title, summary, posts)))
  }

  /******* The generated payload *******/

  method SafeSeries(j: Json) returns (r: Option<(string, string)>)
    ensures r.Some? <==> SeriesOk(j)
    ensures r.Some? ==> r.value == (TextOf(j.fields["title"]), TextOf(j.fields["summary"]))
  {
    hide Strip;
    if !j.Obj? || j.fields.Keys != {"title", "summary"} {
      return None;
    }
    var title := Normalized(j.fields["title"], MAX_TITLE);
    var summary := Normalized(j.fields["summary"], MAX_SUMMARY);
    if title.None? || summary.None? {
      return None;
    }
    return Some((title.value, summary.value));
  }

  method SafePost(env: Env, j: Json, ordinal: int) returns (r: Option<Post>)
    ensures r.Some? <==> PostOk(env, j)
    ensures r.Some? ==> r.value == PostOf(j, ordinal)
  {
    hide Strip;
    if !j.Obj? || j.fields.Keys != {"title", "angle", "objective", "text"} {
      return None;
    }
    var title := Normalized(j.fields["title"], MAX_TITLE);
    var angle := Normalized(j.fields["angle"], MAX_PLAN_TEXT);
    var objective := Normalized(j.fields["objective"], MAX_PLAN_TEXT);
    var text := Normalized(j.fields["text"], MAX_TEXT);
    if title.None? || angle.None? || objective.None? || text.None? || !env.documentOk(text.value) {
      return None;
    }
    return Some(Post(PlanPost(ordinal, title.value, angle.value, objective.value), text.value));
  }

  method SafeContentSeriesPayload(env: Env, payload: Json, count: nat) returns (r: Option<Parsed>)
    ensures r.Some? <==> Accepts(env, payload, count)
    ensures r.Some? ==> r.value == ParsedOf(env, payload)
  {
    hide TextOk, PostsOf, TextOf;
    if !payload.Obj? || payload.fields.Keys != {"series", "posts"} {
      return None;
    }
    var raw := payload.fields["posts"];
    var series := SafeSeries(payload.fields["series"]);
    if series.None? || !raw.Arr? || |raw.items| != count {
      return None;
    }
    var posts := SafePosts(env, raw.items);
    if posts.None? {
      return None;
    }
    var (title, summary) := series.value;
    var plan := Plan(title, summary, Plans(posts.value));
    assert plan == PlanOf(title, summary, posts.value);
    return Some(Parsed(title, summary, posts.value, env.hash(plan)));
  }

  ghost function Titles(env: Env, posts: seq<PlanPost>): set<string> {
    set p | p in posts :: env.fold(p.title)
  }

  ghost function Angles(env: Env, posts: seq<PlanPost>): set<string> {
    set p | p in posts :: env.fold(p.angle)
  }

  ghost function Texts(env: Env, posts: seq<Post>): set<string> {
    set p | p in posts :: env.fold(p.text)
  }

  function Plans(posts: seq<Post>): (plans: seq<PlanPost>)
    ensures |plans| == |posts| && forall i :: 0 <= i < |posts| ==> plans[i] == posts[i].plan
  {
    seq(|posts|, i requires 0 <= i < |posts| => posts[i].plan)
  }

  /** A post is apart from all earlier ones exactly when none of its folded values was seen. */
  lemma UnseenIsApart(env: Env, posts: seq<Post>, post: Post)
    ensures (env.fold(post.plan.title) !in Titles(env, Plans(posts))
             && env.fold(post.plan.angle) !in Angles(env, Plans(posts))
             && env.fold(post.text) !in Texts(env, posts))
       <==> forall k :: 0 <= k < |posts| ==> Apart(env, posts[k], post)
    ensures Titles(env, Plans(posts + [post])) == Titles(env, Plans(posts)) + {env.fold(post.plan.title)}
    ensures Angles(env, Plans(posts + [post])) == Angles(env, Plans(posts)) + {env.fold(post.plan.angle)}
    ensures Texts(env, posts + [post]) == Texts(env, posts) + {env.fold(post.text)}
  {
    UnseenIsApartPlan(env, Plans(posts), post.plan);
    assert Plans(posts + [post]) == Plans(posts) + [post.plan];
    forall k | 0 <= k < |posts|
      ensures posts[k] in posts && env.fold(posts[k].text) in Texts(env, posts)
      ensures PlansApart(env, Plans(posts)[k], post.plan) ==>
        Apart(env, posts[k], post) || env.fold(posts[k].text) == env.fold(post.text)
    {
    }
  }

  lemma UnseenIsApartPlan(env: Env, posts: seq<PlanPost>, post: PlanPost)
    ensures (env.fold(post.title) !in Titles(env, posts) && env.fold(post.angle) !in Angles(env, posts))
       <==> forall k :: 0 <= k < |posts| ==> PlansApart(env, posts[k], post)
    ensures Titles(env, posts + [post]) == Titles(env, posts) + {env.fold(post.title)}
    ensures Angles(env, posts + [post]) == Angles(env, posts) + {env.fold(post.angle)}
  {
    forall k | 0 <= k < |posts|
      ensures env.fold(posts[k].title) in Titles(env, posts) && env.fold(posts[k].angle) in Angles(env, posts)
    {
      assert posts[k] in posts;
    }
  }

  /** The loop over the posts with its three sets of folded values seen so far. */
  method SafePosts(env: Env, raw: seq<Json>) returns (r: Option<seq<Post>>)
    ensures r.Some? <==> PostsOk(env, raw)
    ensures r.Some? ==> r.value == PostsOf(raw)
  {
    hide PostOk, PostOf, Apart, Titles, Angles, Texts;
    var posts: seq<Post> := [];
    var titles: set<string>, angles: set<string>, texts: set<string> := {}, {}, {};
    NothingSeen(env);
    for i := 0 to |raw|
      invariant posts == PostsOf(raw)[..i]
      invariant forall k :: 0 <= k < i ==> PostOk(env, raw[k])
      invariant forall j, k :: 0 <= j < k < i ==> Apart(env, posts[j], posts[k])
      invariant titles == Titles(env, Plans(posts)) && angles == Angles(env, Plans(posts)) && texts == Texts(env, posts)
    {
      var safe := SafePost(env, raw[i], i + 1);
      if safe.None? {
        return None;
      }
      var post := safe.value;
      assert PostsOf(raw)[i] == post;
      UnseenIsApart(env, posts, post);
      if env.fold(post.plan.title) in titles || env.fold(post.plan.angle) in angles || env.fold(post.text) in texts {
        ghost var k :| 0 <= k < i && !Apart(env, posts[k], post);
        assert PostsOf(raw)[k] == posts[k];
        return None;
      }
      posts := posts + [post];
      titles := titles + {env.fold(post.plan.title)};
      angles := angles + {env.fold(post.plan.angle)};
      texts := texts + {env.fold(post.text)};
    }
    assert posts == PostsOf(raw);
    return Some(posts);
  }

  lemma NothingSeen(env: Env)
    ensures Titles(env, []) == {} && Angles(env, []) == {} && Texts(env, []) == {} && Plans([]) == []
  {
  }

  /******* The validated checkpoint *******/

  const CHECKPOINT_KEYS: set<string> :=
    {"checkpoint_version", "state", "requested_post_count", "series", "posts", "plan_fingerprint", "context_summary"}

  function SeriesJson(title: string, summary: string): Json {
    Obj(map["title" := Str(title), "summary" := Str(summary)])
  }

  function Checkpoint(state: string, count: nat, title: string, summary: string, posts: seq<Json>, fingerprint: string,
                      context: map<string, Json>): Json {
    Obj(map["checkpoint_version" := Num(CHECKPOINT_VERSION as real), "state" := Str(state),
            "requested_post_count" := Num(count as real), "series" := SeriesJson(title, summary), "posts" := Arr(posts),
            "plan_fingerprint" := Str(fingerprint), "context_summary" := Obj(context)])
  }

  function ValidatedPost(p: Post): Json {
    Obj(map["ordinal" := Num(p.plan.ordinal as real), "title" := Str(p.plan.title), "angle" := Str(p.plan.angle),
            "objective" := Str(p.plan.objective), "text" := Str(p.text)])
  }

  /** The checkpoint written once the payload was accepted. */
  function WriteValidated(p: Parsed, count: nat, context: map<string, Json>): Json {
    Checkpoint("generation_validated", count, p.title, p.summary, ValidatedPosts(p.posts), p.fingerprint, context)
  }

  function ValidatedPosts(posts: seq<Post>): (stored: seq<Json>)
    ensures |stored| == |posts| && forall i :: 0 <= i < |posts| ==> stored[i] == ValidatedPost(posts[i])
  {
    seq(|posts|, i requires 0 <= i < |posts| => ValidatedPost(posts[i]))
  }

  /** The keys, version, state and count of a checkpoint. */
  predicate HeaderOk(c: Json, state: string, count: nat) {
    && c.Obj?
    && c.fields.Keys == {"checkpoint_version", "state", "requested_post_count", "series", "posts", "plan_fingerprint",
                         "context_summary"}
    && EqualsInt(c.fields["checkpoint_version"], 1) && c.fields["state"] == Str(state)
    && EqualsInt(c.fields["requested_post_count"], count) && c.fields["context_summary"].Obj?
    && c.fields["series"].Obj? && c.fields["posts"].Arr?
  }

  /** What both readers check first. */
  method CheckHeader(c: Json, state: string, count: nat) returns (ok: bool)
    ensures ok == HeaderOk(c, state, count)
  {
    if !c.Obj? || c.fields.Keys != CHECKPOINT_KEYS {
      return false;
    }
    if !EqualsInt(c.fields["checkpoint_version"], CHECKPOINT_VERSION) || c.fields["state"] != Str(state) {
      return false;
    }
    if !EqualsInt(c.fields["requested_post_count"], count) || !c.fields["context_summary"].Obj? {
      return false;
    }
    return c.fields["series"].Obj? && c.fields["posts"].Arr?;
  }

  /** The four payload fields of a stored post; anything else than an object is passed on. */
  function ModelPost(j: Json): Json {
    if !j.Obj? then j
    else Obj(map["title" := Get(j.fields, "title"), "angle" := Get(j.fields, "angle"),
                 "objective" := Get(j.fields, "objective"), "text" := Get(j.fields, "text")])
  }

  function ModelPosts(posts: seq<Json>): (model: seq<Json>)
    ensures |model| == |posts| && forall i :: 0 <= i < |posts| ==> model[i] == ModelPost(posts[i])
  {
    seq(|posts|, i requires 0 <= i < |posts| => ModelPost(posts[i]))
  }

  function ModelPayload(series: Json, posts: seq<Json>): Json {
    Obj(map["series" := series, "posts" := Arr(ModelPosts(posts))])
  }

  ghost predicate ValidatedOk(env: Env, c: Json, count: nat) {
    && HeaderOk(c, "generation_validated", count)
    && var posts := c.fields["posts"].items;
       var payload := ModelPayload(c.fields["series"], posts);
       && Accepts(env, payload, count)
       && (forall i :: 0 <= i < |posts| ==> posts[i].Obj? && EqualsInt(Get(posts[i].fields, "ordinal"), i + 1))
       && c.fields["plan_fingerprint"] == Str(ParsedOf(env, payload).fingerprint)
  }

  /** `_validated_series_checkpoint`. */
  method ValidatedSeriesCheckpoint(env: Env, c: Json, count: nat) returns (r: Option<(Parsed, map<string, Json>)>)
    ensures r.Some? <==> ValidatedOk(env, c, count)
    ensures r.Some? ==>
      r.value == (ParsedOf(env, ModelPayload(c.fields["series"], c.fields["posts"].items)),
                  c.fields["context_summary"].fields)
  {
    hide PostsOk, SeriesOk;
    var ok := CheckHeader(c, "generation_validated", count);
    if !ok {
      return None;
    }
    var posts := c.fields["posts"].items;
    var payload := ModelPayload(c.fields["series"], posts);
    var parsed := SafeContentSeriesPayload(env, payload, count);
    if parsed.None? {
      return None;
    }
    if !(forall i :: 0 <= i < |posts| ==> posts[i].Obj? && EqualsInt(Get(posts[i].fields, "ordinal"), i + 1)) {
      return None;
    }
    if c.fields["plan_fingerprint"] != Str(parsed.value.fingerprint) {
      return None;
    }
    return Some((parsed.value, c.fields["context_summary"].fields));
  }

  /******* The persisted checkpoint *******/

  function PersistedPost(p: PlanPost): Json {
    Obj(map["ordinal" := Num(p.ordinal as real), "title" := Str(p.title), "angle" := Str(p.angle),
            "objective" := Str(p.objective)])
  }

  /** The checkpoint written with the drafts: the texts are gone. */
  function WritePersisted(p: Parsed, count: nat, context: map<string, Json>): Json {
    Checkpoint("series_persisted", count, p.title, p.summary,
               seq(|p.posts|, i requires 0 <= i < |p.posts| => PersistedPost(p.posts[i].plan)), p.fingerprint, context)
  }

  predicate PlanPostOk(j: Json, ordinal: int) {
    && j.Obj? && j.fields.Keys == {"ordinal", "title", "angle", "objective"} && EqualsInt(j.fields["ordinal"], ordinal)
    && TextOk(j.fields["title"], 255) && TextOk(j.fields["angle"], 1000) && TextOk(j.fields["objective"], 1000)
  }

  function PlanPostsOf(raw: seq<Json>): (posts: seq<PlanPost>)
    ensures |posts| == |raw| && forall i :: 0 <= i < |raw| ==> posts[i] == PostOf(raw[i], i + 1).plan
  {
    seq(|raw|, i requires 0 <= i < |raw| => PostOf(raw[i], i + 1).plan)
  }

  predicate PlansApart(env: Env, a: PlanPost, b: PlanPost) {
    env.fold(a.title) != env.fold(b.title) && env.fold(a.angle) != env.fold(b.angle)
  }

  ghost predicate PlanPostsOk(env: Env, raw: seq<Json>) {
    && (forall i :: 0 <= i < |raw| ==> PlanPostOk(raw[i], i + 1))
    && (forall i, j :: 0 <= i < j < |raw| ==> PlansApart(env, PlanPostsOf(raw)[i], PlanPostsOf(raw)[j]))
  }

  function StoredPlan(c: Json): Plan
    requires c.Obj? && Get(c.fields, "series").Obj? && Get(c.fields, "posts").Arr?
  {
    var series := c.fields["series"].fields;
    Plan(TextOf(Get(series, "title")), TextOf(Get(series, "summary")), PlanPostsOf(c.fields["posts"].items))
  }

  ghost predicate PersistedOk(env: Env, c: Json, count: nat) {
    && HeaderOk(c, "series_persisted", count)
    && SeriesOk(c.fields["series"]) && |c.fields["posts"].items| == count && PlanPostsOk(env, c.fields["posts"].items)
    && c.fields["plan_fingerprint"] == Str(env.hash(StoredPlan(c)))
  }

  /** `_persisted_series_checkpoint`. */
  method PersistedSeriesCheckpoint(env: Env, c: Json, count: nat) returns (r: Option<(Plan, string)>)
    ensures r.Some? <==> PersistedOk(env, c, count)
    ensures r.Some? ==> r.value == (StoredPlan(c), env.hash(StoredPlan(c)))
  {
    hide TextOk, PlanPostsOk, PlanPostsOf, TextOf;
    var ok := CheckHeader(c, "series_persisted", count);
    if !ok || |c.fields["posts"].items| != count {
      return None;
    }
    var posts := StoredPosts(env, c.fields["posts"].items);
    var series := SafeSeries(c.fields["series"]);
    if posts.None? || series.None? {
      return None;
    }
    var plan := Plan(series.value.0, series.value.1, posts.value);
    if c.fields["plan_fingerprint"] != Str(env.hash(plan)) {
      return None;
    }
    return Some((plan, env.hash(plan)));
  }

  method StoredPost(j: Json, ordinal: int) returns (r: Option<PlanPost>)
    ensures r.Some? <==> PlanPostOk(j, ordinal)
    ensures r.Some? ==> r.value == PostOf(j, ordinal).plan
  {
    hide Strip;
    if !j.Obj? || j.fields.Keys != {"ordinal", "title", "angle", "objective"}
       || !EqualsInt(j.fields["ordinal"], ordinal) {
      return None;
    }
    var title := Normalized(j.fields["title"], MAX_TITLE);
    var angle := Normalized(j.fields["angle"], MAX_PLAN_TEXT);
    var objective := Normalized(j.fields["objective"], MAX_PLAN_TEXT);
    if title.None? || angle.None? || objective.None? {
      return None;
    }
    return Some(PlanPost(ordinal, title.value, angle.value, objective.value));
  }

  method StoredPosts(env: Env, raw: seq<Json>) returns (r: Option<seq<PlanPost>>)
    ensures r.Some? <==> PlanPostsOk(env, raw)
    ensures r.Some? ==> r.value == PlanPostsOf(raw)
  {
    hide PlanPostOk, PostOf, PlansApart, Titles, Angles;
    var posts: seq<PlanPost> := [];
    var titles: set<string>, angles: set<string> := {}, {};
    NothingSeen(env);
    for i := 0 to |raw|
      invariant posts == PlanPostsOf(raw)[..i]
      invariant forall k :: 0 <= k < i ==> PlanPostOk(raw[k], k + 1)
      invariant forall j, k :: 0 <= j < k < i ==> PlansApart(env, posts[j], posts[k])
      invariant titles == Titles(env, posts) && angles == Angles(env, posts)
    {
      var stored := StoredPost(raw[i], i + 1);
      if stored.None? {
        return None;
      }
      var post := stored.value;
      assert PlanPostsOf(raw)[i] == post;
      UnseenIsApartPlan(env, posts, post);
      if env.fold(post.title) in titles || env.fold(post.angle) in angles {
        ghost var k :| 0 <= k < i && !PlansApart(env, posts[k], post);
        assert PlanPostsOf(raw)[k] == posts[k];
        return None;
      }
      posts := posts + [post];
      titles := titles + {env.fold(post.title)};
      angles := angles + {env.fold(post.angle)};
    }
    assert posts == PlanPostsOf(raw);
    return Some(posts);
  }

  /******* Round trips *******/

  lemma TextAgain(j: Json, limit: nat)
    requires TextOk(j, limit)
    ensures TextOk(Str(TextOf(j)), limit) && TextOf(Str(TextOf(j))) == TextOf(j)
  {
    StripIdempotent(j.s);
  }

  /** Reading a stored post back gives the post. */
  lemma StoredPostAgain(env: Env, j: Json, ordinal: int)
    requires PostOk(env, j)
    ensures var p := PostOf(j, ordinal);
      && PostOk(env, ModelPost(ValidatedPost(p))) && PostOf(ModelPost(ValidatedPost(p)), ordinal) == p
      && EqualsInt(Get(ValidatedPost(p).fields, "ordinal"), ordinal)
      && PlanPostOk(PersistedPost(p.plan), ordinal) && PostOf(PersistedPost(p.plan), ordinal).plan == p.plan
  {
    hide Strip;
    TextAgain(j.fields["title"], 255);
    TextAgain(j.fields["angle"], 1000);
    TextAgain(j.fields["objective"], 1000);
    TextAgain(j.fields["text"], 4096);
  }

  lemma SeriesAgain(j: Json)
    requires SeriesOk(j)
    ensures var s := SeriesJson(TextOf(j.fields["title"]), TextOf(j.fields["summary"]));
      && SeriesOk(s)
      && TextOf(s.fields["title"]) == TextOf(j.fields["title"])
      && TextOf(s.fields["summary"]) == TextOf(j.fields["summary"])
  {
    hide Strip;
    TextAgain(j.fields["title"], 255);
    TextAgain(j.fields["summary"], 2000);
  }

  lemma HeaderAgain(state: string, count: nat, title: string, summary: string, posts: seq<Json>, fingerprint: string,
                    context: map<string, Json>)
    ensures HeaderOk(Checkpoint(state, count, title, summary, posts, fingerprint, context), state, count)
  {
  }

  /**
   For every accepted payload, the validated checkpoint written for it is accepted and gives back the
   same series, posts and fingerprint.
   */
  lemma ValidatedRoundTrip(env: Env, payload: Json, count: nat, context: map<string, Json>)
    requires Accepts(env, payload, count)
    ensures var c := WriteValidated(ParsedOf(env, payload), count, context);
      && ValidatedOk(env, c, count)
      && ParsedOf(env, ModelPayload(c.fields["series"], c.fields["posts"].items)) == ParsedOf(env, payload)
      && c.fields["context_summary"].fields == context
  {
    hide TextOk, SeriesOk, PostOk, Strip, PostOf, PostsOk, ModelPosts, ValidatedPosts, PostsOf;
    SeriesShape(payload.fields["series"]);
    var p := ParsedOf(env, payload);
    var stored := ValidatedPosts(p.posts);
    SeriesAgain(payload.fields["series"]);
    HeaderAgain("generation_validated", count, p.title, p.summary, stored, p.fingerprint, context);
    PostsAgain(env, payload.fields["posts"].items);
  }

  /** The stored posts are accepted again, give the same posts, and carry their ordinals. */
  lemma PostsAgain(env: Env, raw: seq<Json>)
    requires PostsOk(env, raw)
    ensures var stored := ValidatedPosts(PostsOf(raw));
      && PostsOk(env, ModelPosts(stored)) && PostsOf(ModelPosts(stored)) == PostsOf(raw)
      && forall i :: 0 <= i < |stored| ==> stored[i].Obj? && EqualsInt(Get(stored[i].fields, "ordinal"), i + 1)
  {
    hide PostOk, PostOf, Apart;
    var stored := ValidatedPosts(PostsOf(raw));
    forall i | 0 <= i < |raw|
      ensures PostOk(env, ModelPosts(stored)[i]) && PostOf(ModelPosts(stored)[i], i + 1) == PostsOf(raw)[i]
      ensures stored[i].Obj? && EqualsInt(Get(stored[i].fields, "ordinal"), i + 1)
    {
      StoredPostAgain(env, raw[i], i + 1);
    }
    assert PostsOf(ModelPosts(stored)) == PostsOf(raw);
  }

  lemma SeriesShape(j: Json)
    requires SeriesOk(j)
    ensures j.Obj? && j.fields.Keys == {"title", "summary"}
  {
  }

  /**
   The persisted checkpoint derived from the parsed payload is accepted, and its plan has the same
   fingerprint.
   */
  lemma PersistedRoundTrip(env: Env, payload: Json, count: nat, context: map<string, Json>)
    requires Accepts(env, payload, count)
    ensures var p := ParsedOf(env, payload); var c := WritePersisted(p, count, context);
      && PersistedOk(env, c, count)
      && StoredPlan(c) == PlanOf(p.title, p.summary, p.posts) && env.hash(StoredPlan(c)) == p.fingerprint
  {
    hide TextOk, SeriesOk, PostOk, PlanPostOk, Strip, PostOf;
    SeriesShape(payload.fields["series"]);
    var p := ParsedOf(env, payload);
    var raw := payload.fields["posts"].items;
    var c := WritePersisted(p, count, context);
    var stored := c.fields["posts"].items;
    SeriesAgain(payload.fields["series"]);
    HeaderAgain("series_persisted", count, p.title, p.summary, stored, p.fingerprint, context);
    forall i | 0 <= i < count
      ensures PlanPostOk(stored[i], i + 1) && PostOf(stored[i], i + 1).plan == p.posts[i].plan
    {
      StoredPostAgain(env, raw[i], i + 1);
    }
    assert PlanPostsOf(stored) == PlanOf(p.title, p.summary, p.posts).posts;
    forall i, j | 0 <= i < j < count
      ensures PlansApart(env, PlanPostsOf(stored)[i], PlanPostsOf(stored)[j])
    {
      assert Apart(env, PostsOf(raw)[i], PostsOf(raw)[j]);
    }
  }

  /** What the reader of validated checkpoints returns is again what its own checkpoint gives. */
  lemma ReadBackIsStable(env: Env, c: Json, count: nat, context: map<string, Json>)
    requires ValidatedOk(env, c, count)
    ensures var p := ParsedOf(env, ModelPayload(c.fields["series"], c.fields["posts"].items));
      && ValidatedOk(env, WriteValidated(p, count, context), count)
      && PersistedOk(env, WritePersisted(p, count, context), count)
  {
    hide Accepts, PersistedOk;
    var payload := ModelPayload(c.fields["series"], c.fields["posts"].items);
    ValidatedRoundTrip(env, payload, count, context);
    PersistedRoundTrip(env, payload, count, context);
  }
}
