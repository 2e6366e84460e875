/**
 * The page's listing state: the post record, creating a post, attaching a
 * submitted proof to the selected post, and the category / search filter
 * that selects the visible posts.
 */
module App {
  import opened Wrappers
  import opened JsString
  import opened ProofModal
  import opened JsArray

  /** A trading post (listing). */
  datatype TradingPostData = TradingPostData(
    id: string,
    title: string,
    category: string,
    game: string,
    user: string,
    userFlair: string,
    price: Option<string>,
    description: string,
    tags: seq<string>,
    timestamp: string,
    replies: int,
    verified: bool,
    proof: Option<ProofData>)

  /** What the create form hands over: a post without id, timestamp and replies. */
  datatype NewPost = NewPost(
    title: string,
    category: string,
    game: string,
    user: string,
    userFlair: string,
    price: Option<string>,
    description: string,
    tags: seq<string>,
    verified: bool,
    proof: Option<ProofData>)

  /** The category filter value that selects every post. */
  const AllCategory: string := "all"

  // ---------------------------------------------------------------------------
  // Creating a post

  /** The stored post for `newPost`; `id` stands for the clock-derived id. */
  function CreatedPost(newPost: NewPost, id: string): (post: TradingPostData)
    ensures post.id == id && post.timestamp == "just now" && post.replies == 0
    ensures post.title == newPost.title && post.category == newPost.category
    ensures post.game == newPost.game && post.description == newPost.description
    ensures post.user == newPost.user && post.userFlair == newPost.userFlair
    ensures post.price == newPost.price && post.tags == newPost.tags
    ensures post.verified == newPost.verified && post.proof == newPost.proof
  {
    TradingPostData(id, newPost.title, newPost.category, newPost.game, newPost.user,
                    newPost.userFlair, newPost.price, newPost.description, newPost.tags,
                    "just now", 0, newPost.verified, newPost.proof)
  }

  /** `handleCreatePost`: the new post goes in front of the existing ones. */
  function HandleCreatePost(posts: seq<TradingPostData>, newPost: NewPost, id: string): (r: seq<TradingPostData>)
    ensures |r| == |posts| + 1
    ensures r[0] == CreatedPost(newPost, id)
    ensures r[1..] == posts
  {
    [CreatedPost(newPost, id)] + posts
  }

  // ---------------------------------------------------------------------------
  // Attaching a proof

  /**
   * `handleProofSubmit`: with a selected post, every post carrying its id gets
   * `proof` replaced; with no selected post nothing changes.
   */
  function HandleProofSubmit(posts: seq<TradingPostData>, selected: Option<TradingPostData>, proof: ProofData)
    : (r: seq<TradingPostData>)
    ensures |r| == |posts|
    ensures selected == None ==> r == posts
    ensures forall i :: 0 <= i < |posts| ==>
      r[i] == (if selected.Some? && posts[i].id == selected.value.id then posts[i].(proof := Some(proof)) else posts[i])
  {
    match selected
    case None => posts
    case Some(target) => ReplaceProof(posts, target.id, proof)
  }

  /** `posts.map(post => post.id === id ? { ...post, proof } : post)`. */
  function ReplaceProof(posts: seq<TradingPostData>, id: string, proof: ProofData): (r: seq<TradingPostData>)
    ensures |r| == |posts|
    ensures forall i :: 0 <= i < |posts| ==>
      r[i] == (if posts[i].id == id then posts[i].(proof := Some(proof)) else posts[i])
  {
    if posts == [] then []
    else [if posts[0].id == id then posts[0].(proof := Some(proof)) else posts[0]] + ReplaceProof(posts[1..], id, proof)
  }

  /** Proof submission keeps every id in place and leaves `verified` and the other fields alone. */
  lemma ProofSubmitKeepsIdentity(posts: seq<TradingPostData>, selected: Option<TradingPostData>, proof: ProofData, i: int)
    requires 0 <= i < |posts|
    ensures HandleProofSubmit(posts, selected, proof)[i].id == posts[i].id
    ensures HandleProofSubmit(posts, selected, proof)[i].verified == posts[i].verified
    ensures HandleProofSubmit(posts, selected, proof)[i].(proof := posts[i].proof) == posts[i]
  {
  }

  // ---------------------------------------------------------------------------
  // Filtering

  /** The category half of the filter: "all" matches everything. */
  predicate MatchesCategory(post: TradingPostData, category: string)
  {
    category == AllCategory || post.category == category
  }

  /** The search half: lower-cased query included in title, description or some tag. */
  predicate MatchesSearch(post: TradingPostData, query: string)
    ensures query == "" ==> MatchesSearch(post, query)
  {
    var q := ToLowerCase(query);
    || Includes(ToLowerCase(post.title), q)
    || Includes(ToLowerCase(post.description), q)
    || exists i :: 0 <= i < |post.tags| && Includes(ToLowerCase(post.tags[i]), q)
  }

  predicate Matches(post: TradingPostData, category: string, query: string)
  {
    MatchesCategory(post, category) && MatchesSearch(post, query)
  }

  /** `filteredPosts`: the posts that pass both halves of the filter, in list order. */
  function FilteredPosts(posts: seq<TradingPostData>, category: string, query: string): (visible: seq<TradingPostData>)
    ensures |visible| <= |posts|
    ensures forall i :: 0 <= i < |visible| ==> MatchesCategory(visible[i], category) && MatchesSearch(visible[i], query)
  {
    Filter(posts, post => Matches(post, category, query))
  }

  /** Search is a case-insensitive substring test against title, description or any tag. */
  lemma MatchesSearchIsSubstring(post: TradingPostData, query: string)
    ensures MatchesSearch(post, query) <==>
      || IsSubstring(ToLowerCase(query), ToLowerCase(post.title))
      || IsSubstring(ToLowerCase(query), ToLowerCase(post.description))
      || exists tag :: tag in post.tags && IsSubstring(ToLowerCase(query), ToLowerCase(tag))
  {
    var q := ToLowerCase(query);
    IncludesIsSubstring(ToLowerCase(post.title), q);
    IncludesIsSubstring(ToLowerCase(post.description), q);
    forall i | 0 <= i < |post.tags|
      ensures Includes(ToLowerCase(post.tags[i]), q) <==> IsSubstring(q, ToLowerCase(post.tags[i]))
    {
      IncludesIsSubstring(ToLowerCase(post.tags[i]), q);
    }
  }

  /**
   * The search ignores the case of the query: two queries that differ only in
   * ASCII case select the same posts.
   */
  lemma SearchIgnoresQueryCase(post: TradingPostData, q1: string, q2: string)
    requires |q1| == |q2| && forall i :: 0 <= i < |q1| ==> SameIgnoringAsciiCase(q1[i], q2[i])
    ensures MatchesSearch(post, q1) <==> MatchesSearch(post, q2)
  {
    ToLowerCaseEqualIff(q1, q2);
  }

  /** Lower-casing turns an occurrence of "Zacian" into one of "zacian" at the same position. */
  lemma LowerCasesZacian(title: string, k: int)
    requires OccursAt(title, "Zacian", k)
    ensures OccursAt(ToLowerCase(title), "zacian", k)
  {
    var lower := ToLowerCase(title);
    forall j | 0 <= j < 6
      ensures lower[k + j] == "zacian"[j]
    {
      assert title[k + j] == title[k..k + 6][j] == "Zacian"[j];
    }
    assert lower[k..k + 6] == "zacian";
  }

  /**
   * A listing whose title mentions "Zacian", as a seed listing's does, is
   * found by the query "zacian" and by "ZACIAN", and is visible under
   * category "all" with either query.
   */
  lemma SearchFindsZacian(posts: seq<TradingPostData>, post: TradingPostData, k: int)
    requires OccursAt(post.title, "Zacian", k)
    ensures MatchesSearch(post, "zacian") && MatchesSearch(post, "ZACIAN")
    ensures post in posts ==>
      post in FilteredPosts(posts, AllCategory, "zacian") && post in FilteredPosts(posts, AllCategory, "ZACIAN")
  {
    LowerCasesZacian(post.title, k);
    assert ToLowerCase("zacian") == "zacian";
    IncludesIsSubstring(ToLowerCase(post.title), "zacian");
    SearchIgnoresQueryCase(post, "zacian", "ZACIAN");
    VisibleIff(posts, AllCategory, "zacian", post);
    VisibleIff(posts, AllCategory, "ZACIAN", post);
  }

  /** Every post matches category "all" with the empty query. */
  lemma MatchesAllEmpty(post: TradingPostData)
    ensures Matches(post, AllCategory, "")
  {
    assert ToLowerCase("") == "";
  }

  /** With category "all" and an empty query the filter shows the whole list unchanged. */
  lemma FilterAllEmptyIsIdentity(posts: seq<TradingPostData>)
    ensures FilteredPosts(posts, AllCategory, "") == posts
  {
    forall i | 0 <= i < |posts|
      ensures Matches(posts[i], AllCategory, "")
    {
      MatchesAllEmpty(posts[i]);
    }
    FilterKeepsAll(posts, post => Matches(post, AllCategory, ""));
  }

  /**
   * The visible posts are exactly the matching posts of the list, at strictly
   * increasing positions: the filter never reorders, drops a match or repeats one.
   */
  lemma FilterSelectsMatching(posts: seq<TradingPostData>, category: string, query: string)
    ensures SelectsKept(posts, post => Matches(post, category, query),
                        KeptPositions(posts, post => Matches(post, category, query)),
                        FilteredPosts(posts, category, query))
  {
    FilterIsOrderedSelection(posts, post => Matches(post, category, query));
  }

  /** A post is visible exactly when it is listed and passes both the category and the search test. */
  lemma VisibleIff(posts: seq<TradingPostData>, category: string, query: string, post: TradingPostData)
    ensures post in FilteredPosts(posts, category, query) <==>
      post in posts && (category == AllCategory || post.category == category) && MatchesSearch(post, query)
  {
    FilterMember(posts, p => Matches(p, category, query), post);
  }

  /** A created post heads the filtered view when it matches and the rest of the view is unchanged. */
  lemma CreatedPostFilteredFirst(posts: seq<TradingPostData>, newPost: NewPost, id: string, category: string, query: string)
    ensures FilteredPosts(HandleCreatePost(posts, newPost, id), category, query)
         == (if Matches(CreatedPost(newPost, id), category, query) then [CreatedPost(newPost, id)] else [])
            + FilteredPosts(posts, category, query)
  {
    var created := CreatedPost(newPost, id);
    assert HandleCreatePost(posts, newPost, id) == [created] + posts;
    FilterAppend([created], posts, post => Matches(post, category, query));
    assert [created][1..] == [];
  }
}
