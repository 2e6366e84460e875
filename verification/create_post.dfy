/**
 * The create-listing form: its state, tag editing (an insertion-ordered set
 * of tags), and the post record that submitting the form hands to the page.
 */
module CreatePost {
  import opened Wrappers
  import opened JsArray
  import opened App
  import opened TradingPost

  /** The form state (`formData`). */
  datatype FormData = FormData(
    title: string,
    category: string,
    game: string,
    price: string,
    description: string,
    tags: seq<string>,
    newTag: string,
    includeProof: bool)

  /** The category values offered by the form's select. */
  const Categories: seq<string> := ["codes", "pokemon", "items", "friends", "mobile"]

  /** The games offered by the form's select. */
  const Games: seq<string> := ["Pokemon Home", "Sword/Shield", "Pokemon Go", "Scarlet/Violet",
                               "Legends Arceus", "Brilliant Diamond/Shining Pearl", "Various"]

  /** The form as first shown. */
  const InitialForm: FormData := FormData("", "pokemon", "Pokemon Home", "", "", [], "", false)

  /** No tag occurs twice. */
  predicate Distinct(tags: seq<string>)
  {
    forall i, j :: 0 <= i < j < |tags| ==> tags[i] != tags[j]
  }

  // ---------------------------------------------------------------------------
  // Tags

  /**
   * `addTag`: a non-empty tag that is not yet present is appended and the
   * input cleared; otherwise the form is left as it is.
   */
  function AddTag(form: FormData): (r: FormData)
    ensures form.tags <= r.tags && |r.tags| <= |form.tags| + 1
    ensures Distinct(form.tags) ==> Distinct(r.tags)
    ensures forall t :: t in r.tags <==> t in form.tags || (t == form.newTag && t != "")
    ensures r.(tags := form.tags, newTag := form.newTag) == form
  {
    if form.newTag != "" && form.newTag !in form.tags then
      form.(tags := form.tags + [form.newTag], newTag := "")
    else
      form
  }

  /** An empty or already present tag leaves the form unchanged. */
  lemma AddTagNoOp(form: FormData)
    requires form.newTag == "" || form.newTag in form.tags
    ensures AddTag(form) == form
  {
  }

  /** A new non-empty tag goes at the end and the tag input is reset. */
  lemma AddTagAppends(form: FormData)
    requires form.newTag != "" && form.newTag !in form.tags
    ensures AddTag(form).tags == form.tags + [form.newTag]
    ensures AddTag(form).newTag == ""
  {
  }

  /** `removeTag(tag)`: every occurrence of `tag` is filtered out. */
  function RemoveTag(form: FormData, tag: string): (r: FormData)
    ensures tag !in r.tags
    ensures r.(tags := form.tags) == form
  {
    FilterMember(form.tags, t => t != tag, tag);
    form.(tags := Filter(form.tags, t => t != tag))
  }

  /**
   * Removing a tag keeps every other tag as often as before, in the original
   * order, and drops only that tag.
   */
  lemma RemoveTagKeepsOthers(form: FormData, tag: string, other: string)
    ensures multiset(RemoveTag(form, tag).tags)[other] == if other == tag then 0 else multiset(form.tags)[other]
    ensures SelectsKept(form.tags, t => t != tag, KeptPositions(form.tags, t => t != tag), RemoveTag(form, tag).tags)
  {
    FilterCount(form.tags, t => t != tag, other);
    FilterIsOrderedSelection(form.tags, t => t != tag);
  }

  /** Removing a tag keeps the remaining tags distinct. */
  lemma RemoveTagKeepsDistinct(form: FormData, tag: string)
    requires Distinct(form.tags)
    ensures Distinct(RemoveTag(form, tag).tags)
  {
    var r := RemoveTag(form, tag).tags;
    var idx := KeptPositions(form.tags, t => t != tag);
    FilterIsOrderedSelection(form.tags, t => t != tag);
    forall i, j | 0 <= i < j < |r|
      ensures r[i] != r[j]
    {
      assert idx[i] < idx[j];
    }
  }

  /** Removing a tag that is absent changes nothing. */
  lemma RemoveAbsentTag(form: FormData, tag: string)
    requires tag !in form.tags
    ensures RemoveTag(form, tag) == form
  {
    forall i | 0 <= i < |form.tags|
      ensures form.tags[i] != tag
    {
    }
    FilterKeepsAll(form.tags, t => t != tag);
  }

  /** Adding a fresh tag and then removing it gives back the original tags. */
  lemma RemoveUndoesAdd(form: FormData)
    requires form.newTag != "" && form.newTag !in form.tags
    ensures RemoveTag(AddTag(form), form.newTag).tags == form.tags
  {
    var tag := form.newTag;
    FilterAppend(form.tags, [tag], t => t != tag);
    RemoveAbsentTag(form, tag);
    assert Filter([tag], t => t != tag) == [];
  }

  /** One tag action of the user: type a tag and press add, or press a tag's remove button. */
  datatype TagEdit = Add(tag: string) | Remove(tag: string)

  /** The form after the user's tag actions, in order. */
  function ApplyTagEdits(form: FormData, edits: seq<TagEdit>): (r: FormData)
    ensures r.(tags := form.tags, newTag := form.newTag) == form
    decreases |edits|
  {
    if edits == [] then form
    else
      var next := match edits[0]
        case Add(tag) => AddTag(form.(newTag := tag))
        case Remove(tag) => RemoveTag(form, tag);
      ApplyTagEdits(next, edits[1..])
  }

  /** Whatever tag actions follow, tags that start distinct stay distinct. */
  lemma {:induction false} TagEditsKeepDistinct(form: FormData, edits: seq<TagEdit>)
    requires Distinct(form.tags)
    ensures Distinct(ApplyTagEdits(form, edits).tags)
    decreases |edits|
  {
    if edits != [] {
      match edits[0]
      case Add(tag) =>
        TagEditsKeepDistinct(AddTag(form.(newTag := tag)), edits[1..]);
      case Remove(tag) =>
        RemoveTagKeepsDistinct(form, tag);
        TagEditsKeepDistinct(RemoveTag(form, tag), edits[1..]);
    }
  }

  /**
   * The form as first shown offers its own category and game, has no tags and
   * cannot be submitted yet; the tags stay distinct under any tag actions.
   */
  lemma InitialFormValid(edits: seq<TagEdit>)
    ensures InitialForm.category in Categories && InitialForm.game in Games
    ensures InitialForm.tags == [] && !SubmitAllowed(InitialForm)
    ensures Distinct(ApplyTagEdits(InitialForm, edits).tags)
  {
    TagEditsKeepDistinct(InitialForm, edits);
  }

  // ---------------------------------------------------------------------------
  // Submitting

  /** The browser's `required` check on the title and the description. */
  predicate SubmitAllowed(form: FormData)
  {
    form.title != "" && form.description != ""
  }

  /**
   * `handleSubmit`: the post handed to the page. An empty price becomes "no
   * price"; the author is the fixed current user; the post is unverified.
   */
  function HandleSubmit(form: FormData): (post: NewPost)
    ensures post.price == (if form.price == "" then None else Some(form.price))
    ensures post.user == "CurrentUser" && post.userFlair == "Great Ball"
    ensures !post.verified && post.proof == None
    ensures post.title == form.title && post.category == form.category && post.game == form.game
    ensures post.description == form.description && post.tags == form.tags
  {
    NewPost(form.title, form.category, form.game, "CurrentUser", "Great Ball",
            if form.price == "" then None else Some(form.price),
            form.description, form.tags, false, None)
  }

  /** Pressing "Create Post": nothing is submitted while a required field is empty. */
  function Submit(form: FormData): (post: Option<NewPost>)
    ensures post.Some? <==> SubmitAllowed(form)
    ensures post.Some? ==> post.value == HandleSubmit(form)
  {
    if SubmitAllowed(form) then Some(HandleSubmit(form)) else None
  }

  /**
   * The listing created from the form heads the page's list, shows the pay
   * button exactly when a price was typed, and starts with no badge and an
   * "Add Proof" button.
   */
  lemma CreatedListingCard(posts: seq<TradingPostData>, form: FormData, id: string)
    ensures var listed := HandleCreatePost(posts, HandleSubmit(form), id);
      && (ShowsPayment(listed[0]) <==> form.price != "")
      && ProofBadge(listed[0]) == NoBadge
      && ProofButtonFor(listed[0]) == AddProof
      && listed[0].replies == 0
      && listed[1..] == posts
  {
  }
}
