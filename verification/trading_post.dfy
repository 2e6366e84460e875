/**
 * One listing card: the proof flags derived from the post's current proof,
 * the badge and proof button they select, and whether the price and the pay
 * button appear.
 */
module TradingPost {
  import opened Wrappers
  import opened ProofModal
  import opened App

  /** `hasProof`: a proof is attached and it holds at least one screenshot. */
  predicate HasProof(post: TradingPostData)
  {
    post.proof.Some? && |post.proof.value.screenshots| > 0
  }

  /** `isVerified`: a proof is attached and it is marked verified, whatever its screenshots. */
  predicate IsVerified(post: TradingPostData)
  {
    post.proof.Some? && post.proof.value.verified
  }

  datatype Badge = VerifiedProofBadge | PendingVerificationBadge | NoBadge

  datatype ProofButton = ViewProof | AddProof

  /** The badge beside the author: verified wins over pending; neither shows no badge. */
  function ProofBadge(post: TradingPostData): (badge: Badge)
    ensures badge == VerifiedProofBadge <==> IsVerified(post)
    ensures badge == PendingVerificationBadge <==> !IsVerified(post) && HasProof(post)
    ensures badge == NoBadge <==> !IsVerified(post) && !HasProof(post)
  {
    if IsVerified(post) then VerifiedProofBadge
    else if HasProof(post) then PendingVerificationBadge
    else NoBadge
  }

  /** Exactly one of "View Proof" and "Add Proof" is offered: viewing needs a proof with screenshots. */
  function ProofButtonFor(post: TradingPostData): (button: ProofButton)
    ensures button == ViewProof <==> HasProof(post)
    ensures button == AddProof <==> !HasProof(post)
  {
    if HasProof(post) then ViewProof else AddProof
  }

  /** `post.price && ...`: the price and the pay button appear only for a present, non-empty price. */
  predicate ShowsPayment(post: TradingPostData)
  {
    post.price.Some? && post.price.value != ""
  }

  /** A verified proof with no screenshots shows the verified badge next to an "Add Proof" button. */
  lemma VerifiedWithoutScreenshots(post: TradingPostData)
    requires post.proof.Some? && post.proof.value.verified && post.proof.value.screenshots == []
    ensures ProofBadge(post) == VerifiedProofBadge && ProofButtonFor(post) == AddProof
  {
  }

  /**
   * Submitting a fresh proof for the selected post clears its verified state,
   * even after an earlier verified proof: the matching posts show "pending"
   * when the proof has screenshots and no badge otherwise; every other post
   * keeps its flags.
   */
  lemma ResubmissionResetsVerification(posts: seq<TradingPostData>, selected: TradingPostData, proof: ProofData)
    requires !proof.verified
    ensures forall i :: 0 <= i < |posts| ==>
      var after := HandleProofSubmit(posts, Some(selected), proof)[i];
      if posts[i].id == selected.id then
        && !IsVerified(after)
        && (HasProof(after) <==> proof.screenshots != [])
        && ProofBadge(after) == (if proof.screenshots != [] then PendingVerificationBadge else NoBadge)
      else
        && IsVerified(after) == IsVerified(posts[i])
        && HasProof(after) == HasProof(posts[i])
  {
  }

  /**
   * A proof submitted from the modal while its submit button is enabled turns
   * the selected post's card to "Pending verification" with "View Proof".
   */
  lemma SubmittedDraftShowsPending(posts: seq<TradingPostData>, selected: TradingPostData,
                                   draft: ProofDraft, id: string, timestamp: string, i: int)
    requires draft.SubmitEnabled()
    requires 0 <= i < |posts| && posts[i].id == selected.id
    ensures ProofBadge(HandleProofSubmit(posts, Some(selected), draft.HandleSubmit(id, timestamp))[i]) == PendingVerificationBadge
    ensures ProofButtonFor(HandleProofSubmit(posts, Some(selected), draft.HandleSubmit(id, timestamp))[i]) == ViewProof
  {
    var proof := draft.HandleSubmit(id, timestamp);
    ResubmissionResetsVerification(posts, selected, proof);
  }
}
