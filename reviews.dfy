/** Review submission and moderation: the review form, the view that resolves
    the reviewed object and stores the review, and the two admin actions that
    approve or withdraw selected reviews. */
module Reviews {
  import opened Common
  import opened Ratings

  // ---------------------------------------------------------------- the form

  /** The submitted review fields; the rating already converted to a number.
      The text fields hold the values after the form strips surrounding
      whitespace; `emailValid` is the framework email validator's verdict on a
      non-empty address. */
  datatype ReviewInput = ReviewInput(
    rating: Option<int>, name: string, email: string, emailValid: bool, title: string, comment: string)

  datatype ReviewField = RatingField | NameField | EmailField | TitleField | CommentField

  /** The fields the form reports as invalid, in declaration order (one error each). */
  function ReviewErrors(inp: ReviewInput): (errs: seq<ReviewField>)
    ensures RatingField in errs <==> inp.rating.None? || !(1 <= inp.rating.value <= 5)
    ensures NameField in errs <==> inp.name == "" || |inp.name| > 100
    ensures EmailField in errs <==> inp.email == "" || !inp.emailValid
    ensures TitleField in errs <==> inp.title == "" || |inp.title| > 200
    ensures CommentField in errs <==> inp.comment == ""
    ensures |errs| <= 5
  {
    PrependIf(inp.rating.None? || !(1 <= inp.rating.value <= 5), RatingField,
    PrependIf(inp.name == "" || |inp.name| > 100, NameField,
    PrependIf(inp.email == "" || !inp.emailValid, EmailField,
    PrependIf(inp.title == "" || |inp.title| > 200, TitleField,
    PrependIf(inp.comment == "", CommentField, [])))))
  }

  /** A review the form accepts has a rating from 1 to 5. */
  lemma AcceptedRatingInRange(inp: ReviewInput)
    requires ReviewErrors(inp) == []
    ensures inp.rating.Some? && 1 <= inp.rating.value <= 5
  {
    assert RatingField !in ReviewErrors(inp);
  }

  /** The review table. Ids are handed out in increasing order. */
  class ReviewStore {
    var rows: seq<Review>
    var nextId: nat

    predicate Valid()
      reads this
    {
      forall i :: 0 <= i < |rows| ==> rows[i].id < nextId
    }

    constructor ()
      ensures rows == [] && Valid()
    {
      rows := [];
      nextId := 1;
    }

    /** `ReviewForm.save(commit)`: the instance takes the given reviewed object if
        any, is always unapproved, and is inserted only when committing; an
        instance without a reviewed object cannot be inserted. */
    method FormSave(inp: ReviewInput, contentObject: Option<Target>, commit: bool, now: int)
      returns (review: Review, inserted: bool)
      requires Valid() && ReviewErrors(inp) == []
      modifies this
      ensures Valid()
      ensures !review.isApproved
      ensures review.rating == inp.rating.value && review.name == inp.name && review.email == inp.email
      ensures review.title == inp.title && review.comment == inp.comment
      ensures contentObject.Some? ==> review.target == contentObject.value
      ensures inserted <==> commit && contentObject.Some?
      ensures inserted ==> rows == old(rows) + [review] && review.id == old(nextId)
      ensures !inserted ==> rows == old(rows)
    {
      AcceptedRatingInRange(inp);
      var target := if contentObject.Some? then contentObject.value else Target(0, 0);
      review := Review(nextId, target, inp.name, inp.email, inp.rating.value, inp.title, inp.comment, false, now);
      inserted := commit && contentObject.Some?;
      if inserted {
        rows := rows + [review];
        nextId := nextId + 1;
      }
    }

    /** `approve_reviews` (approved = true) and `disapprove_reviews` (false):
        one update of the flag on every selected review. */
    method SetApproval(selected: set<nat>, approved: bool)
      requires Valid()
      modifies this`rows
      ensures Valid()
      ensures rows == WithApproval(old(rows), selected, approved)
    {
      rows := WithApproval(rows, selected, approved);
    }
  }

  /** The table after `queryset.update(is_approved=approved)` on the selected ids. */
  function WithApproval(rows: seq<Review>, selected: set<nat>, approved: bool): (r: seq<Review>)
    ensures |r| == |rows|
    ensures forall i :: 0 <= i < |rows| && rows[i].id in selected ==> r[i] == rows[i].(isApproved := approved)
    ensures forall i :: 0 <= i < |rows| && rows[i].id !in selected ==> r[i] == rows[i]
  {
    if rows == [] then []
    else [if rows[0].id in selected then rows[0].(isApproved := approved) else rows[0]]
         + WithApproval(rows[1..], selected, approved)
  }

  /** Applying an action twice is applying it once; of two actions on the same
      selection the later one decides. */
  lemma ApprovalLastWins(rows: seq<Review>, selected: set<nat>, first: bool, second: bool)
    ensures WithApproval(WithApproval(rows, selected, first), selected, second) == WithApproval(rows, selected, second)
  {
    var a := WithApproval(WithApproval(rows, selected, first), selected, second);
    var b := WithApproval(rows, selected, second);
    assert |a| == |b|;
    forall i | 0 <= i < |a| ensures a[i] == b[i] {
      assert WithApproval(rows, selected, first)[i].id == rows[i].id;
    }
  }

  /** Approving every stored review makes each one approved; withdrawing approval
      from every review leaves no public rating. */
  lemma ApproveAllAndWithdrawAll(rows: seq<Review>, selected: set<nat>)
    requires forall i :: 0 <= i < |rows| ==> rows[i].id in selected
    ensures forall i :: 0 <= i < |rows| ==> WithApproval(rows, selected, true)[i].isApproved
    ensures PublicAverage(WithApproval(rows, selected, false)) == None
  {
  }

  // ---------------------------------------------------------------- the submit view

  /** A content type: whether its model class can still be loaded, which object ids
      exist, and whether its objects have a page of their own. */
  datatype ContentType = ContentType(hasModel: bool, objects: set<nat>, hasUrl: bool)

  datatype Message = InvalidRequest | ObjectNotFound | ThankYou | FieldError(field: ReviewField)

  datatype Redirect = Home | ObjectPage(target: Target)

  /** The two POST parameters name the existing object `t`: both are non-empty,
      parse as the integers of `t`, and the content type's model still loads. */
  predicate Names(ctParam: Option<string>, idParam: Option<string>, types: map<nat, ContentType>, t: Target)
  {
    ctParam.Some? && ctParam.value != "" && idParam.Some? && idParam.value != ""
    && ParseInt(ctParam.value) == Some(t.contentType as int)
    && ParseInt(idParam.value) == Some(t.objectId as int)
    && t.contentType in types && types[t.contentType].hasModel
    && t.objectId in types[t.contentType].objects
  }

  /** The early part of `post`: a missing or empty id is an invalid request; an id
      that does not parse, an unknown content type, a content type whose model no
      longer loads, or a missing object is "not found". */
  function ResolveTarget(ctParam: Option<string>, idParam: Option<string>, types: map<nat, ContentType>)
    : (r: Result)
    ensures r.Resolved? ==> Names(ctParam, idParam, types, r.target) && r.hasUrl == types[r.target.contentType].hasUrl
    ensures r.Rejected? ==> forall t :: !Names(ctParam, idParam, types, t)
    ensures r.Rejected? && r.message == InvalidRequest <==>
      ctParam.None? || ctParam.value == "" || idParam.None? || idParam.value == ""
    ensures r.Rejected? ==> r.message in {InvalidRequest, ObjectNotFound}
  {
    if ctParam.None? || ctParam.value == "" || idParam.None? || idParam.value == "" then Rejected(InvalidRequest)
    else
      var ct := ParseInt(ctParam.value);
      var oid := ParseInt(idParam.value);
      if ct.None? || ct.value < 0 || ct.value !in types || !types[ct.value].hasModel then Rejected(ObjectNotFound)
      else if oid.None? || oid.value < 0 || oid.value !in types[ct.value].objects then Rejected(ObjectNotFound)
      else Resolved(Target(ct.value, oid.value), types[ct.value].hasUrl)
  }

  datatype Result = Resolved(target: Target, hasUrl: bool) | Rejected(message: Message)

  /** `SubmitReviewView.post`: rejected requests store nothing and go home; a valid
      form stores exactly one unapproved review; an invalid form stores nothing and
      reports one message per invalid field. Either way a resolved request returns
      to the object's page when it has one. */
  method SubmitReview(store: ReviewStore, ctParam: Option<string>, idParam: Option<string>,
                      types: map<nat, ContentType>, inp: ReviewInput, now: int)
    returns (messages: seq<Message>, redirect: Redirect)
    requires store.Valid()
    modifies store
    ensures store.Valid()
    ensures ResolveTarget(ctParam, idParam, types).Rejected? ==>
      store.rows == old(store.rows) && redirect == Home
      && messages == [ResolveTarget(ctParam, idParam, types).message]
    ensures ResolveTarget(ctParam, idParam, types).Resolved? ==>
      var res := ResolveTarget(ctParam, idParam, types);
      redirect == (if res.hasUrl then ObjectPage(res.target) else Home)
      && (ReviewErrors(inp) == [] ==>
            |store.rows| == |old(store.rows)| + 1 && store.rows[..|old(store.rows)|] == old(store.rows)
            && !store.rows[|old(store.rows)|].isApproved
            && store.rows[|old(store.rows)|].target == res.target
            && store.rows[|old(store.rows)|].rating == inp.rating.value
            && store.rows[|old(store.rows)|].name == inp.name
            && store.rows[|old(store.rows)|].email == inp.email
            && store.rows[|old(store.rows)|].title == inp.title
            && store.rows[|old(store.rows)|].comment == inp.comment
            && messages == [ThankYou])
      && (ReviewErrors(inp) != [] ==>
            store.rows == old(store.rows) && |messages| == |ReviewErrors(inp)|
            && forall i :: 0 <= i < |messages| ==> messages[i] == FieldError(ReviewErrors(inp)[i]))
  {
    var res := ResolveTarget(ctParam, idParam, types);
    if res.Rejected? {
      messages, redirect := [res.message], Home;
      return;
    }
    var errs := ReviewErrors(inp);
    if errs == [] {
      var review, inserted := store.FormSave(inp, Some(res.target), true, now);
      messages := [ThankYou];
    } else {
      messages := FieldMessages(errs);
    }
    redirect := if res.hasUrl then ObjectPage(res.target) else Home;
  }

  /** The error loop of the invalid branch: one message per invalid field, in order. */
  method FieldMessages(errs: seq<ReviewField>) returns (messages: seq<Message>)
    ensures |messages| == |errs|
    ensures forall i :: 0 <= i < |messages| ==> messages[i] == FieldError(errs[i])
  {
    messages := [];
    var k := 0;
    while k < |errs|
      invariant 0 <= k <= |errs|
      invariant |messages| == k
      invariant forall i :: 0 <= i < k ==> messages[i] == FieldError(errs[i])
    {
      messages := messages + [FieldError(errs[k])];
      k := k + 1;
    }
  }
}
