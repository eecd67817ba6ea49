/**
 * The comment thread under a blog post: a tree of comments with replies,
 * the insertion of a new comment under its parent, the deletion of a comment
 * with its replies, the total count, and the form that posts a comment.
 */
module CommentSection {
  import opened Text
  import opened Domain

  /**
   * One comment as the server returns it. `parent` is `parent_comment_id`
   * (None for null), `userId` the author's account (None for a guest); a
   * missing `replies` list is the empty one.
   */
  datatype Comment = Comment(
    id: Id,
    parent: Option<Id>,
    userId: Option<Id>,
    authorFirstName: string,
    authorLastName: string,
    authorName: string,
    text: string,
    replies: seq<Comment>)

  // ---------------------------------------------------------------------------
  // Measures of a forest

  /** The number of comments at all depths. */
  function Size(items: seq<Comment>): nat
    decreases items
  {
    if items == [] then 0
    else 1 + Size(items[0].replies) + Size(items[1..])
  }

  /** How many comments at any depth carry id `x`. */
  function Occurrences(items: seq<Comment>, x: Id): nat
    decreases items
  {
    if items == [] then 0
    else (if items[0].id == x then 1 else 0) + Occurrences(items[0].replies, x) + Occurrences(items[1..], x)
  }

  /** How many comments with id `x` have no ancestor with id `x`: the ones an insertion reaches. */
  function TopmostMatches(items: seq<Comment>, x: Id): nat
    decreases items
  {
    if items == [] then 0
    else (if items[0].id == x then 1 else TopmostMatches(items[0].replies, x)) + TopmostMatches(items[1..], x)
  }

  lemma {:induction false} TopmostMatchesBounds(items: seq<Comment>, x: Id)
    ensures TopmostMatches(items, x) <= Occurrences(items, x)
    ensures Occurrences(items, x) > 0 ==> TopmostMatches(items, x) > 0
    decreases items
  {
    if items != [] {
      TopmostMatchesBounds(items[0].replies, x);
      TopmostMatchesBounds(items[1..], x);
    }
  }

  lemma {:induction false} SizeAppend(a: seq<Comment>, b: seq<Comment>)
    ensures Size(a + b) == Size(a) + Size(b)
    decreases a
  {
    if a != [] {
      assert (a + b)[0] == a[0];
      assert (a + b)[1..] == a[1..] + b;
      SizeAppend(a[1..], b);
    } else {
      assert a + b == b;
    }
  }

  // ---------------------------------------------------------------------------
  // Insertion

  /**
   * `addCommentToHierarchy`: a comment without parent goes to the end of the
   * top level; otherwise it is appended to the replies of every comment with
   * the parent's id, searching below a comment only when the comment itself
   * does not match.
   */
  function Insert(items: seq<Comment>, c: Comment): (r: seq<Comment>)
    ensures c.parent.None? ==> r == items + [c]
    ensures c.parent.Some? ==> |r| == |items|
  {
    if c.parent.None? then items + [c] else InsertUnder(items, c.parent.value, c)
  }

  function InsertUnder(items: seq<Comment>, p: Id, c: Comment): (r: seq<Comment>)
    ensures |r| == |items|
    ensures forall i :: 0 <= i < |items| ==> r[i].id == items[i].id
    decreases items
  {
    if items == [] then []
    else
      var head := items[0];
      var head' :=
        if head.id == p then head.(replies := head.replies + [c])
        else head.(replies := InsertUnder(head.replies, p, c));
      [head'] + InsertUnder(items[1..], p, c)
  }

  /** A reply goes to the end of its parent's replies when the parent is at the top level. */
  lemma InsertUnderTopLevelParent(items: seq<Comment>, c: Comment, i: int)
    requires c.parent.Some? && 0 <= i < |items| && items[i].id == c.parent.value
    ensures Insert(items, c)[i].replies == items[i].replies + [c]
  {
    InsertUnderAt(items, c.parent.value, c, i);
  }

  lemma {:induction false} InsertUnderAt(items: seq<Comment>, p: Id, c: Comment, i: int)
    requires 0 <= i < |items| && items[i].id == p
    ensures InsertUnder(items, p, c)[i].replies == items[i].replies + [c]
    decreases items
  {
    var r := InsertUnder(items, p, c);
    var rest := InsertUnder(items[1..], p, c);
    assert r == [r[0]] + rest;
    if i > 0 {
      InsertUnderAt(items[1..], p, c, i - 1);
      assert items[1..][i - 1] == items[i];
      assert r[i] == rest[i - 1];
    }
  }

  /** A reply whose parent is nowhere in the thread changes nothing. */
  lemma {:induction false} InsertUnderMissingParent(items: seq<Comment>, p: Id, c: Comment)
    requires Occurrences(items, p) == 0
    ensures InsertUnder(items, p, c) == items
    decreases items
  {
    if items != [] {
      InsertUnderMissingParent(items[0].replies, p, c);
      InsertUnderMissingParent(items[1..], p, c);
      assert items == [items[0]] + items[1..];
    }
  }

  /** Each comment the insertion reaches gains the new comment with its replies. */
  lemma {:induction false} InsertUnderSize(items: seq<Comment>, p: Id, c: Comment)
    ensures Size(InsertUnder(items, p, c)) == Size(items) + TopmostMatches(items, p) * Size([c])
    decreases items
  {
    if items != [] {
      var head, rest, k := items[0], items[1..], Size([c]);
      var r := InsertUnder(items, p, c);
      InsertUnderSize(rest, p, c);
      assert r[1..] == InsertUnder(rest, p, c);
      var m := if head.id == p then 1 else TopmostMatches(head.replies, p);
      if head.id == p {
        SizeAppend(head.replies, [c]);
        assert r[0].replies == head.replies + [c];
      } else {
        InsertUnderSize(head.replies, p, c);
        assert r[0].replies == InsertUnder(head.replies, p, c);
      }
      assert Size(r[0].replies) == Size(head.replies) + m * k;
      assert Size(r) == 1 + Size(r[0].replies) + Size(r[1..]);
      assert TopmostMatches(items, p) == m + TopmostMatches(rest, p);
      Distribute(m, TopmostMatches(rest, p), k);
    }
  }

  lemma Distribute(x: nat, y: nat, k: nat)
    ensures (x + y) * k == x * k + y * k
  {
  }

  /**
   * `countTotalComments` goes up by exactly the new comment's size when its
   * parent is absent (top level) or present exactly once in the thread.
   */
  lemma InsertCount(items: seq<Comment>, c: Comment)
    requires c.parent.None? || Occurrences(items, c.parent.value) == 1
    ensures Size(Insert(items, c)) == Size(items) + Size([c])
  {
    if c.parent.None? {
      SizeAppend(items, [c]);
    } else {
      TopmostMatchesBounds(items, c.parent.value);
      InsertUnderSize(items, c.parent.value, c);
    }
  }

  // ---------------------------------------------------------------------------
  // Removal

  /** `removeCommentRecursive`: drops every comment with id `x`, with its replies, at every depth. */
  function Remove(items: seq<Comment>, x: Id): (r: seq<Comment>)
    ensures |r| <= |items|
    decreases items
  {
    if items == [] then []
    else
      var rest := Remove(items[1..], x);
      if items[0].id == x then rest
      else [items[0].(replies := Remove(items[0].replies, x))] + rest
  }

  lemma {:induction false} RemoveAppend(a: seq<Comment>, b: seq<Comment>, x: Id)
    ensures Remove(a + b, x) == Remove(a, x) + Remove(b, x)
    decreases a
  {
    if a != [] {
      assert (a + b)[0] == a[0];
      assert (a + b)[1..] == a[1..] + b;
      RemoveAppend(a[1..], b, x);
    } else {
      assert a + b == b;
    }
  }

  /** After removal no comment with that id is left, and the thread did not grow. */
  lemma {:induction false} RemoveEffect(items: seq<Comment>, x: Id)
    ensures Occurrences(Remove(items, x), x) == 0
    ensures Size(Remove(items, x)) <= Size(items)
    decreases items
  {
    if items != [] {
      RemoveEffect(items[0].replies, x);
      RemoveEffect(items[1..], x);
    }
  }

  /** The number of comments a removal of `x` takes away: each topmost `x` with all its replies. */
  function RemovedSize(items: seq<Comment>, x: Id): nat
    decreases items
  {
    if items == [] then 0
    else (if items[0].id == x then 1 + Size(items[0].replies) else RemovedSize(items[0].replies, x))
         + RemovedSize(items[1..], x)
  }

  /**
   * Removal takes away exactly the topmost comments with that id and their
   * replies: every other comment survives.
   */
  lemma {:induction false} RemoveSize(items: seq<Comment>, x: Id)
    ensures Size(Remove(items, x)) + RemovedSize(items, x) == Size(items)
    ensures RemovedSize(items, x) >= TopmostMatches(items, x)
    decreases items
  {
    if items != [] {
      var head, r := items[0], Remove(items, x);
      RemoveSize(items[1..], x);
      if head.id != x {
        RemoveSize(head.replies, x);
        assert r == [head.(replies := Remove(head.replies, x))] + Remove(items[1..], x);
        assert r[0].replies == Remove(head.replies, x) && r[1..] == Remove(items[1..], x);
      }
    }
  }

  /** The ids of the top-level comments, in order. */
  function TopIds(items: seq<Comment>): (r: seq<Id>)
    ensures |r| == |items|
    ensures forall i :: 0 <= i < |items| ==> r[i] == items[i].id
  {
    seq(|items|, i requires 0 <= i < |items| => items[i].id)
  }

  /** `ids` without the occurrences of `x`, the others in their order. */
  function Without(ids: seq<Id>, x: Id): (r: seq<Id>)
    ensures x !in r
    ensures forall y :: y in r <==> y in ids && y != x
  {
    if ids == [] then []
    else
      assert ids == [ids[0]] + ids[1..];
      (if ids[0] == x then [] else [ids[0]]) + Without(ids[1..], x)
  }

  /** At the top level, removal keeps every comment with another id, in its order. */
  lemma {:induction false} RemoveTopIds(items: seq<Comment>, x: Id)
    ensures TopIds(Remove(items, x)) == Without(TopIds(items), x)
    decreases items
  {
    if items != [] {
      var head, r := items[0], Remove(items, x);
      RemoveTopIds(items[1..], x);
      assert TopIds(items)[0] == head.id && TopIds(items)[1..] == TopIds(items[1..]);
      if head.id != x {
        assert r == [head.(replies := Remove(head.replies, x))] + Remove(items[1..], x);
        assert TopIds(r) == [head.id] + TopIds(Remove(items[1..], x));
      }
    }
  }

  /** Removing an id that is not in the thread changes nothing. */
  lemma {:induction false} RemoveAbsent(items: seq<Comment>, x: Id)
    requires Occurrences(items, x) == 0
    ensures Remove(items, x) == items
    decreases items
  {
    if items != [] {
      RemoveAbsent(items[0].replies, x);
      RemoveAbsent(items[1..], x);
      assert items == [items[0]] + items[1..];
    }
  }

  /** Removing twice is removing once. */
  lemma RemoveIdempotent(items: seq<Comment>, x: Id)
    ensures Remove(Remove(items, x), x) == Remove(items, x)
  {
    RemoveEffect(items, x);
    RemoveAbsent(Remove(items, x), x);
  }

  /**
   * Deleting a comment that was just added with a fresh id restores the
   * thread as it was.
   */
  lemma RemoveUndoesInsert(items: seq<Comment>, c: Comment)
    requires Occurrences(items, c.id) == 0
    ensures Remove(Insert(items, c), c.id) == items
  {
    if c.parent.None? {
      RemoveAppend(items, [c], c.id);
      RemoveAbsent(items, c.id);
    } else {
      RemoveUndoesInsertUnder(items, c.parent.value, c);
    }
  }

  lemma {:induction false} RemoveUndoesInsertUnder(items: seq<Comment>, p: Id, c: Comment)
    requires Occurrences(items, c.id) == 0
    ensures Remove(InsertUnder(items, p, c), c.id) == items
    decreases items
  {
    if items != [] {
      var head := items[0];
      var r := InsertUnder(items, p, c);
      assert r[1..] == InsertUnder(items[1..], p, c);
      RemoveUndoesInsertUnder(items[1..], p, c);
      if head.id == p {
        assert r[0].replies == head.replies + [c];
        RemoveAppend(head.replies, [c], c.id);
        RemoveAbsent(head.replies, c.id);
        assert [c][1..] == [];
        assert Remove([c], c.id) == [];
      } else {
        assert r[0].replies == InsertUnder(head.replies, p, c);
        RemoveUndoesInsertUnder(head.replies, p, c);
      }
      assert Remove(r[0].replies, c.id) == head.replies;
      assert r[0].id == head.id != c.id;
      assert Remove(r, c.id) == [r[0].(replies := Remove(r[0].replies, c.id))] + Remove(r[1..], c.id);
      assert r[0].(replies := head.replies) == head;
      assert items == [head] + items[1..];
    }
  }

  // ---------------------------------------------------------------------------
  // Counting

  /** `countTotalComments`: a running counter over each level, descending into replies. */
  method CountTotal(items: seq<Comment>) returns (count: nat)
    ensures count == Size(items)
    decreases items
  {
    count := 0;
    var i := 0;
    while i < |items|
      invariant 0 <= i <= |items|
      invariant count + Size(items[i..]) == Size(items)
    {
      var item := items[i];
      assert items[i..][0] == item && items[i..][1..] == items[i + 1..];
      count := count + 1;
      if |item.replies| > 0 {
        var inner := CountTotal(item.replies);
        count := count + inner;
      }
      i := i + 1;
    }
  }

  // ---------------------------------------------------------------------------
  // One comment's view

  const Anonymous: string := "Анонім"

  /** `authorName`: the account's full name, else the guest name, else "Anonymous". */
  function AuthorName(c: Comment): (r: string)
    ensures c.authorFirstName != "" ==> r == Trim(c.authorFirstName + " " + c.authorLastName)
    ensures c.authorFirstName == "" && c.authorName != "" ==> r == c.authorName
    ensures c.authorFirstName == "" && c.authorName == "" ==> r == Anonymous
  {
    if c.authorFirstName != "" then Trim(c.authorFirstName + " " + c.authorLastName)
    else if c.authorName != "" then c.authorName
    else Anonymous
  }

  /** `canDelete`: an admin, or the signed-in author of the comment. */
  predicate CanDelete(role: Option<Role>, currentUserId: Option<Id>, c: Comment)
  {
    role == Some(Admin) || (c.userId.Some? && c.userId == currentUserId)
  }

  /**
   * The delete button needs `canDelete` and a handler, and the section hands
   * the handler to admins only: only admins ever see the button.
   */
  predicate DeleteButtonShown(role: Option<Role>, currentUserId: Option<Id>, c: Comment)
  {
    var handlerGiven := role == Some(Admin);
    CanDelete(role, currentUserId, c) && handlerGiven
  }

  lemma DeleteButtonOnlyForAdmins(role: Option<Role>, currentUserId: Option<Id>, c: Comment)
    ensures DeleteButtonShown(role, currentUserId, c) <==> role == Some(Admin)
  {
  }

  /** Where the section shows a comment form: the top-level one, or under a top-level comment. */
  datatype FormPlace = TopLevelForm | UnderComment(index: nat) | NoForm

  /** Which form the section renders for the reply target `replyTo`. */
  function FormPlacement(comments: seq<Comment>, replyTo: Option<Id>): (r: FormPlace)
    ensures r.UnderComment? ==> r.index < |comments| && Some(comments[r.index].id) == replyTo
    ensures r.TopLevelForm? <==> replyTo.None?
    ensures r.NoForm? <==> replyTo.Some? && forall i :: 0 <= i < |comments| ==> comments[i].id != replyTo.value
  {
    if replyTo.None? then TopLevelForm else FirstWithId(comments, replyTo.value, 0)
  }

  function FirstWithId(comments: seq<Comment>, x: Id, from: nat): (r: FormPlace)
    requires from <= |comments|
    requires forall i :: 0 <= i < from ==> comments[i].id != x
    ensures r.UnderComment? ==> r.index < |comments| && comments[r.index].id == x
    ensures r.NoForm? <==> forall i :: 0 <= i < |comments| ==> comments[i].id != x
    ensures !r.TopLevelForm?
    decreases |comments| - from
  {
    if from == |comments| then NoForm
    else if comments[from].id == x then UnderComment(from)
    else FirstWithId(comments, x, from + 1)
  }

  /** `handleReplyToggle`: what the comment reports to the section when its Reply button is pressed. */
  function ReplyReport(nowShown: bool, c: Comment): (r: (Option<Id>, string))
    ensures nowShown ==> r.0 == Some(c.id) && r.1 == "@" + AuthorName(c) + " "
    ensures !nowShown ==> r == (None, "")
  {
    if nowShown then (Some(c.id), "@" + AuthorName(c) + " ") else (None, "")
  }

  // ---------------------------------------------------------------------------
  // The comment form

  /** The form's error line: one of the three checks, or the server's refusal. */
  datatype FormProblem = EmptyComment | GuestNameOrEmailMissing | MalformedEmail | RequestFailed

  /** The checks of `AddCommentForm.handleSubmit`, in order. */
  function FormCheck(isAuthenticated: bool, text: string, name: string, email: string): (r: Option<FormProblem>)
    ensures r != Some(RequestFailed)
    ensures r.None? ==> !IsBlank(text)
    ensures isAuthenticated ==> (r.None? <==> !IsBlank(text))
  {
    if IsBlank(text) then Some(EmptyComment)
    else if !isAuthenticated && (IsBlank(name) || IsBlank(email)) then Some(GuestNameOrEmailMissing)
    else if !isAuthenticated && !IsBlank(email) && !EmailPattern(email) then Some(MalformedEmail)
    else None
  }

  /** A comment is accepted when it has text and, from a guest, a name and a well-formed email. */
  lemma FormCheckPassesIff(isAuthenticated: bool, text: string, name: string, email: string)
    ensures FormCheck(isAuthenticated, text, name, email).None? <==>
      !IsBlank(text) && (isAuthenticated || (!IsBlank(name) && EmailPattern(email)))
  {
    if EmailPattern(email) {
      EmailNeedsFiveCharacters(email);
    }
  }

  /** The body sent to `addCommentToPost`; `guest` holds the author name and email. */
  datatype CommentPayload = CommentPayload(text: string, parent: Option<Id>, guest: Option<(string, string)>)

  function Payload(isAuthenticated: bool, parent: Option<Id>, text: string, name: string, email: string): (r: CommentPayload)
    ensures r.guest.Some? <==> !isAuthenticated
    ensures r.guest.Some? ==> r.guest.value == (name, email)
    ensures r.text == text && r.parent == parent
  {
    CommentPayload(text, parent, if isAuthenticated then None else Some((name, email)))
  }

  datatype SubmitOutcome = Refused(problem: FormProblem) | Posted(payload: CommentPayload, succeeded: bool)

  class CommentForm {
    const parent: Option<Id>
    var text: string
    var name: string
    var email: string
    var problem: Option<FormProblem>

    /** Mounting the form; a reply form starts with the `@Author ` text. */
    constructor (parentId: Option<Id>, initialText: string)
      ensures parent == parentId && name == "" && email == "" && problem.None?
      ensures text == if parentId.Some? && initialText != "" then initialText else ""
    {
      parent := parentId;
      text := if parentId.Some? && initialText != "" then initialText else "";
      name, email, problem := "", "", None;
    }

    /**
     * `handleSubmit`; `succeeds` is the server's answer. Success clears the
     * three fields and `closesReply` says whether the reply is then
     * cancelled; a refusal shows the server's message.
     */
    method Submit(isAuthenticated: bool, succeeds: bool) returns (outcome: SubmitOutcome, closesReply: bool)
      modifies this
      ensures FormCheck(isAuthenticated, old(text), old(name), old(email)) ==
        if outcome.Refused? then Some(outcome.problem) else None
      ensures outcome.Refused? ==> problem == Some(outcome.problem)
      ensures outcome.Posted? ==>
        outcome.payload == Payload(isAuthenticated, parent, old(text), old(name), old(email)) &&
        outcome.succeeded == succeeds
      ensures closesReply <==> outcome.Posted? && succeeds && parent.Some?
      ensures outcome.Posted? ==> problem == if succeeds then None else Some(RequestFailed)
      ensures outcome.Posted? && succeeds ==> text == "" && name == "" && email == ""
      ensures !(outcome.Posted? && succeeds) ==> text == old(text) && name == old(name) && email == old(email)
    {
      var check := FormCheck(isAuthenticated, text, name, email);
      if check.Some? {
        problem := check;
        return Refused(check.value), false;
      }
      problem := None;
      outcome := Posted(Payload(isAuthenticated, parent, text, name, email), succeeds);
      closesReply := false;
      if succeeds {
        text, name, email := "", "", "";
        closesReply := parent.Some?;
      } else {
        problem := Some(RequestFailed);
      }
    }
  }

  // ---------------------------------------------------------------------------
  // The section

  class Section {
    var comments: seq<Comment>
    var replyTo: Option<Id>
    var replyText: string
    var dialogOpen: bool
    var toDelete: Option<Id>

    constructor (initial: seq<Comment>)
      ensures comments == initial && replyTo.None? && replyText == "" && !dialogOpen && toDelete.None?
    {
      comments, replyTo, replyText, dialogOpen, toDelete := initial, None, "", false, None;
    }

    /** `handleCommentAdded`: the new comment joins the thread and the reply target is reset. */
    method CommentAdded(c: Comment)
      modifies this
      ensures comments == Insert(old(comments), c)
      ensures replyTo.None? && replyText == ""
      ensures dialogOpen == old(dialogOpen) && toDelete == old(toDelete)
    {
      comments := Insert(comments, c);
      replyTo, replyText := None, "";
    }

    /** `handleReplyClick`. */
    method ReplyClick(target: Option<Id>, text: string)
      modifies this`replyTo, this`replyText
      ensures replyTo == target && replyText == text
    {
      replyTo, replyText := target, text;
    }

    /** `handleCancelReply`. */
    method CancelReply()
      modifies this`replyTo, this`replyText
      ensures replyTo.None? && replyText == ""
    {
      replyTo, replyText := None, "";
    }

    /** `openDeleteDialog`. */
    method OpenDeleteDialog(x: Id)
      modifies this`toDelete, this`dialogOpen
      ensures toDelete == Some(x) && dialogOpen
    {
      toDelete, dialogOpen := Some(x), true;
    }

    /**
     * `handleConfirmDeleteComment`; `succeeds` is the server's answer. The
     * comment and its replies leave the thread only on success; the dialog
     * closes either way.
     */
    method ConfirmDelete(succeeds: bool) returns (requested: Option<Id>)
      modifies this
      ensures requested == old(toDelete)
      ensures requested.Some? && succeeds ==> comments == Remove(old(comments), requested.value)
      ensures !(requested.Some? && succeeds) ==> comments == old(comments)
      ensures requested.Some? ==> !dialogOpen && toDelete.None?
      ensures requested.None? ==> dialogOpen == old(dialogOpen) && toDelete == old(toDelete)
      ensures replyTo == old(replyTo) && replyText == old(replyText)
    {
      requested := toDelete;
      if toDelete.None? {
        return;
      }
      if succeeds {
        comments := Remove(comments, toDelete.value);
      }
      dialogOpen, toDelete := false, None;
    }

    /** The header's count. */
    method Count() returns (n: nat)
      ensures n == Size(comments)
    {
      n := CountTotal(comments);
    }
  }

  /** The toggle state of one comment's Reply button. */
  class CommentItem {
    const comment: Comment
    var showReply: bool

    constructor (c: Comment)
      ensures comment == c && !showReply
    {
      comment, showReply := c, false;
    }

    method ToggleReply() returns (report: (Option<Id>, string))
      modifies this`showReply
      ensures showReply == !old(showReply)
      ensures report == ReplyReport(showReply, comment)
    {
      showReply := !showReply;
      report := ReplyReport(showReply, comment);
    }
  }
}
