/** The complaint ("contact") request handlers. Every lookup is scoped to
    the requester, and a complaint can be edited or deleted only while its
    status is still "pending". */
module ContactController {
  import opened Base
  import Seqs

  type ObjectId = string

  /** Status a new complaint starts with. */
  const Pending := "pending"

  const SubjectAndMessageRequired := "Subject and message are required"
  const ComplaintNotFound := "Complaint not found"
  const OnlyPendingUpdatable := "Only pending complaints can be updated"
  const OnlyPendingDeletable := "Only pending complaints can be deleted"
  const Deleted := "Complaint deleted successfully"

  datatype Complaint = Complaint(
    id: ObjectId,
    user: ObjectId,
    subject: string,
    message: string,
    status: string,
    priority: Option<string>,
    createdAt: int)

  /** The complaint collection, in natural order. */
  type ComplaintStore = seq<Complaint>

  predicate HasId(store: ComplaintStore, id: ObjectId) {
    exists i :: 0 <= i < |store| && store[i].id == id
  }

  /** Does `c` answer the lookup `{ _id: id, user: requester }`? */
  predicate OwnedMatch(c: Complaint, id: ObjectId, requester: ObjectId) {
    c.id == id && c.user == requester
  }

  /** Create body; None is a missing field. */
  datatype CreateBody = CreateBody(subject: Option<string>, message: Option<string>)

  /** Update body; None is a field left undefined (an empty string counts
      as supplied). */
  datatype UpdateBody = UpdateBody(
    subject: Option<string>,
    message: Option<string>,
    status: Option<string>,
    priority: Option<string>)

  /** POST /contacts. */
  function CreateContact(store: ComplaintStore, requester: ObjectId, now: int,
                         newId: ObjectId, body: CreateBody): (h: Handled<ComplaintStore, Complaint>)
    requires !HasId(store, newId)
    ensures !(Filled(body.subject) && Filled(body.message)) ==>
              h == Handled(store, Rejected(400, SubjectAndMessageRequired))
    ensures Filled(body.subject) && Filled(body.message) ==>
              && h.reply.Ok? && h.reply.code == 201
              && h.store == store + [h.reply.body]
              && h.reply.body.id == newId
              && h.reply.body.user == requester
              && Some(h.reply.body.subject) == body.subject
              && Some(h.reply.body.message) == body.message
              && h.reply.body.status == Pending
              && h.reply.body.createdAt == now
  {
    if !Filled(body.subject) || !Filled(body.message) then
      Handled(store, Rejected(400, SubjectAndMessageRequired))
    else
      var c := Complaint(newId, requester, body.subject.value, body.message.value, Pending, None, now);
      Handled(store + [c], Ok(201, c))
  }

  // ---------------------------------------------------------------------
  // Ordering for GET: newest first

  predicate NewestFirst(s: seq<Complaint>) {
    forall i, j :: 0 <= i < j < |s| ==> s[i].createdAt >= s[j].createdAt
  }

  function Insert(c: Complaint, s: seq<Complaint>): (r: seq<Complaint>)
    requires NewestFirst(s)
    ensures NewestFirst(r)
    ensures multiset(r) == multiset(s) + multiset{c}
    ensures |r| == |s| + 1
    ensures r[0] == c || (|s| > 0 && r[0] == s[0])
  {
    if s == [] || c.createdAt >= s[0].createdAt then [c] + s
    else
      var rest := Insert(c, s[1..]);
      assert s == [s[0]] + s[1..];
      [s[0]] + rest
  }

  /** A rearrangement of `s` with the newest complaints first. */
  function SortNewestFirst(s: seq<Complaint>): (r: seq<Complaint>)
    ensures NewestFirst(r)
    ensures multiset(r) == multiset(s)
  {
    if s == [] then []
    else
      assert s == [s[0]] + s[1..];
      Insert(s[0], SortNewestFirst(s[1..]))
  }

  /** GET /contacts: exactly the requester's complaints, newest first. */
  function GetContacts(store: ComplaintStore, requester: ObjectId): (cs: seq<Complaint>)
    ensures NewestFirst(cs)
    ensures multiset(cs) == multiset(Seqs.Filter(store, (c: Complaint) => c.user == requester))
    ensures forall i :: 0 <= i < |cs| ==> cs[i].user == requester && cs[i] in store
    ensures forall i :: 0 <= i < |store| && store[i].user == requester ==> store[i] in cs
  {
    var mine := Seqs.Filter(store, (c: Complaint) => c.user == requester);
    var cs := SortNewestFirst(mine);
    forall i | 0 <= i < |cs|
      ensures cs[i].user == requester && cs[i] in store
    {
      assert cs[i] in multiset(mine);
      var k :| 0 <= k < |mine| && mine[k] == cs[i];
      assert mine[k] in multiset(store);
    }
    forall i | 0 <= i < |store| && store[i].user == requester
      ensures store[i] in cs
    {
      assert store[i] in mine;
      assert store[i] in multiset(cs);
    }
    cs
  }

  // ---------------------------------------------------------------------
  // Update and delete

  /** The body's defined fields overwrite the complaint's; nothing else
      changes. */
  function ApplyUpdate(c: Complaint, b: UpdateBody): (c': Complaint)
    ensures c'.subject == b.subject.GetOr(c.subject)
    ensures c'.message == b.message.GetOr(c.message)
    ensures c'.status == b.status.GetOr(c.status)
    ensures b.priority.Some? ==> c'.priority == b.priority
    ensures b.priority.None? ==> c'.priority == c.priority
    ensures c'.id == c.id && c'.user == c.user && c'.createdAt == c.createdAt
  {
    Complaint(c.id, c.user,
              b.subject.GetOr(c.subject),
              b.message.GetOr(c.message),
              b.status.GetOr(c.status),
              if b.priority.Some? then b.priority else c.priority,
              c.createdAt)
  }

  function Lookup(store: ComplaintStore, id: ObjectId, requester: ObjectId): (r: Option<nat>)
    ensures r.Some? ==> r.value < |store| && OwnedMatch(store[r.value], id, requester)
    ensures r.None? <==> forall j :: 0 <= j < |store| ==> !OwnedMatch(store[j], id, requester)
  {
    Seqs.FindIndex(store, (c: Complaint) => OwnedMatch(c, id, requester))
  }

  /** PUT /contacts/:id. */
  function UpdateContact(store: ComplaintStore, requester: ObjectId, id: ObjectId,
                         body: UpdateBody): (h: Handled<ComplaintStore, Complaint>)
    ensures (forall j :: 0 <= j < |store| ==> !OwnedMatch(store[j], id, requester)) ==>
              h == Handled(store, Rejected(404, ComplaintNotFound))
    ensures Lookup(store, id, requester).Some? ==>
              var i := Lookup(store, id, requester).value;
              && (store[i].status != Pending ==>
                    h == Handled(store, Rejected(400, OnlyPendingUpdatable)))
              && (store[i].status == Pending ==>
                    h.reply == Ok(200, ApplyUpdate(store[i], body))
                    && h.store == Seqs.ReplaceAt(store, i, h.reply.body))
  {
    match Lookup(store, id, requester)
    case None => Handled(store, Rejected(404, ComplaintNotFound))
    case Some(i) =>
      if store[i].status != Pending then Handled(store, Rejected(400, OnlyPendingUpdatable))
      else
        var c' := ApplyUpdate(store[i], body);
        Handled(Seqs.ReplaceAt(store, i, c'), Ok(200, c'))
  }

  /** DELETE /contacts/:id. */
  function DeleteContact(store: ComplaintStore, requester: ObjectId,
                         id: ObjectId): (h: Handled<ComplaintStore, string>)
    ensures (forall j :: 0 <= j < |store| ==> !OwnedMatch(store[j], id, requester)) ==>
              h == Handled(store, Rejected(404, ComplaintNotFound))
    ensures Lookup(store, id, requester).Some? ==>
              var i := Lookup(store, id, requester).value;
              && (store[i].status != Pending ==>
                    h == Handled(store, Rejected(400, OnlyPendingDeletable)))
              && (store[i].status == Pending ==>
                    h == Handled(Seqs.RemoveAt(store, i), Ok(200, Deleted)))
  {
    match Lookup(store, id, requester)
    case None => Handled(store, Rejected(404, ComplaintNotFound))
    case Some(i) =>
      if store[i].status != Pending then Handled(store, Rejected(400, OnlyPendingDeletable))
      else Handled(Seqs.RemoveAt(store, i), Ok(200, Deleted))
  }

  // ---------------------------------------------------------------------
  // Properties relating several calls

  /** Someone else's complaint is indistinguishable from a missing one:
      both update and delete answer 404 and change nothing. */
  lemma ForeignComplaintLooksMissing(store: ComplaintStore, requester: ObjectId, id: ObjectId,
                                     body: UpdateBody)
    requires forall j :: 0 <= j < |store| && store[j].id == id ==> store[j].user != requester
    ensures UpdateContact(store, requester, id, body) == Handled(store, Rejected(404, ComplaintNotFound))
    ensures DeleteContact(store, requester, id) == Handled(store, Rejected(404, ComplaintNotFound))
  {
  }

  /** An update that moves the status off "pending" locks the complaint:
      every later update or delete by its owner is refused with 400. */
  lemma LeavingPendingLocks(store: ComplaintStore, requester: ObjectId,
                                               id: ObjectId, first: UpdateBody, second: UpdateBody)
    requires UpdateContact(store, requester, id, first).reply.Ok?
    requires first.status.Some? && first.status.value != Pending
    ensures var s1 := UpdateContact(store, requester, id, first).store;
            && UpdateContact(s1, requester, id, second) == Handled(s1, Rejected(400, OnlyPendingUpdatable))
            && DeleteContact(s1, requester, id) == Handled(s1, Rejected(400, OnlyPendingDeletable))
  {
    var i := Lookup(store, id, requester).value;
    var s1 := UpdateContact(store, requester, id, first).store;
    assert s1[i].status == first.status.value;
    assert Lookup(s1, id, requester) == Some(i);
  }

  /** A successful delete removes exactly one complaint. */
  lemma DeleteRemovesOne(store: ComplaintStore, requester: ObjectId, id: ObjectId)
    requires DeleteContact(store, requester, id).reply.Ok?
    ensures |DeleteContact(store, requester, id).store| == |store| - 1
  {
  }
}
