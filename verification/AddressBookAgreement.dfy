/** The two address books answer alike, and exactly when they would not. */
module AddressBookAgreement {
  import opened Common
  import opened AddressBook

  // ---------- what a good book is, and that every operation keeps it ----------

  predicate BookOk(book: seq<Address>, max: int) {
    && |book| <= max
    && (forall i :: 0 <= i < |book| ==> book[i].id != "")
    && (forall i, j :: 0 <= i < j < |book| ==> book[i].id != book[j].id && book[i].title != book[j].title)
  }

  /** A new address comes with an id the book does not know. */
  predicate IsFresh(book: seq<Address>, op: Op) {
    op.Add? ==> op.address.id != "" && !HasId(book, op.address.id)
  }

  /** Ids and titles stay unique and the book stays within its size, whatever is added, changed or removed. */
  lemma OperationsKeepTheBook(book: seq<Address>, op: Op, max: int)
    requires BookOk(book, max) && IsFresh(book, op)
    ensures BookAfter(book, op, max).Book? ==> BookOk(BookAfter(book, op, max).book, max)
  {
    match op
    case Add(_, address) =>
    case Update(_, address) =>
    case Delete(_, id) =>
      if FirstIndex(book, id) < |book| {
        RemovalKeepsTheBook(book, FirstIndex(book, id), max);
      }
  }

  /** The first address with the id is at k. */
  predicate IsFirstAt(book: seq<Address>, id: string, k: nat) {
    k < |book| && book[k].id == id && forall i :: 0 <= i < k ==> book[i].id != id
  }

  /**
   * What an operation does to a book whose first address with the id is at k, or that has none: the first check that
   * fails refuses it, and otherwise it makes its change.
   */
  lemma OperationsAnswerExactly(book: seq<Address>, op: Op, max: int, k: nat)
    requires !op.Add? && (exists i :: 0 <= i < |book| && book[i].id == IdOf(op)) ==> IsFirstAt(book, IdOf(op), k)
    ensures BookAfter(book, op, max)
         == match op
            case Add(_, address) =>
              if exists i :: 0 <= i < |book| && book[i].title == address.title then No(TitleTaken)
              else if |book| >= max then No(BookFull)
              else Book(book + [address])
            case Update(_, address) =>
              if !IsFirstAt(book, address.id, k) then No(AddressNotFound)
              else if exists i :: 0 <= i < |book| && book[i].id != address.id && book[i].title == address.title
              then No(TitleTaken)
              else Book(book[k := address])
            case Delete(_, id) =>
              if !IsFirstAt(book, id, k) then No(AddressNotFound) else Book(book[..k] + book[k + 1..])
  {
    if IsFirstAt(book, IdOf(op), k) {
      assert FirstIndex(book, IdOf(op)) == k;
    }
  }

  lemma RemovalKeepsTheBook(book: seq<Address>, k: nat, max: int)
    requires BookOk(book, max) && k < |book|
    ensures BookOk(book[..k] + book[k + 1..], max)
  {
    var after := book[..k] + book[k + 1..];
    assert forall i :: 0 <= i < |after| ==> after[i] == if i < k then book[i] else book[i + 1];
  }

  // ---------- one document against one book ----------

  /** Stored ids are never empty strings. */
  predicate WellStored(docs: seq<AddressDocument>) {
    forall i :: 0 <= i < |docs| ==> docs[i].id != Some("")
  }

  function IdOf(op: Op): string {
    if op.Delete? then op.addressId else op.address.id
  }

  /** An operation by empty id on a book that holds one: stored ids are left out then, so filters do not see them. */
  predicate AsksForLegacy(book: seq<Address>, op: Op) {
    !op.Add? && IdOf(op) == "" && HasId(book, "")
  }

  lemma IdsAgree(docs: seq<AddressDocument>, id: string)
    requires WellStored(docs) && (id == "" ==> !HasId(ToBook(docs), ""))
    ensures DocHasId(docs, id) <==> HasId(ToBook(docs), id)
    ensures forall i :: 0 <= i < |docs| ==> (docs[i].id == Some(id) <==> ToBook(docs)[i].id == id)
  {
    var book := ToBook(docs);
    forall i | 0 <= i < |docs|
      ensures docs[i].id == Some(id) <==> book[i].id == id
    {
      if id == "" {
        assert book[i].id != "";
      }
    }
    if HasId(book, id) {
      var i :| 0 <= i < |book| && book[i].id == id;
      assert docs[i].id == Some(id);
    }
  }

  lemma TitlesAgree(docs: seq<AddressDocument>)
    ensures |ToBook(docs)| == |docs| && forall i :: 0 <= i < |docs| ==> ToBook(docs)[i].title == docs[i].title
  {
  }

  lemma LegacyIdsAreNotSeen(docs: seq<AddressDocument>)
    requires WellStored(docs)
    ensures !DocHasId(docs, "")
  {
  }

  /**
   * On any stored book, the filter matches exactly when the mutex version accepts and the id asked for is not empty.
   */
  lemma FilterAgrees(d: UserDocument, op: Op, max: int)
    requires WellStored(Stored(d))
    ensures var book := ToBook(Stored(d));
            Matches(d, op, max) <==> BookAfter(book, op, max).Book? && !AsksForLegacy(book, op)
  {
    var docs := Stored(d);
    var book := ToBook(docs);
    TitlesAgree(docs);
    if op.Add? {
      if HasTitle(book, op.address.title) {
        var i :| 0 <= i < |book| && book[i].title == op.address.title;
        assert docs[i].title == op.address.title;
      }
    } else if AsksForLegacy(book, op) {
      LegacyIdsAreNotSeen(docs);
    } else {
      IdsAgree(docs, IdOf(op));
    }
  }

  /**
   * When the filter does not match and nobody wrote meanwhile, the reason given is the mutex version's, unless that
   * version would have accepted, which takes an empty id on a book that holds one.
   */
  lemma RejectionAgrees(docs: Documents, op: Op, max: int)
    requires op.userId in docs && WellStored(Stored(docs[op.userId])) && !Matches(docs[op.userId], op, max)
    ensures var book := ToBook(Stored(docs[op.userId]));
            && (BookAfter(book, op, max) == No(Rejection(docs, op, max)) <==> BookAfter(book, op, max).No?)
            && (BookAfter(book, op, max).Book? ==> AsksForLegacy(book, op))
            && (Rejection(docs, op, max) == ChangedConcurrently <==> BookAfter(book, op, max).Book? && op.Update?)
  {
    FilterAgrees(docs[op.userId], op, max);
  }

  lemma AddWritesTheSame(docs: seq<AddressDocument>, address: Address)
    ensures ToBook(docs + [ToAddressDocument(address)]) == ToBook(docs) + [address]
  {
  }

  function AllReplaced(book: seq<Address>, address: Address): seq<Address> {
    seq(|book|, i requires 0 <= i < |book| => if book[i].id == address.id then address else book[i])
  }

  lemma SetAllReplaces(docs: seq<AddressDocument>, address: Address)
    requires WellStored(docs) && address.id != ""
    ensures ToBook(SetAll(docs, address)) == AllReplaced(ToBook(docs), address)
  {
    IdsAgree(docs, address.id);
  }

  lemma OneReplacementIsAllExactly(book: seq<Address>, address: Address)
    requires HasId(book, address.id)
    ensures var k := FirstIndex(book, address.id);
            AllReplaced(book, address) == book[k := address]
            <==> forall i :: k < i < |book| && book[i].id == address.id ==> book[i] == address
  {
    var k := FirstIndex(book, address.id);
    var all, one := AllReplaced(book, address), book[k := address];
    if i :| k < i < |book| && book[i].id == address.id && book[i] != address {
      assert all[i] != one[i];
    } else {
      assert all == one;
    }
  }

  /**
   * Replacing every element with the id or only the first: the same, exactly when later ones already equal the address.
   */
  lemma UpdateWritesTheSameExactly(docs: seq<AddressDocument>, address: Address)
    requires WellStored(docs) && DocHasId(docs, address.id)
    ensures var book := ToBook(docs);
            var k := FirstIndex(book, address.id);
            k < |book|
            && (ToBook(SetAll(docs, address)) == book[k := address]
                <==> forall i :: k < i < |book| && book[i].id == address.id ==> book[i] == address)
  {
    LegacyIdsAreNotSeen(docs);
    IdsAgree(docs, address.id);
    SetAllReplaces(docs, address);
    OneReplacementIsAllExactly(ToBook(docs), address);
  }

  lemma {:induction false} PullKeepsOthers(docs: seq<AddressDocument>, id: string)
    requires !DocHasId(docs, id)
    ensures PullAll(docs, id) == docs
    decreases |docs|
  {
    if docs != [] {
      assert docs[0].id != Some(id);
      PullKeepsOthers(docs[1..], id);
    }
  }

  lemma {:induction false} PullShrinks(docs: seq<AddressDocument>, id: string)
    ensures |PullAll(docs, id)| <= |docs|
    ensures DocHasId(docs, id) ==> |PullAll(docs, id)| < |docs|
    decreases |docs|
  {
    if docs != [] {
      PullShrinks(docs[1..], id);
      if DocHasId(docs, id) && docs[0].id != Some(id) {
        var i :| 0 <= i < |docs| && docs[i].id == Some(id);
        assert docs[1..][i - 1].id == Some(id);
      }
    }
  }

  lemma BookOfConcat(a: seq<AddressDocument>, b: seq<AddressDocument>)
    ensures ToBook(a + b) == ToBook(a) + ToBook(b)
  {
  }

  /** Up to and including the first element with the id, both remove the same. */
  lemma {:induction false} PullAroundTheFirst(docs: seq<AddressDocument>, id: string, k: nat)
    requires k < |docs| && docs[k].id == Some(id) && forall i :: 0 <= i < k ==> docs[i].id != Some(id)
    ensures PullAll(docs, id) == docs[..k] + PullAll(docs[k + 1..], id)
    decreases k
  {
    if k > 0 {
      PullAroundTheFirst(docs[1..], id, k - 1);
      assert docs[1..][k..] == docs[k + 1..];
      assert docs[..k] == [docs[0]] + docs[1..][..k - 1];
    }
  }

  /** No document with the id comes behind the first exactly when no address does. */
  lemma IdsBehind(docs: seq<AddressDocument>, id: string, k: nat)
    requires WellStored(docs) && k < |docs| && id != ""
    ensures !DocHasId(docs[k + 1..], id) <==> forall i :: k < i < |ToBook(docs)| ==> ToBook(docs)[i].id != id
  {
    var back, book := docs[k + 1..], ToBook(docs);
    if j :| 0 <= j < |back| && back[j].id == Some(id) {
      assert book[k + 1 + j].id == id;
    }
    if i :| k < i < |book| && book[i].id == id {
      assert back[i - k - 1].id == Some(id);
    }
  }

  /** The first address with the id is the first document with it. */
  lemma FirstAgrees(docs: seq<AddressDocument>, id: string)
    requires WellStored(docs) && DocHasId(docs, id)
    ensures var k := FirstIndex(ToBook(docs), id);
            id != "" && k < |docs| && docs[k].id == Some(id) && forall i :: 0 <= i < k ==> docs[i].id != Some(id)
  {
    LegacyIdsAreNotSeen(docs);
    IdsAgree(docs, id);
  }

  /** Removing every element with the id or only the first: the same, exactly when the id occurs once. */
  lemma DeleteWritesTheSameExactly(docs: seq<AddressDocument>, id: string)
    requires WellStored(docs) && DocHasId(docs, id)
    ensures var book := ToBook(docs);
            var k := FirstIndex(book, id);
            k < |book|
            && (ToBook(PullAll(docs, id)) == book[..k] + book[k + 1..]
                <==> forall i :: k < i < |book| ==> book[i].id != id)
  {
    var k := FirstIndex(ToBook(docs), id);
    FirstAgrees(docs, id);
    IdsBehind(docs, id, k);
    PullOneExactly(docs, id, k);
  }

  /** Removing all documents with the id leaves the book without the first, unless there are more. */
  lemma PullOneExactly(docs: seq<AddressDocument>, id: string, k: nat)
    requires k < |docs| && docs[k].id == Some(id) && forall i :: 0 <= i < k ==> docs[i].id != Some(id)
    ensures var book := ToBook(docs);
            ToBook(PullAll(docs, id)) == book[..k] + book[k + 1..] <==> !DocHasId(docs[k + 1..], id)
  {
    var book, back := ToBook(docs), docs[k + 1..];
    PullAroundTheFirst(docs, id, k);
    if DocHasId(back, id) {
      PullShrinks(back, id);
      assert |PullAll(docs, id)| < |book[..k] + book[k + 1..]|;
    } else {
      PullKeepsOthers(back, id);
      BookOfConcat(docs[..k], back);
      assert ToBook(docs[..k]) == book[..k] && ToBook(back) == book[k + 1..];
    }
  }

  lemma GoodBooksUpdateAlike(docs: seq<AddressDocument>, address: Address, max: int)
    requires WellStored(docs) && BookOk(ToBook(docs), max) && UpdatedIn(ToBook(docs), address).Book?
    ensures UpdatedIn(ToBook(docs), address) == Book(ToBook(SetAll(docs, address)))
  {
    var book := ToBook(docs);
    var k := FirstIndex(book, address.id);
    assert book[k].id == address.id != "";
    IdsAgree(docs, address.id);
    assert forall i :: k < i < |book| ==> book[k].id != book[i].id;
    UpdateWritesTheSameExactly(docs, address);
  }

  lemma GoodBooksDeleteAlike(docs: seq<AddressDocument>, id: string, max: int)
    requires WellStored(docs) && BookOk(ToBook(docs), max) && DeletedFrom(ToBook(docs), id).Book?
    ensures DeletedFrom(ToBook(docs), id) == Book(ToBook(PullAll(docs, id)))
  {
    var book := ToBook(docs);
    var k := FirstIndex(book, id);
    assert book[k].id == id != "";
    IdsAgree(docs, id);
    assert forall i :: k < i < |book| ==> book[k].id != book[i].id;
    DeleteWritesTheSameExactly(docs, id);
  }

  /** On a good book both versions accept alike and write the same list. */
  lemma GoodBooksChangeAlike(d: UserDocument, op: Op, max: int)
    requires WellStored(Stored(d)) && BookOk(ToBook(Stored(d)), max) && Matches(d, op, max)
    ensures BookAfter(ToBook(Stored(d)), op, max) == Book(ToBook(Changed(Stored(d), op)))
  {
    FilterAgrees(d, op, max);
    match op
    case Add(_, address) => AddWritesTheSame(Stored(d), address);
    case Update(_, address) => GoodBooksUpdateAlike(Stored(d), address, max);
    case Delete(_, id) => GoodBooksDeleteAlike(Stored(d), id, max);
  }

  lemma {:induction false} PullStaysWellStored(docs: seq<AddressDocument>, id: string)
    requires WellStored(docs)
    ensures WellStored(PullAll(docs, id))
    decreases |docs|
  {
    if docs != [] {
      PullStaysWellStored(docs[1..], id);
    }
  }

  lemma ChangesStayWellStored(docs: seq<AddressDocument>, op: Op)
    requires WellStored(docs)
    ensures WellStored(Changed(docs, op))
  {
    if op.Delete? {
      PullStaysWellStored(docs, op.addressId);
    }
  }

  // ---------- whole stores and whole sequences ----------

  /** The documents hold the users the mutex version holds, and every book is good. */
  predicate Same(users: Users, docs: Documents, max: int) {
    && users.Keys == docs.Keys
    && forall u :: u in users ==>
         && FromUserDocument(docs[u]) == users[u] && WellStored(Stored(docs[u])) && BookOk(users[u].addresses, max)
  }

  predicate IsFreshFor(users: Users, op: Op) {
    op.userId in users ==> IsFresh(users[op.userId].addresses, op)
  }

  function Quiet(): Documents -> Documents {
    (docs: Documents) => docs
  }

  /** One operation: the same answer and the same books. */
  lemma StepsAgree(users: Users, docs: Documents, op: Op, max: int)
    requires Same(users, docs, max) && IsFreshFor(users, op)
    ensures var (usersAfter, answer) := MemoryStep(users, op, max);
            var (docsAfter, reply) := MongoStep(docs, op, max, Quiet());
            answer == reply && Same(usersAfter, docsAfter, max)
  {
    if op.userId in users {
      var d := docs[op.userId];
      var book := users[op.userId].addresses;
      assert book == ToBook(Stored(d));
      assert !HasId(book, "");
      if Matches(d, op, max) {
        GoodBooksChangeAlike(d, op, max);
        ChangesStayWellStored(Stored(d), op);
        OperationsKeepTheBook(book, op, max);
      } else {
        RejectionAgrees(docs, op, max);
      }
    }
  }

  function MemoryRun(users: Users, ops: seq<Op>, max: int): (Users, seq<Reply>)
    decreases |ops|
  {
    if ops == [] then (users, [])
    else
      var (after, reply) := MemoryStep(users, ops[0], max);
      var (last, replies) := MemoryRun(after, ops[1..], max);
      (last, [reply] + replies)
  }

  function MongoRun(docs: Documents, ops: seq<Op>, max: int): (Documents, seq<Reply>)
    decreases |ops|
  {
    if ops == [] then (docs, [])
    else
      var (after, reply) := MongoStep(docs, ops[0], max, Quiet());
      var (last, replies) := MongoRun(after, ops[1..], max);
      (last, [reply] + replies)
  }

  /** Every added address gets an id its book does not know at that moment. */
  predicate FreshRun(users: Users, ops: seq<Op>, max: int)
    decreases |ops|
  {
    ops != [] ==> IsFreshFor(users, ops[0]) && FreshRun(MemoryStep(users, ops[0], max).0, ops[1..], max)
  }

  /**
   * Over every sequence of additions, changes and removals with fresh ids, both versions give the same answers and
   * end with the same good books.
   */
  lemma {:induction false} SequencesAgree(users: Users, docs: Documents, ops: seq<Op>, max: int)
    requires Same(users, docs, max) && FreshRun(users, ops, max)
    ensures MemoryRun(users, ops, max).1 == MongoRun(docs, ops, max).1
    ensures Same(MemoryRun(users, ops, max).0, MongoRun(docs, ops, max).0, max)
    decreases |ops|
  {
    if ops != [] {
      StepsAgree(users, docs, ops[0], max);
      SequencesAgree(MemoryStep(users, ops[0], max).0, MongoStep(docs, ops[0], max, Quiet()).0, ops[1..], max);
    }
  }

  lemma {:induction false} NeverConcurrent(users: Users, ops: seq<Op>, max: int, i: nat)
    requires i < |MemoryRun(users, ops, max).1|
    ensures MemoryRun(users, ops, max).1[i] != Refused(ChangedConcurrently)
    decreases |ops|
  {
    if i > 0 {
      NeverConcurrent(MemoryStep(users, ops[0], max).0, ops[1..], max, i - 1);
    }
  }

  /** Without other writers nobody is ever told that the book changed concurrently. */
  lemma NoConcurrentChangeWithoutWriters(users: Users, docs: Documents, ops: seq<Op>, max: int, i: nat)
    requires Same(users, docs, max) && FreshRun(users, ops, max) && i < |MongoRun(docs, ops, max).1|
    ensures MongoRun(docs, ops, max).1[i] != Refused(ChangedConcurrently)
  {
    SequencesAgree(users, docs, ops, max);
    NeverConcurrent(users, ops, max, i);
  }

  /** With other writers: exactly when the filter missed, but the book as read afterwards would be accepted. */
  lemma ConcurrentChangeExactly(docs: Documents, op: Op, max: int, others: Documents -> Documents)
    ensures MongoStep(docs, op, max, others).1 == Refused(ChangedConcurrently)
       <==> && FindOneAndUpdate(docs, op, max).1.None? && !op.Delete?
            && op.userId in others(docs)
            && BookAfter(ToBook(Stored(others(docs)[op.userId])), op, max).Book?
  {
  }
}
