/** A user's address book, kept twice: under one mutex, and as single conditional updates of a document. */
module AddressBook {
  import opened Common

  type UserId = string

  datatype Address = Address(id: string, title: string, details: string)

  datatype User = User(profile: string, addresses: seq<Address>)

  datatype AddressError = UserNotFound | TitleTaken | BookFull | AddressNotFound | ChangedConcurrently

  datatype Reply = Saved(user: User) | Refused(error: AddressError)

  type Users = map<UserId, User>

  // ---------- under the mutex ----------

  predicate HasTitle(book: seq<Address>, title: string) {
    exists i :: 0 <= i < |book| && book[i].title == title
  }

  predicate HasId(book: seq<Address>, id: string) {
    exists i :: 0 <= i < |book| && book[i].id == id
  }

  /** Another address carries the title. */
  predicate TitleElsewhere(book: seq<Address>, address: Address) {
    exists i :: 0 <= i < |book| && book[i].id != address.id && book[i].title == address.title
  }

  /** The index of the first address with the id, or the length of the book. */
  function FirstIndex(book: seq<Address>, id: string): (k: nat)
    ensures k <= |book|
    ensures k < |book| <==> HasId(book, id)
    ensures k < |book| ==> book[k].id == id
    ensures forall i :: 0 <= i < k ==> book[i].id != id
  {
    if book == [] then 0
    else if book[0].id == id then 0
    else
      var rest := FirstIndex(book[1..], id);
      assert forall i :: 1 <= i < |book| ==> book[i] == book[1..][i - 1];
      rest + 1
  }

  datatype BookReply = Book(book: seq<Address>) | No(error: AddressError)

  function AddedTo(book: seq<Address>, address: Address, max: int): BookReply {
    if HasTitle(book, address.title) then No(TitleTaken)
    else if |book| >= max then No(BookFull)
    else Book(book + [address])
  }

  function UpdatedIn(book: seq<Address>, address: Address): BookReply {
    var k := FirstIndex(book, address.id);
    if k == |book| then No(AddressNotFound)
    else if TitleElsewhere(book, address) then No(TitleTaken)
    else Book(book[k := address])
  }

  function DeletedFrom(book: seq<Address>, id: string): BookReply {
    var k := FirstIndex(book, id);
    if k == |book| then No(AddressNotFound) else Book(book[..k] + book[k + 1..])
  }

  datatype Op =
    | Add(userId: UserId, address: Address)
    | Update(userId: UserId, address: Address)
    | Delete(userId: UserId, addressId: string)

  function BookAfter(book: seq<Address>, op: Op, max: int): BookReply {
    match op
    case Add(_, address) => AddedTo(book, address, max)
    case Update(_, address) => UpdatedIn(book, address)
    case Delete(_, id) => DeletedFrom(book, id)
  }

  function MemoryStep(users: Users, op: Op, max: int): (Users, Reply) {
    if op.userId !in users then (users, Refused(UserNotFound))
    else match BookAfter(users[op.userId].addresses, op, max)
      case No(error) => (users, Refused(error))
      case Book(book) =>
        var user := users[op.userId].(addresses := book);
        (users[op.userId := user], Saved(user))
  }

  class MemoryUsers {
    var byID: Users

    constructor (users: Users)
      ensures byID == users
    {
      byID := users;
    }

    method AddAddress(userId: UserId, address: Address, max: int) returns (reply: Reply)
      modifies this
      ensures (byID, reply) == MemoryStep(old(byID), Add(userId, address), max)
    {
      if userId !in byID {
        return Refused(UserNotFound);
      }
      var user := byID[userId];
      var i := 0;
      while i < |user.addresses|
        invariant 0 <= i <= |user.addresses|
        invariant forall j :: 0 <= j < i ==> user.addresses[j].title != address.title
        invariant byID == old(byID)
      {
        if user.addresses[i].title == address.title {
          return Refused(TitleTaken);
        }
        i := i + 1;
      }
      if |user.addresses| >= max {
        return Refused(BookFull);
      }
      user := user.(addresses := user.addresses + [address]);
      byID := byID[userId := user];
      return Saved(user);
    }

    method UpdateAddress(userId: UserId, address: Address) returns (reply: Reply)
      modifies this
      ensures forall max :: (byID, reply) == MemoryStep(old(byID), Update(userId, address), max)
    {
      if userId !in byID {
        return Refused(UserNotFound);
      }
      var user := byID[userId];
      var index := FirstIndex(user.addresses, address.id);
      if index == |user.addresses| {
        return Refused(AddressNotFound);
      }
      var i := 0;
      while i < |user.addresses|
        invariant 0 <= i <= |user.addresses|
        invariant forall j :: 0 <= j < i ==>
                  user.addresses[j].id == address.id || user.addresses[j].title != address.title
        invariant byID == old(byID)
      {
        if user.addresses[i].id != address.id && user.addresses[i].title == address.title {
          return Refused(TitleTaken);
        }
        i := i + 1;
      }
      user := user.(addresses := user.addresses[index := address]);
      byID := byID[userId := user];
      return Saved(user);
    }

    method DeleteAddress(userId: UserId, addressId: string) returns (reply: Reply)
      modifies this
      ensures forall max :: (byID, reply) == MemoryStep(old(byID), Delete(userId, addressId), max)
    {
      if userId !in byID {
        return Refused(UserNotFound);
      }
      var user := byID[userId];
      var index := FirstIndex(user.addresses, addressId);
      if index == |user.addresses| {
        return Refused(AddressNotFound);
      }
      user := user.(addresses := user.addresses[..index] + user.addresses[index + 1..]);
      byID := byID[userId := user];
      return Saved(user);
    }
  }

  // ---------- as conditional updates ----------

  /** A stored address; an empty id is not written. */
  datatype AddressDocument = AddressDocument(id: Option<string>, title: string, details: string)

  /** A stored user; a user without addresses may have no array at all. */
  datatype UserDocument = UserDocument(profile: string, addresses: Option<seq<AddressDocument>>)

  type Documents = map<UserId, UserDocument>

  function ToAddressDocument(a: Address): AddressDocument {
    AddressDocument(if a.id == "" then None else Some(a.id), a.title, a.details)
  }

  function FromAddressDocument(d: AddressDocument): Address {
    Address(if d.id.Some? then d.id.value else "", d.title, d.details)
  }

  function Stored(d: UserDocument): seq<AddressDocument> {
    if d.addresses.Some? then d.addresses.value else []
  }

  function ToBook(docs: seq<AddressDocument>): seq<Address> {
    seq(|docs|, i requires 0 <= i < |docs| => FromAddressDocument(docs[i]))
  }

  function FromUserDocument(d: UserDocument): User {
    User(d.profile, ToBook(Stored(d)))
  }

  predicate DocHasId(docs: seq<AddressDocument>, id: string) {
    exists i :: 0 <= i < |docs| && docs[i].id == Some(id)
  }

  predicate AddMatches(d: UserDocument, address: Address, max: int) {
    && (forall i :: 0 <= i < |Stored(d)| ==> Stored(d)[i].title != address.title)
    && |Stored(d)| < max
  }

  predicate UpdateMatches(d: UserDocument, address: Address) {
    && DocHasId(Stored(d), address.id)
    && !(exists i :: 0 <= i < |Stored(d)| && Stored(d)[i].title == address.title && Stored(d)[i].id != Some(address.id))
  }

  predicate Matches(d: UserDocument, op: Op, max: int) {
    match op
    case Add(_, address) => AddMatches(d, address, max)
    case Update(_, address) => UpdateMatches(d, address)
    case Delete(_, id) => DocHasId(Stored(d), id)
  }

  /** $set through arrayFilters: every element with the id is replaced. */
  function SetAll(docs: seq<AddressDocument>, address: Address): seq<AddressDocument> {
    seq(|docs|, i requires 0 <= i < |docs| =>
      if docs[i].id == Some(address.id) then ToAddressDocument(address) else docs[i])
  }

  /** $pull: every element with the id is removed. */
  function PullAll(docs: seq<AddressDocument>, id: string): seq<AddressDocument> {
    if docs == [] then []
    else (if docs[0].id == Some(id) then [] else [docs[0]]) + PullAll(docs[1..], id)
  }

  function Changed(docs: seq<AddressDocument>, op: Op): seq<AddressDocument> {
    match op
    case Add(_, address) => docs + [ToAddressDocument(address)]
    case Update(_, address) => SetAll(docs, address)
    case Delete(_, id) => PullAll(docs, id)
  }

  /** findOneAndUpdate: filter and update in one atomic step. */
  function FindOneAndUpdate(docs: Documents, op: Op, max: int): (Documents, Option<UserDocument>) {
    if op.userId !in docs || !Matches(docs[op.userId], op, max) then (docs, None)
    else
      var after := docs[op.userId].(addresses := Some(Changed(Stored(docs[op.userId]), op)));
      (docs[op.userId := after], Some(after))
  }

  /** Why the filter did not match, judged by a later read. */
  function Rejection(docs: Documents, op: Op, max: int): AddressError {
    if op.userId !in docs then UserNotFound
    else
      var book := ToBook(Stored(docs[op.userId]));
      match op
      case Add(_, address) =>
        if HasTitle(book, address.title) then TitleTaken
        else if |book| >= max then BookFull
        else ChangedConcurrently
      case Update(_, address) =>
        if !HasId(book, address.id) then AddressNotFound
        else if TitleElsewhere(book, address) then TitleTaken
        else ChangedConcurrently
      case Delete(_, _) => AddressNotFound
  }

  /** What others write between a rejected update and the read that explains it. */
  function MongoStep(docs: Documents, op: Op, max: int, others: Documents -> Documents): (Documents, Reply) {
    match FindOneAndUpdate(docs, op, max)
    case (after, Some(d)) => (after, Saved(FromUserDocument(d)))
    case (_, None) => (others(docs), Refused(Rejection(others(docs), op, max)))
  }

  class MongoUsers {
    const others: Documents -> Documents
    var collection: Documents

    constructor (docs: Documents, others: Documents -> Documents)
      ensures collection == docs && this.others == others
    {
      collection := docs;
      this.others := others;
    }

    method Execute(op: Op, max: int) returns (doc: Option<UserDocument>)
      modifies this
      ensures (collection, doc) == FindOneAndUpdate(old(collection), op, max)
    {
      var (after, found) := FindOneAndUpdate(collection, op, max);
      collection := after;
      doc := found;
    }

    method ByID(userId: UserId) returns (user: Option<User>)
      modifies this
      ensures collection == others(old(collection))
      ensures user == if userId in collection then Some(FromUserDocument(collection[userId])) else None
    {
      collection := others(collection);
      user := if userId in collection then Some(FromUserDocument(collection[userId])) else None;
    }

    method AddAddress(userId: UserId, address: Address, max: int) returns (reply: Reply)
      modifies this
      ensures (collection, reply) == MongoStep(old(collection), Add(userId, address), max, others)
    {
      var doc := Execute(Add(userId, address), max);
      if doc.Some? {
        return Saved(FromUserDocument(doc.value));
      }
      var user := ByID(userId);
      if user.None? {
        return Refused(UserNotFound);
      }
      var i := 0;
      while i < |user.value.addresses|
        invariant 0 <= i <= |user.value.addresses|
        invariant forall j :: 0 <= j < i ==> user.value.addresses[j].title != address.title
        invariant collection == others(old(collection))
      {
        if user.value.addresses[i].title == address.title {
          return Refused(TitleTaken);
        }
        i := i + 1;
      }
      return Refused(if |user.value.addresses| >= max then BookFull else ChangedConcurrently);
    }

    method UpdateAddress(userId: UserId, address: Address) returns (reply: Reply)
      modifies this
      ensures forall max :: (collection, reply) == MongoStep(old(collection), Update(userId, address), max, others)
    {
      var doc := Execute(Update(userId, address), 0);
      if doc.Some? {
        return Saved(FromUserDocument(doc.value));
      }
      var user := ByID(userId);
      if user.None? {
        return Refused(UserNotFound);
      }
      if !HasId(user.value.addresses, address.id) {
        return Refused(AddressNotFound);
      }
      if TitleElsewhere(user.value.addresses, address) {
        return Refused(TitleTaken);
      }
      return Refused(ChangedConcurrently);
    }

    method DeleteAddress(userId: UserId, addressId: string) returns (reply: Reply)
      modifies this
      ensures forall max :: (collection, reply) == MongoStep(old(collection), Delete(userId, addressId), max, others)
    {
      var doc := Execute(Delete(userId, addressId), 0);
      if doc.Some? {
        return Saved(FromUserDocument(doc.value));
      }
      var user := ByID(userId);
      if user.None? {
        return Refused(UserNotFound);
      }
      return Refused(AddressNotFound);
    }
  }
}
