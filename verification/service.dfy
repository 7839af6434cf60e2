/**
 * The shopping-list service: the rules that decide whether a list may be
 * read, created, updated or deleted, applied to a key-value table addressed
 * by (owner, list id).
 *
 * The rule checks are pure functions of the table and the input. Each
 * state-changing operation has a reference definition (CreateOutcome,
 * UpdateOutcome, DeleteOutcome) whose contract states the rules, and the
 * class ShoppingListService carries out the same operation step by step on
 * its own fields and is proved to agree with that definition.
 */
module Service {
  import opened ShopList

  /** A table key: partition key `userId`, sort key `id`. */
  type Key = (string, string)

  /** The table's contents. */
  type Table = map<Key, ShoppingList>

  /** Quotas used when the configuration leaves them unset. */
  const DefaultListQuota: int := 50
  const DefaultItemQuota: int := 1000

  /** Titles shorter than this are refused by an update. */
  const MinTitleLength: nat := 3

  /**
   * Every stored item carries its own key: its `userId` and `id`
   * attributes are the partition and sort key it is stored under.
   */
  predicate WellKeyed(t: Table) {
    forall k | k in t :: t[k].userId == Some(k.0) && t[k].id == Some(k.1)
  }

  /** The record as returned to callers: `userId` deleted. */
  function Strip(l: ShoppingList): ShoppingList {
    l.(userId := None)
  }

  /** The keys of the lists owned by `userId`. */
  function PartitionKeys(t: Table, userId: string): set<Key> {
    set k | k in t && k.0 == userId
  }

  /**
   * `lists` is an answer to "all lists of `userId`" in some order: each
   * owned list appears, stripped of `userId`, exactly once, and nothing else.
   */
  ghost predicate IsListing(t: Table, userId: string, lists: seq<ShoppingList>) {
    && |lists| == |PartitionKeys(t, userId)|
    && (forall i | 0 <= i < |lists| :: lists[i].userId.None?)
    && (forall k | k in t && k.0 == userId :: Strip(t[k]) in lists)
    && (forall i | 0 <= i < |lists| :: exists k | k in t && k.0 == userId :: lists[i] == Strip(t[k]))
    && (forall i, j | 0 <= i < j < |lists| :: lists[i] != lists[j])
  }

  /**
   * Query the partition of `userId` and delete `userId` from every item
   * found. The table returns the partition in ascending `id` order; the
   * model does not fix an order, so the loop takes the keys in any order.
   */
  method QueryStripped(t: Table, userId: string) returns (lists: seq<ShoppingList>)
    requires WellKeyed(t)
    ensures IsListing(t, userId, lists)
  {
    var pending := PartitionKeys(t, userId);
    ghost var taken: seq<Key> := [];
    lists := [];
    while pending != {}
      invariant pending <= PartitionKeys(t, userId)
      invariant |lists| + |pending| == |PartitionKeys(t, userId)|
      invariant |taken| == |lists|
      invariant forall i | 0 <= i < |taken| ::
        taken[i] in PartitionKeys(t, userId) && taken[i] !in pending && lists[i] == Strip(t[taken[i]])
      invariant forall k | k in PartitionKeys(t, userId) && k !in pending :: Strip(t[k]) in lists
      invariant forall i, j | 0 <= i < j < |lists| :: lists[i] != lists[j]
      decreases pending
    {
      var k :| k in pending;
      var next := Strip(t[k]);
      forall i | 0 <= i < |lists|
        ensures lists[i] != next
      {
        StrippedDiffer(t, taken[i], k);
      }
      lists := lists + [next];
      taken := taken + [k];
      pending := pending - {k};
    }
    forall i | 0 <= i < |lists|
      ensures exists k | k in t && k.0 == userId :: lists[i] == Strip(t[k])
    {
      assert taken[i] in PartitionKeys(t, userId);
    }
  }

  /** Two lists stored under different keys of one partition differ once stripped. */
  lemma StrippedDiffer(t: Table, k1: Key, k2: Key)
    requires WellKeyed(t) && k1 in t && k2 in t && k1.0 == k2.0 && k1 != k2
    ensures Strip(t[k1]) != Strip(t[k2])
  {
  }

  /** In a sequence without repetitions every element occurs once. */
  lemma {:induction false} DistinctMultiplicity(s: seq<ShoppingList>, x: ShoppingList)
    requires forall i, j | 0 <= i < j < |s| :: s[i] != s[j]
    ensures multiset(s)[x] == if x in s then 1 else 0
  {
    if s != [] {
      var rest := s[1..];
      forall i, j | 0 <= i < j < |rest|
        ensures rest[i] != rest[j]
      {
        assert rest[i] == s[i + 1] && rest[j] == s[j + 1];
      }
      DistinctMultiplicity(rest, x);
      assert s == [s[0]] + rest;
      assert multiset(s) == multiset{s[0]} + multiset(rest);
      if x == s[0] {
        forall i | 0 <= i < |rest|
          ensures rest[i] != x
        {
          assert rest[i] == s[i + 1];
        }
      }
    }
  }

  /** Two listings of the same partition differ at most in their order. */
  lemma ListingsArePermutations(t: Table, userId: string, a: seq<ShoppingList>, b: seq<ShoppingList>)
    requires IsListing(t, userId, a) && IsListing(t, userId, b)
    ensures multiset(a) == multiset(b)
  {
    forall x
      ensures multiset(a)[x] == multiset(b)[x]
    {
      DistinctMultiplicity(a, x);
      DistinctMultiplicity(b, x);
      if x in a {
        var i :| 0 <= i < |a| && a[i] == x;
        var k :| k in t && k.0 == userId && a[i] == Strip(t[k]);
        assert x in b;
      }
      if x in b {
        var i :| 0 <= i < |b| && b[i] == x;
        var k :| k in t && k.0 == userId && b[i] == Strip(t[k]);
        assert x in a;
      }
    }
  }

  /**
   * getById: the stored list at (userId, id) without its `userId`. A falsy
   * `userId` is refused before the table is consulted.
   */
  function FindList(t: Table, userId: Option<string>, id: string): (r: Result<ShoppingList>)
    ensures !Truthy(userId) ==> r == Failure(UserIdIsMissing(id))
    ensures Truthy(userId) ==> (r == Failure(ListNotFound(userId.value, id)) <==> (userId.value, id) !in t)
    ensures r.Success? <==> Truthy(userId) && (userId.value, id) in t
    ensures r.Success? ==> r.value == Strip(t[(userId.value, id)]) && r.value.userId.None?
    ensures r.Success? && WellKeyed(t) ==> r.value.id == Some(id)
  {
    if !Truthy(userId) then Failure(UserIdIsMissing(id))
    else if (userId.value, id) !in t then Failure(ListNotFound(userId.value, id))
    else Success(Strip(t[(userId.value, id)]))
  }

  /**
   * checkQuotas: refuses when the counter last set by getAll has reached
   * the list quota. The user it is called for plays no part.
   */
  function CheckQuotas(userId: Option<string>, itemCount: int, listQuota: int): (o: Outcome)
    ensures o.Fail? <==> itemCount >= listQuota
    ensures o.Fail? ==> o.error == TooManyLists(itemCount)
  {
    if itemCount >= listQuota then Fail(TooManyLists(itemCount)) else Pass
  }

  /** The list has no `items`, or at most `itemQuota` of them. */
  predicate WithinItemQuota(l: ShoppingList, itemQuota: int) {
    l.items.None? || |l.items.value| <= itemQuota
  }

  /** validate: refuses a list with more items than the item quota. */
  function Validate(l: ShoppingList, itemQuota: int): (o: Outcome)
    ensures o.Pass? <==> WithinItemQuota(l, itemQuota)
    ensures o.Fail? ==> o.error == TooManyItems(|l.items.value|)
  {
    if l.items.Some? && |l.items.value| > itemQuota then Fail(TooManyItems(|l.items.value|)) else Pass
  }

  /**
   * validateCreate: the id must be truthy and not yet stored for the owner;
   * then the general checks. A lookup that throws (falsy owner, list not
   * found) is swallowed and counts as "not stored".
   */
  function ValidateCreate(t: Table, l: ShoppingList, itemQuota: int): (o: Outcome)
    ensures o.Pass? <==>
      && Truthy(l.id)
      && !(Truthy(l.userId) && (l.userId.value, l.id.value) in t)
      && WithinItemQuota(l, itemQuota)
    ensures !Truthy(l.id) ==> o == Fail(IdIsMissing(l.id))
    ensures Truthy(l.id) && Truthy(l.userId) && (l.userId.value, l.id.value) in t ==>
      o == Fail(ShoplistAlreadyExists(l.id.value))
    ensures Truthy(l.id) && !(Truthy(l.userId) && (l.userId.value, l.id.value) in t) && !WithinItemQuota(l, itemQuota)
      ==> o == Fail(TooManyItems(|l.items.value|))
    ensures o.Fail? ==> o.error.IdIsMissing? || o.error.ShoplistAlreadyExists? || o.error.TooManyItems?
  {
    if !Truthy(l.id) then Fail(IdIsMissing(l.id))
    else if FindList(t, l.userId, l.id.value).Success? then Fail(ShoplistAlreadyExists(l.id.value))
    else Validate(l, itemQuota)
  }

  /** A title is present and shorter than the minimum. */
  predicate TitleTooShort(l: ShoppingList) {
    l.title.Some? && |l.title.value| < MinTitleLength
  }

  /**
   * validateUpdate: id present, then a present title long enough, then the
   * list exists (the lookup's error is passed on), then the general checks.
   */
  function ValidateUpdate(t: Table, l: ShoppingList, itemQuota: int): (o: Outcome)
    ensures o.Pass? <==>
      && Truthy(l.id)
      && !TitleTooShort(l)
      && Truthy(l.userId) && (l.userId.value, l.id.value) in t
      && WithinItemQuota(l, itemQuota)
    ensures !Truthy(l.id) ==> o == Fail(IdIsMissing(l.id))
    ensures Truthy(l.id) && TitleTooShort(l) ==> o == Fail(TitleIsTooShort(l.title.value))
    ensures Truthy(l.id) && !TitleTooShort(l) && FindList(t, l.userId, l.id.value).Failure? ==>
      o == Fail(FindList(t, l.userId, l.id.value).error)
    ensures Truthy(l.id) && !TitleTooShort(l) && FindList(t, l.userId, l.id.value).Success? && !WithinItemQuota(l, itemQuota)
      ==> o == Fail(TooManyItems(|l.items.value|))
  {
    if !Truthy(l.id) then Fail(IdIsMissing(l.id))
    else if l.title.Some? && |l.title.value| < MinTitleLength then Fail(TitleIsTooShort(l.title.value))
    else match FindList(t, l.userId, l.id.value)
      case Failure(e) => Fail(e)
      case Success(_) => Validate(l, itemQuota)
  }

  /** validateDelete: the list must exist; the lookup's error is passed on. */
  function ValidateDelete(t: Table, userId: string, id: string): (o: Outcome)
    ensures o.Pass? <==> userId != "" && (userId, id) in t
    ensures o.Fail? ==> FindList(t, Some(userId), id) == Failure(o.error)
  {
    match FindList(t, Some(userId), id)
    case Failure(e) => Fail(e)
    case Success(_) => Pass
  }

  /** What an operation returned, and the table afterwards. */
  datatype Change = Change(result: Result<ShoppingList>, table: Table)

  /**
   * create: quota, then a new id replacing any id in the input, then the
   * create checks, then a put of the whole record. `itemCount` is the
   * counter as getAll last left it; create does not change it.
   */
  function CreateOutcome(t: Table, itemCount: int, listQuota: int, itemQuota: int,
                         input: ShoppingList, newId: string): (c: Change)
    ensures c.result == Failure(TooManyLists(itemCount)) <==> itemCount >= listQuota
    ensures itemCount < listQuota && ValidateCreate(t, input.(id := Some(newId)), itemQuota).Fail? ==>
      c.result == Failure(ValidateCreate(t, input.(id := Some(newId)), itemQuota).error)
    ensures itemCount < listQuota && ValidateCreate(t, input.(id := Some(newId)), itemQuota).Pass? && input.userId.None?
      ==> c.result == Failure(MissingKeyAttribute)
    ensures c.result.Success? <==>
      && itemCount < listQuota
      && newId != ""
      && input.userId.Some?
      && (input.userId.value == "" || (input.userId.value, newId) !in t)
      && WithinItemQuota(input, itemQuota)
    ensures c.result.Failure? ==>
      && c.table == t
      && (c.result.error.TooManyLists? || c.result.error.IdIsMissing? || c.result.error.ShoplistAlreadyExists?
          || c.result.error.TooManyItems? || c.result.error.MissingKeyAttribute?)
    ensures c.result.Success? ==>
      && c.result.value == input.(userId := None, id := Some(newId))
      && c.table == t[(input.userId.value, newId) := input.(id := Some(newId))]
    ensures WellKeyed(t) ==> WellKeyed(c.table)
    ensures c.result.Success? && Truthy(input.userId) ==> FindList(c.table, input.userId, newId) == c.result
  {
    match CheckQuotas(input.userId, itemCount, listQuota)
    case Fail(e) => Change(Failure(e), t)
    case Pass =>
      var item := input.(id := Some(newId));
      match ValidateCreate(t, item, itemQuota)
      case Fail(e) => Change(Failure(e), t)
      case Pass =>
        if item.userId.None? then Change(Failure(MissingKeyAttribute), t)
        else Change(Success(Strip(item)), t[(item.userId.value, newId) := item])
  }

  /**
   * update: the update checks, then a put that replaces the whole record
   * stored under (userId, id) by the input; nothing of the old record is kept.
   */
  function UpdateOutcome(t: Table, itemQuota: int, input: ShoppingList): (c: Change)
    ensures c.result.Success? <==> ValidateUpdate(t, input, itemQuota).Pass?
    ensures c.result.Failure? ==> c.result.error == ValidateUpdate(t, input, itemQuota).error && c.table == t
    ensures c.result.Success? ==>
      && c.result.value == Strip(input)
      && c.table == t[(input.userId.value, input.id.value) := input]
      && FindList(c.table, input.userId, input.id.value) == c.result
    ensures WellKeyed(t) ==> WellKeyed(c.table)
  {
    match ValidateUpdate(t, input, itemQuota)
    case Fail(e) => Change(Failure(e), t)
    case Pass => Change(Success(Strip(input)), t[(input.userId.value, input.id.value) := input])
  }

  /**
   * delete: the list must exist; it is removed and only its id is returned.
   */
  function DeleteOutcome(t: Table, userId: string, id: string): (c: Change)
    ensures c.result.Success? <==> userId != "" && (userId, id) in t
    ensures c.result.Failure? ==> c.result == FindList(t, Some(userId), id) && c.table == t
    ensures c.result.Success? ==>
      && c.result.value == Blank.(id := Some(id))
      && c.table == t - {(userId, id)}
      && FindList(c.table, Some(userId), id) == Failure(ListNotFound(userId, id))
    ensures WellKeyed(t) ==> WellKeyed(c.table)
  {
    match ValidateDelete(t, userId, id)
    case Fail(e) => Change(Failure(e), t)
    case Pass => Change(Success(Blank.(id := Some(id))), t - {(userId, id)})
  }

  /**
   * The list quota is tested against the counter only: with the counter
   * still at its initial -1, a create is never refused for too many lists,
   * however many lists the user already owns.
   */
  lemma InitialCounterNeverRefuses(t: Table, listQuota: int, itemQuota: int, input: ShoppingList, newId: string)
    requires listQuota >= 0
    ensures !CreateOutcome(t, -1, listQuota, itemQuota, input, newId).result.Failure?
      || !CreateOutcome(t, -1, listQuota, itemQuota, input, newId).result.error.TooManyLists?
  {
  }

  /**
   * The counter belongs to the service, not to a user: once it has reached
   * the quota, every user's create is refused, even by a user owning no list.
   */
  lemma CounterIsNotPerUser(t: Table, itemCount: int, listQuota: int, itemQuota: int,
                            input: ShoppingList, newId: string)
    requires itemCount >= listQuota
    requires input.userId.Some? && PartitionKeys(t, input.userId.value) == {}
    ensures CreateOutcome(t, itemCount, listQuota, itemQuota, input, newId).result == Failure(TooManyLists(itemCount))
  {
  }

  /** The service object: the table it works on, the counter, the two quotas. */
  class ShoppingListService {
    var table: Table
    var itemCount: int
    const listQuota: int
    const itemQuota: int

    ghost predicate Valid()
      reads this
    {
      WellKeyed(table)
    }

    /**
     * A service over an existing table. An unset quota setting falls back
     * to its default; the counter starts at -1.
     */
    constructor (contents: Table, listQuotaSetting: Option<int>, itemQuotaSetting: Option<int>)
      requires WellKeyed(contents)
      ensures Valid() && table == contents && itemCount == -1
      ensures listQuota == (if listQuotaSetting.Some? then listQuotaSetting.value else DefaultListQuota)
      ensures itemQuota == (if itemQuotaSetting.Some? then itemQuotaSetting.value else DefaultItemQuota)
    {
      table := contents;
      listQuota := if listQuotaSetting.Some? then listQuotaSetting.value else DefaultListQuota;
      itemQuota := if itemQuotaSetting.Some? then itemQuotaSetting.value else DefaultItemQuota;
      itemCount := -1;
    }

    /** getAll: the user's lists, and the counter set to how many there are. */
    method GetAll(userId: string) returns (lists: seq<ShoppingList>)
      requires Valid()
      modifies this`itemCount
      ensures Valid() && table == old(table)
      ensures IsListing(table, userId, lists)
      ensures itemCount == |lists| == |PartitionKeys(table, userId)|
    {
      lists := QueryStripped(table, userId);
      itemCount := |lists|;
    }

    /** getById: reads the table only. */
    method GetById(userId: Option<string>, id: string) returns (r: Result<ShoppingList>)
      ensures r == FindList(table, userId, id)
    {
      if !Truthy(userId) {
        return Failure(UserIdIsMissing(id));
      }
      if (userId.value, id) !in table {
        return Failure(ListNotFound(userId.value, id));
      }
      var found := table[(userId.value, id)];
      r := Success(Strip(found));
    }

    /** create, with `newId` standing for the freshly generated UUID. */
    method Create(input: ShoppingList, newId: string) returns (r: Result<ShoppingList>)
      requires Valid()
      modifies this`table
      ensures Valid() && itemCount == old(itemCount)
      ensures Change(r, table) == CreateOutcome(old(table), itemCount, listQuota, itemQuota, input, newId)
    {
      var quota := CheckQuotas(input.userId, itemCount, listQuota);
      if quota.Fail? {
        return Failure(quota.error);
      }
      var item := input.(id := Some(newId));
      var check := ValidateCreate(table, item, itemQuota);
      if check.Fail? {
        return Failure(check.error);
      }
      if item.userId.None? {
        return Failure(MissingKeyAttribute);
      }
      table := table[(item.userId.value, newId) := item];
      r := Success(Strip(item));
    }

    /** update: a whole-record put after the update checks. */
    method Update(input: ShoppingList) returns (r: Result<ShoppingList>)
      requires Valid()
      modifies this`table
      ensures Valid() && itemCount == old(itemCount)
      ensures Change(r, table) == UpdateOutcome(old(table), itemQuota, input)
    {
      var check := ValidateUpdate(table, input, itemQuota);
      if check.Fail? {
        return Failure(check.error);
      }
      var key := (input.userId.value, input.id.value);
      table := table[key := input];
      r := Success(Strip(input));
    }

    /** delete: removes the list at (userId, id) once it is known to exist. */
    method Delete(userId: string, id: string) returns (r: Result<ShoppingList>)
      requires Valid()
      modifies this`table
      ensures Valid() && itemCount == old(itemCount)
      ensures Change(r, table) == DeleteOutcome(old(table), userId, id)
    {
      var check := ValidateDelete(table, userId, id);
      if check.Fail? {
        return Failure(check.error);
      }
      table := table - {(userId, id)};
      r := Success(Blank.(id := Some(id)));
    }
  }
}
