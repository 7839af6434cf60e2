/**
 * The values the shopping-list service and its request handler pass around:
 * the shopping-list record, the error kinds the service raises, and the
 * messages those errors carry.
 */
module ShopList {

  /** An attribute that may be absent (`undefined` in the record). */
  datatype Option<+T> = None | Some(value: T)

  /** One entry of a list's `items`; the service never looks inside it. */
  datatype Item = Item(text: string)

  /**
   * A shopping-list record. Every attribute may be absent: the handler
   * passes on whatever the request body held. `userId` and `id` together
   * address the record in the table.
   */
  datatype ShoppingList = ShoppingList(
    userId: Option<string>,
    id: Option<string>,
    title: Option<string>,
    items: Option<seq<Item>>,
    issuedAt: Option<string>)

  /** The record with no attribute set (`{}`). */
  const Blank := ShoppingList(None, None, None, None, None)

  /** Truthiness of an optional string: `undefined` and `""` are falsy. */
  predicate Truthy(s: Option<string>) {
    s.Some? && s.value != ""
  }

  /**
   * The errors the service and the handler throw. The source tags them by
   * the text of the message before its first colon; the payloads are what the message
   * interpolates after the tag.
   */
  datatype Error =
    | NotAuthorized
    | UserIdIsMissing(id: string)
    | ListNotFound(userId: string, id: string)
    | TooManyLists(counter: int)
    | TooManyItems(count: nat)
    | IdIsMissing(missing: Option<string>)
    | ShoplistAlreadyExists(id: string)
    | TitleIsTooShort(title: string)
      // the table refuses to store an item that lacks its partition key
    | MissingKeyAttribute

  datatype Result<+T> = Success(value: T) | Failure(error: Error)

  /** The result of a check that either passes or throws. */
  datatype Outcome = Pass | Fail(error: Error)

  /** Decimal text of a non-negative number, as template literals print it. */
  function NatString(n: nat): string
    decreases n
  {
    var digit := "0123456789"[n % 10];
    if n < 10 then [digit] else NatString(n / 10) + [digit]
  }

  /** Decimal text of an integer, with a leading minus sign when negative. */
  function IntString(n: int): string {
    if n < 0 then "-" + NatString(-n) else NatString(n)
  }

  /**
   * The word that names an error kind: the part of its message before the
   * first colon. For the table's own refusal this is the table's wording.
   */
  function Tag(e: Error): string {
    match e
    case NotAuthorized => "not_authorized"
    case UserIdIsMissing(_) => "user_id_is_missing"
    case ListNotFound(_, _) => "list_not_found"
    case TooManyLists(_) => "too_many_lists"
    case TooManyItems(_) => "too_many_items"
    case IdIsMissing(_) => "id_is_missing"
    case ShoplistAlreadyExists(_) => "shoplist_already_exists"
    case TitleIsTooShort(_) => "title_is_too_short"
    case MissingKeyAttribute => "One or more parameter values were invalid"
  }

  /**
   * What a message interpolates after its tag and ": ". A missing id prints
   * as "undefined"; the id and title messages end in a space.
   */
  function Payload(e: Error): string {
    match e
    case NotAuthorized => ""
    case UserIdIsMissing(id) => id
    case ListNotFound(userId, id) => userId + "/" + id
    case TooManyLists(counter) => IntString(counter)
    case TooManyItems(count) => NatString(count)
    case IdIsMissing(missing) => (if missing.Some? then missing.value else "undefined") + " "
    case ShoplistAlreadyExists(id) => id
    case TitleIsTooShort(title) => title + " "
    case MissingKeyAttribute => "Missing the key userId in the item"
  }

  /**
   * The `message` of the thrown error, which the handler puts in the response
   * body: the tag alone for `not_authorized`, otherwise the tag, ": " and
   * the payload.
   */
  function Message(e: Error): (m: string)
    ensures Tag(e) <= m
    ensures m == Tag(e) <==> e.NotAuthorized?
    ensures !e.NotAuthorized? ==> m[|Tag(e)|..] == ": " + Payload(e)
  {
    if e.NotAuthorized? then Tag(e) else Tag(e) + ": " + Payload(e)
  }

  /** What a reader of a message takes as the error's tag: the text before the first colon. */
  function TagOf(m: string): (tag: string)
    ensures tag <= m && ':' !in tag
  {
    if m == [] || m[0] == ':' then [] else [m[0]] + TagOf(m[1..])
  }

  /** The text before a colon-free prefix's end is that prefix. */
  lemma {:induction false} TagOfPrefix(tag: string, rest: string)
    requires ':' !in tag
    requires rest == [] || rest[0] == ':'
    ensures TagOf(tag + rest) == tag
  {
    if tag != [] {
      assert (tag + rest)[1..] == tag[1..] + rest;
      TagOfPrefix(tag[1..], rest);
    } else {
      assert tag + rest == rest;
    }
  }

  /** A string checked character by character to hold no colon. */
  lemma NoColon(s: string)
    requires forall i | 0 <= i < |s| :: s[i] != ':'
    ensures ':' !in s
  {
  }

  /** No tag holds a colon. */
  lemma TagIsColonFree(e: Error)
    ensures ':' !in Tag(e)
  {
    match e
    case NotAuthorized => NoColon("not_authorized");
    case UserIdIsMissing(_) => NoColon("user_id_is_missing");
    case ListNotFound(_, _) => NoColon("list_not_found");
    case TooManyLists(_) => NoColon("too_many_lists");
    case TooManyItems(_) => NoColon("too_many_items");
    case IdIsMissing(_) => NoColon("id_is_missing");
    case ShoplistAlreadyExists(_) => NoColon("shoplist_already_exists");
    case TitleIsTooShort(_) => NoColon("title_is_too_short");
    case MissingKeyAttribute => NoColon("One or more parameter values were invalid");
  }

  /** Every message starts with its error's tag, so the tag can be read back from the body. */
  lemma MessageCarriesTag(e: Error)
    ensures TagOf(Message(e)) == Tag(e)
  {
    TagIsColonFree(e);
    var m := Message(e);
    var rest := m[|Tag(e)|..];
    assert m == Tag(e) + rest;
    TagOfPrefix(Tag(e), rest);
  }
}
